/** Small shared vocabulary: optional values, and sequences without repetition. */
module Common {

  datatype Option<+T> = None | Some(value: T)

  type Pid = nat
  type EventId = nat
  type WaitId = nat
  type Instant = nat
  type SubId = nat
  type AckId = nat
  type Data = seq<bv8>

  /** System calls assert that every text they are given is shorter than this. */
  const STRING_LIMIT: nat := 10000

  /** Bytes of the stack of a new process. */
  const STACK_SIZE: nat := 0x40_0000

  ghost predicate NoDup<T(!new)>(s: seq<T>) {
    forall i, j :: 0 <= i < j < |s| ==> s[i] != s[j]
  }

  /** `s` lists every element of `elems` exactly once. */
  ghost predicate Enumerates<T(!new)>(s: seq<T>, elems: set<T>) {
    && NoDup(s)
    && forall x :: x in s <==> x in elems
  }

  lemma InsertMembers<T(!new)>(s: seq<T>, i: nat, x: T)
    requires i <= |s|
    ensures forall y :: y in s[..i] + [x] + s[i..] <==> y in s || y == x
  {
    forall y ensures y in s <==> y in s[..i] || y in s[i..] {
      assert s == s[..i] + s[i..];
    }
  }

  lemma ConcatEnumerates<T(!new)>(a: seq<T>, A: set<T>, b: seq<T>, B: set<T>)
    requires Enumerates(a, A) && Enumerates(b, B) && A !! B
    ensures Enumerates(a + b, A + B)
  {
    forall i, j | 0 <= i < j < |a + b| ensures (a + b)[i] != (a + b)[j] {
      if i < |a| <= j { assert a[i] in a && b[j - |a|] in b; }
    }
  }
}
