/** Topic names and topic filters of the publish/subscribe namespace. */
module Topics {
  import opened Common

  predicate TopicChar(c: char) {
    'a' <= c <= 'z' || 'A' <= c <= 'Z' || '0' <= c <= '9' || c == '_' || c == '/'
  }

  predicate ValidTopic(s: string) {
    s != "" && s[0] != '/' && s[|s| - 1] != '/' && forall c :: c in s ==> TopicChar(c)
  }

  predicate ValidPrefix(s: string) {
    s != "" && s[0] != '/' && forall c :: c in s ==> TopicChar(c)
  }

  type Topic = s: string | ValidTopic(s) witness "a"
  type TopicPrefix = s: string | ValidPrefix(s) witness "a"

  datatype TopicFilter = Exact(topic: Topic) | Prefix(prefix: TopicPrefix)

  function NewFilter(s: string, exact: bool): Option<TopicFilter> {
    if exact then
      if ValidTopic(s) then Some(Exact(s)) else None
    else
      if ValidPrefix(s) then Some(Prefix(s)) else None
  }

  predicate Matches(f: TopicFilter, t: Topic) {
    match f
    case Exact(a) => a == t
    case Prefix(a) => a <= t
  }

  /** The exclusion test, `contains_filter` in the kernel. */
  predicate ContainsFilter(f: TopicFilter, g: TopicFilter) {
    match (f, g)
    case (Exact(a), Exact(b)) => a == b
    case (Exact(a), Prefix(b)) => b <= a
    case (Prefix(a), Exact(b)) => a <= b
    case (Prefix(a), Prefix(b)) => b <= a || a <= b
  }

  /** A valid topic below a prefix: the prefix itself, or one more letter after a slash. */
  function Below(p: TopicPrefix): (t: Topic)
    ensures p <= t
  {
    if p[|p| - 1] == '/' then
      assert forall c :: c in p + "a" ==> c in p || c == 'a';
      p + "a"
    else p
  }

  function CommonTopic(f: TopicFilter, g: TopicFilter): (t: Topic)
    requires ContainsFilter(f, g)
    ensures Matches(f, t) && Matches(g, t)
  {
    match (f, g)
    case (Exact(a), _) => a
    case (Prefix(a), Exact(b)) => b
    case (Prefix(a), Prefix(b)) => if b <= a then Below(a) else Below(b)
  }

  /** The exclusion test holds exactly when some valid topic is matched by both filters. */
  lemma ContainsFilterIsOverlap(f: TopicFilter, g: TopicFilter)
    ensures ContainsFilter(f, g) <==> exists t: Topic :: Matches(f, t) && Matches(g, t)
    ensures ContainsFilter(f, g) == ContainsFilter(g, f)
  {
    if ContainsFilter(f, g) {
      var t := CommonTopic(f, g);
      assert Matches(f, t) && Matches(g, t);
    }
    forall t: Topic | Matches(f, t) && Matches(g, t)
      ensures ContainsFilter(f, g)
    {
      if f.Prefix? && g.Prefix? {
        PrefixesOfOneTopic(f.prefix, g.prefix, t);
      }
    }
  }

  lemma PrefixesOfOneTopic(a: string, b: string, t: string)
    requires a <= t && b <= t
    ensures a <= b || b <= a
  {
    if |a| <= |b| {
      assert a == t[..|a|] && b == t[..|b|] && a == b[..|a|];
    } else {
      assert a == t[..|a|] && b == t[..|b|] && b == a[..|b|];
    }
  }
}
