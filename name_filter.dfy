/** The name filter of the route handler: the `include` and `exclude` query
    patterns select proxies by name before any conversion. */
module NameFilter {
  import opened Wrappers
  import opened Text
  import opened Proxies
  import Seqs

  /** `name.match(pattern)` is truthy. The regular-expression engine is a parameter:
      any matcher may be supplied, `Text.Contains` being the literal-substring one. */
  type Matcher = (string, string) -> bool

  /** The `include` and `exclude` parameters; an absent or empty pattern is inactive. */
  datatype FilterRule = FilterRule(includePattern: Option<string>, excludePattern: Option<string>)

  /** The condition under which the loop pushes a proxy into `filteredProxies`. */
  predicate Keep(p: Proxy, rule: FilterRule, matches: Matcher)
  {
    NonEmpty(p.name) &&
    (!NonEmpty(rule.includePattern) || matches(p.name.value, rule.includePattern.value)) &&
    (!NonEmpty(rule.excludePattern) || !matches(p.name.value, rule.excludePattern.value))
  }

  /** The list the loop builds, as a value. */
  function Filtered(proxies: seq<Proxy>, rule: FilterRule, matches: Matcher): seq<Proxy>
  {
    Seqs.Filter(proxies, (p: Proxy) => Keep(p, rule, matches))
  }

  /** The `for (const proxy of configData.proxies)` loop that pushes every kept
      proxy onto `filteredProxies`. */
  method FilterProxies(proxies: seq<Proxy>, rule: FilterRule, matches: Matcher)
    returns (filtered: seq<Proxy>)
    ensures filtered == Filtered(proxies, rule, matches)
  {
    filtered := [];
    var i := 0;
    while i < |proxies|
      invariant 0 <= i <= |proxies|
      invariant filtered == Filtered(proxies[..i], rule, matches)
    {
      var proxy := proxies[i];
      var proxyName := proxy.name;
      if NonEmpty(proxyName) &&
         (!NonEmpty(rule.includePattern) || matches(proxyName.value, rule.includePattern.value)) &&
         (!NonEmpty(rule.excludePattern) || !matches(proxy.name.value, rule.excludePattern.value))
      {
        filtered := filtered + [proxy];
      }
      Seqs.FilterAppend(proxies[..i], [proxy], (p: Proxy) => Keep(p, rule, matches));
      assert proxies[..i + 1] == proxies[..i] + [proxy];
      i := i + 1;
    }
    assert proxies[..i] == proxies;
  }

  /** A proxy survives exactly when its name is present and non-empty, it matches
      an active `include`, and it does not match an active `exclude`. */
  lemma {:induction false} FilteredMembers(proxies: seq<Proxy>, rule: FilterRule, matches: Matcher, p: Proxy)
    ensures p in Filtered(proxies, rule, matches) <==>
      p in proxies && p.name.Some? && p.name.value != "" &&
      (rule.includePattern.None? || rule.includePattern.value == "" || matches(p.name.value, rule.includePattern.value)) &&
      (rule.excludePattern.None? || rule.excludePattern.value == "" || !matches(p.name.value, rule.excludePattern.value))
  {
    Seqs.FilterMembership(proxies, (q: Proxy) => Keep(q, rule, matches), p);
  }

  /** A record without a name, or with an empty one, never survives, whatever the rule. */
  lemma {:induction false} UnnamedDropped(proxies: seq<Proxy>, rule: FilterRule, matches: Matcher, p: Proxy)
    requires !NonEmpty(p.name)
    ensures p !in Filtered(proxies, rule, matches)
  {
    FilteredMembers(proxies, rule, matches, p);
  }

  /** The result is the input with records deleted: order is kept, and every copy of
      a kept record survives (no deduplication). */
  lemma {:induction false} FilteredOrderAndMultiplicity(proxies: seq<Proxy>, rule: FilterRule, matches: Matcher, p: Proxy)
    ensures Seqs.IsSubseq(Filtered(proxies, rule, matches), proxies)
    ensures multiset(Filtered(proxies, rule, matches))[p] ==
      if Keep(p, rule, matches) then multiset(proxies)[p] else 0
  {
    Seqs.FilterIsSubseq(proxies, (q: Proxy) => Keep(q, rule, matches));
    Seqs.FilterCount(proxies, (q: Proxy) => Keep(q, rule, matches), p);
  }

  /** Filtering its own output again with the same rule changes nothing. */
  lemma {:induction false} FilteredIdempotent(proxies: seq<Proxy>, rule: FilterRule, matches: Matcher)
    ensures Filtered(Filtered(proxies, rule, matches), rule, matches) == Filtered(proxies, rule, matches)
  {
    Seqs.FilterIdempotent(proxies, (q: Proxy) => Keep(q, rule, matches));
  }

  /** Without `include` and `exclude` (absent, or sent empty as `include=`),
      exactly the named records are kept; a list whose every record is named
      comes back unchanged. */
  lemma {:induction false} NoRuleKeepsNamed(proxies: seq<Proxy>, rule: FilterRule, matches: Matcher)
    requires !NonEmpty(rule.includePattern) && !NonEmpty(rule.excludePattern)
    ensures Filtered(proxies, rule, matches) == Seqs.Filter(proxies, (q: Proxy) => NonEmpty(q.name))
    ensures (forall q :: q in proxies ==> NonEmpty(q.name)) ==> Filtered(proxies, rule, matches) == proxies
  {
    Seqs.FilterCongruent(proxies, (q: Proxy) => Keep(q, rule, matches), (q: Proxy) => NonEmpty(q.name));
    if forall q :: q in proxies ==> NonEmpty(q.name) {
      Seqs.FilterKeepsAll(proxies, (q: Proxy) => NonEmpty(q.name));
    }
  }

  /** Filtering a concatenation filters each part independently. */
  lemma {:induction false} FilteredAppend(a: seq<Proxy>, b: seq<Proxy>, rule: FilterRule, matches: Matcher)
    ensures Filtered(a + b, rule, matches) == Filtered(a, rule, matches) + Filtered(b, rule, matches)
  {
    Seqs.FilterAppend(a, b, (q: Proxy) => Keep(q, rule, matches));
  }
}
