/**
 * Ingress routing rules as the provisioning core handles them: the
 * `.well-known` rule it appends for each host under validation and the
 * filter that takes every rule aimed at the well-known pool back out
 * (core.js:27, core.js:41, core.js:72, core.js:87).
 */
module Rules {

  /** One routing rule of the ingress: `{type, host, prefix, target}`. */
  datatype Rule = Rule(kind: string, host: string, prefix: string, target: string)

  const HostPathPrefix: string := "host.path-prefix"
  const WellKnownPrefix: string := "/.well-known"

  /** The rule that sends `/.well-known` on `host` to the well-known pool. */
  function ChallengeRule(host: string, pool: string): Rule
  {
    Rule(HostPathPrefix, host, WellKnownPrefix, pool)
  }

  /**
   * The rules pushed for a list of domains, one per domain in input order,
   * each matching the domain followed by the port suffix.
   */
  function ChallengeRules(domains: seq<string>, suffix: string, pool: string): (rs: seq<Rule>)
    ensures |rs| == |domains|
    ensures forall i :: 0 <= i < |domains| ==> rs[i] == ChallengeRule(domains[i] + suffix, pool)
    ensures forall r :: r in rs ==> r.target == pool
  {
    if domains == [] then []
    else ChallengeRules(domains[..|domains| - 1], suffix, pool)
         + [ChallengeRule(domains[|domains| - 1] + suffix, pool)]
  }

  /**
   * The rollback filter: keeps the rules whose target is not the pool,
   * in their order.
   */
  function WithoutPool(rules: seq<Rule>, pool: string): (kept: seq<Rule>)
    ensures |kept| <= |rules|
    ensures forall r :: r in kept <==> r in rules && r.target != pool
  {
    if rules == [] then []
    else (if rules[0].target != pool then [rules[0]] else []) + WithoutPool(rules[1..], pool)
  }

  /** `s` is `t` with some elements left out, the rest in their order. */
  ghost predicate Subsequence<T>(s: seq<T>, t: seq<T>)
    decreases |t|
  {
    if s == [] then true
    else if t == [] then false
    else (s[0] == t[0] && Subsequence(s[1..], t[1..])) || Subsequence(s, t[1..])
  }

  /** No rule of `rules` is aimed at the pool. */
  ghost predicate NoPoolRules(rules: seq<Rule>, pool: string)
  {
    forall r :: r in rules ==> r.target != pool
  }

  /** Filtering a concatenation filters each part. */
  lemma {:induction false} WithoutPoolAppend(a: seq<Rule>, b: seq<Rule>, pool: string)
    ensures WithoutPool(a + b, pool) == WithoutPool(a, pool) + WithoutPool(b, pool)
  {
    if a != [] {
      assert (a + b)[0] == a[0];
      assert (a + b)[1..] == a[1..] + b;
      WithoutPoolAppend(a[1..], b, pool);
    } else {
      assert a + b == b;
    }
  }

  /** The rules that survive the filter keep their relative order. */
  lemma {:induction false} WithoutPoolIsSubsequence(rules: seq<Rule>, pool: string)
    ensures Subsequence(WithoutPool(rules, pool), rules)
  {
    if rules != [] {
      WithoutPoolIsSubsequence(rules[1..], pool);
      var rest := WithoutPool(rules[1..], pool);
      if rules[0].target != pool {
        var kept := WithoutPool(rules, pool);
        assert kept == [rules[0]] + rest;
        assert kept[0] == rules[0] && kept[1..] == rest;
      } else {
        assert WithoutPool(rules, pool) == rest;
        SubsequenceSkip(rest, rules);
      }
    }
  }

  /** Dropping the head of the longer sequence keeps a subsequence relation. */
  lemma SubsequenceSkip<T>(s: seq<T>, t: seq<T>)
    requires t != [] && Subsequence(s, t[1..])
    ensures Subsequence(s, t)
  {
  }

  /**
   * The filter neither loses nor duplicates a rule aimed elsewhere, and
   * keeps no copy of a rule aimed at the pool.
   */
  lemma {:induction false} WithoutPoolCounts(rules: seq<Rule>, pool: string, r: Rule)
    ensures multiset(WithoutPool(rules, pool))[r] == if r.target == pool then 0 else multiset(rules)[r]
  {
    if rules != [] {
      var rest := rules[1..];
      WithoutPoolCounts(rest, pool, r);
      assert rules == [rules[0]] + rest;
      if rules[0].target != pool {
        assert WithoutPool(rules, pool) == [rules[0]] + WithoutPool(rest, pool);
      } else {
        assert WithoutPool(rules, pool) == WithoutPool(rest, pool);
      }
    }
  }

  /** A rule set without pool rules passes the filter unchanged. */
  lemma {:induction false} WithoutPoolKeepsClean(rules: seq<Rule>, pool: string)
    requires NoPoolRules(rules, pool)
    ensures WithoutPool(rules, pool) == rules
  {
    if rules != [] {
      assert rules[0] in rules;
      WithoutPoolKeepsClean(rules[1..], pool);
      assert rules == [rules[0]] + rules[1..];
    }
  }

  /** A rule set made only of pool rules filters to nothing. */
  lemma {:induction false} WithoutPoolDropsPool(rules: seq<Rule>, pool: string)
    requires forall r :: r in rules ==> r.target == pool
    ensures WithoutPool(rules, pool) == []
  {
    if rules != [] {
      assert rules[0] in rules;
      WithoutPoolDropsPool(rules[1..], pool);
    }
  }

  /**
   * Rolling back after appending pool rules yields the filtered fetched
   * set: rules aimed elsewhere survive in order, every pool rule is gone,
   * including the ones that were there before the patch; when the fetched
   * set held no pool rule, it is restored exactly.
   */
  lemma RollbackAfterPatch(fetched: seq<Rule>, added: seq<Rule>, pool: string)
    requires forall r :: r in added ==> r.target == pool
    ensures WithoutPool(fetched + added, pool) == WithoutPool(fetched, pool)
    ensures NoPoolRules(fetched, pool) ==> WithoutPool(fetched + added, pool) == fetched
  {
    WithoutPoolAppend(fetched, added, pool);
    WithoutPoolDropsPool(added, pool);
    if NoPoolRules(fetched, pool) {
      WithoutPoolKeepsClean(fetched, pool);
    }
  }
}
