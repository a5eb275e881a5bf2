/**
 Which limiter rule applies to a request: the rule table and `GetMatchedRule`
 (src/apiserver/service/limiter.go:63-195, src/common/metadata/apilimiter.go:23-59). Rules live in a Go
 map, whose iteration order is unspecified.
 */
module Limiter {
  import opened Common
  import opened Text

  datatype Rule = Rule(name: string, appCode: string, user: string, ip: string, verb: string, url: string,
                       limit: int, ttl: int, denyAll: bool)
  {
    predicate Wildcard() {
      appCode == "" && user == "" && ip == "" && url == "" && verb == ""
    }
  }

  datatype Request = Request(appCode: string, user: string, realIp: string, verb: string, uri: string)

  // util.Normalize, strings.TrimSpace and regexp.MatchString; a pattern that does not compile gives None.
  datatype Library = Library(normalize: string -> string, trim: string -> string, search: (string, string) -> Option<bool>)

  // `LimiterRule.Verify`.
  predicate Verified(lib: Library, r: Rule) {
    && r.name != "" && !r.Wildcard()
    && (r.verb != "" ==> lib.normalize(r.verb) in {"POST", "GET", "PUT", "DELETE"})
    && (r.url != "" ==> lib.search(r.url, "").Some?)
    && (!r.denyAll ==> r.limit > 0 && r.ttl > 0)
  }

  ghost predicate NamesIp(lib: Library, r: Rule, realIp: string) {
    exists ip :: ip in Split(r.ip, ',') && lib.trim(ip) == lib.trim(realIp)
  }

  // Every criterion that the rule sets is met, and it sets one.
  ghost predicate Matches(lib: Library, r: Rule, q: Request) {
    && !r.Wildcard()
    && (r.appCode != "" ==> r.appCode == q.appCode)
    && (r.user != "" ==> r.user == q.user)
    && (r.ip != "" ==> NamesIp(lib, r, q.realIp))
    && (r.verb != "" ==> lib.normalize(r.verb) == lib.normalize(q.verb))
    && (r.url != "" ==> lib.search(r.url, q.uri) == Some(true))
  }

  // Criteria only narrow: each of them has to be met by itself, and what is left of the rule has to match
  // too, unless nothing is left. A rule without criteria matches nothing.
  lemma CriteriaNarrow(lib: Library, r: Rule, q: Request)
    ensures r.Wildcard() ==> !Matches(lib, r, q)
    ensures r.appCode != "" ==> (Matches(lib, r, q) <==> r.appCode == q.appCode && Leaves(lib, r.(appCode := ""), q))
    ensures r.user != "" ==> (Matches(lib, r, q) <==> r.user == q.user && Leaves(lib, r.(user := ""), q))
    ensures r.ip != "" ==>
      (Matches(lib, r, q)
       <==> (exists ip :: ip in Split(r.ip, ',') && lib.trim(ip) == lib.trim(q.realIp)) && Leaves(lib, r.(ip := ""), q))
    ensures r.verb != "" ==>
      (Matches(lib, r, q) <==> lib.normalize(r.verb) == lib.normalize(q.verb) && Leaves(lib, r.(verb := ""), q))
    ensures r.url != "" ==>
      (Matches(lib, r, q) <==> lib.search(r.url, q.uri) == Some(true) && Leaves(lib, r.(url := ""), q))
  {
  }

  ghost predicate Leaves(lib: Library, r: Rule, q: Request) {
    (r.appCode == r.user == r.ip == r.url == r.verb == "") || Matches(lib, r, q)
  }

  const CEILING := 999999

  type Rules = map<string, Rule>

  ghost predicate Denies(lib: Library, rules: Rules, q: Request) {
    exists k :: k in rules && Matches(lib, rules[k], q) && rules[k].denyAll
  }

  // A rule that can be the answer when no rule denies all.
  ghost predicate Limits(lib: Library, r: Rule, q: Request) {
    Matches(lib, r, q) && r.limit < CEILING
  }

  // What may be chosen.
  ghost predicate Choice(lib: Library, rules: Rules, q: Request, chosen: Option<Rule>) {
    if Denies(lib, rules, q) then
      chosen.Some? && chosen.value in rules.Values && Matches(lib, chosen.value, q) && chosen.value.denyAll
    else
      match chosen
      case None => forall r <- rules.Values :: !Limits(lib, r, q)
      case Some(c) =>
        && c in rules.Values && Limits(lib, c, q)
        && forall r <- rules.Values :: Matches(lib, r, q) ==> c.limit <= r.limit
  }

  /******* One order of iteration *******/

  // `best` is the rule held so far.
  function Bound(best: Option<Rule>): int {
    if best.Some? then best.value.limit else CEILING
  }

  ghost function Scan(lib: Library, order: seq<Rule>, q: Request, best: Option<Rule>): Option<Rule> {
    if order == [] then best
    else if !Matches(lib, order[0], q) then Scan(lib, order[1..], q, best)
    else if order[0].denyAll then Some(order[0])
    else Scan(lib, order[1..], q, if order[0].limit < Bound(best) then Some(order[0]) else best)
  }

  // Each name of the table once.
  ghost predicate Orders(names: seq<string>, rules: Rules) {
    && (forall i, j | 0 <= i < j < |names| :: names[i] != names[j])
    && forall n :: n in names <==> n in rules
  }

  function Values(names: seq<string>, rules: Rules): seq<Rule>
    requires forall n <- names :: n in rules
  {
    seq(|names|, i requires 0 <= i < |names| => rules[names[i]])
  }

  // What the registry of rules holds; `None` stands for a child that cannot be read or decoded.
  datatype Listing = NoNode | ListFails | Children(nodes: seq<Option<Rule>>)

  ghost predicate Usable(lib: Library, node: Option<Rule>, name: string) {
    node.Some? && Verified(lib, node.value) && node.value.name == name
  }

  // The table after the first `n` children: under each name the last usable child of that name.
  ghost predicate Installed(lib: Library, nodes: seq<Option<Rule>>, n: nat, rules: Rules)
    requires n <= |nodes|
  {
    && (forall i | 0 <= i < n && nodes[i].Some? && Verified(lib, nodes[i].value) :: nodes[i].value.name in rules)
    && forall name <- rules :: exists i :: Latest(lib, nodes, n, name, rules[name], i)
  }

  ghost predicate Latest(lib: Library, nodes: seq<Option<Rule>>, n: nat, name: string, rule: Rule, i: int)
    requires n <= |nodes|
  {
    && 0 <= i < n && Usable(lib, nodes[i], name) && rule == nodes[i].value
    && forall j | i < j < n :: !Usable(lib, nodes[j], name)
  }

  function Install(lib: Library, rules: Rules, node: Option<Rule>): Rules {
    if node.Some? && Verified(lib, node.value) then rules[node.value.name := node.value] else rules
  }

  lemma InstallStep(lib: Library, nodes: seq<Option<Rule>>, n: nat, rules: Rules)
    requires n < |nodes| && Installed(lib, nodes, n, rules)
    ensures Installed(lib, nodes, n + 1, Install(lib, rules, nodes[n]))
  {
    var after, m := Install(lib, rules, nodes[n]), n + 1;
    forall name | name in after
      ensures exists i :: Latest(lib, nodes, m, name, after[name], i)
    {
      if Usable(lib, nodes[n], name) {
        assert Latest(lib, nodes, m, name, after[name], n);
      } else {
        var i :| Latest(lib, nodes, n, name, rules[name], i);
        assert Latest(lib, nodes, m, name, after[name], i);
      }
    }
  }

  class RuleTable {
    var rules: Rules

    constructor ()
      ensures rules == map[]
    {
      rules := map[];
    }

    // `setRules`: an equal table is not stored again.
    method SetRules(rules: Rules)
      modifies this
      ensures this.rules == rules
    {
      if rules == this.rules { return; }
      this.rules := rules;
    }

    // `syncLimiterRules`: a bad child is left out, and of two with the same name the later one stays. When
    // the children cannot be listed, the old rules do.
    method Sync(lib: Library, listing: Listing) returns (ok: bool)
      modifies this
      ensures ok <==> !listing.ListFails?
      ensures !ok ==> rules == old(rules)
      ensures listing.NoNode? ==> rules == map[]
      ensures listing.Children? ==> Installed(lib, listing.nodes, |listing.nodes|, rules)
      ensures listing.Children? ==> forall k <- rules ::
        var r := rules[k];
        && r.name == k != "" && (r.appCode != "" || r.user != "" || r.ip != "" || r.verb != "" || r.url != "")
        && (r.verb != "" ==> lib.normalize(r.verb) in {"POST", "GET", "PUT", "DELETE"})
        && (r.url != "" ==> lib.search(r.url, "").Some?) && (r.denyAll || (r.limit > 0 && r.ttl > 0))
      ensures listing.Children? ==> forall i | 0 <= i < |listing.nodes| && listing.nodes[i].Some? ::
        var r := listing.nodes[i].value;
        && r.name != "" && (r.appCode != "" || r.user != "" || r.ip != "" || r.verb != "" || r.url != "")
        && (r.verb != "" ==> lib.normalize(r.verb) in {"POST", "GET", "PUT", "DELETE"})
        && (r.url != "" ==> lib.search(r.url, "").Some?) && (r.denyAll || (r.limit > 0 && r.ttl > 0))
        ==> r.name in rules
    {
      ok := true;
      match listing {
        case NoNode => SetRules(map[]);
        case ListFails => ok := false;
        case Children(nodes) =>
          var fetched: Rules := map[];
          for i := 0 to |nodes|
            invariant Installed(lib, nodes, i, fetched)
          {
            InstallStep(lib, nodes, i, fetched);
            if nodes[i].None? {
              continue;
            }
            var rule := nodes[i].value;
            if !Verified(lib, rule) {
              continue;
            }
            fetched := fetched[rule.name := rule];
          }
          SetRules(fetched);
      }
    }

    method Hits(lib: Library, r: Rule, q: Request) returns (hit: bool)
      ensures hit <==> NamesIp(lib, r, q.realIp)
    {
      hit := false;
      var ips := Split(r.ip, ',');
      for i := 0 to |ips|
        invariant !hit && forall j | 0 <= j < i :: lib.trim(ips[j]) != lib.trim(q.realIp)
      {
        if lib.trim(ips[i]) == lib.trim(q.realIp) {
          hit := true;
          break;
        }
      }
    }

    method Applies(lib: Library, r: Rule, q: Request) returns (b: bool)
      ensures b <==> Matches(lib, r, q)
    {
      if r.appCode == "" && r.user == "" && r.ip == "" && r.url == "" && r.verb == "" { return false; }
      if r.appCode != "" {
        if r.appCode != q.appCode { return false; }
      }
      if r.user != "" {
        if r.user != q.user { return false; }
      }
      if r.ip != "" {
        var hit := Hits(lib, r, q);
        if !hit { return false; }
      }
      if r.verb != "" {
        if lib.normalize(r.verb) != lib.normalize(q.verb) { return false; }
      }
      if r.url != "" {
        var found := lib.search(r.url, q.uri);
        if found.None? || !found.value { return false; }
      }
      return true;
    }

    // Rules are taken in any order.
    method GetMatchedRule(lib: Library, q: Request) returns (matched: Option<Rule>)
      ensures Choice(lib, rules, q, matched)
      ensures matched.Some? ==>
        var r := matched.value;
        && r in rules.Values && (r.denyAll || r.limit < 999999)
        && (r.appCode != "" || r.user != "" || r.ip != "" || r.verb != "" || r.url != "")
        && (r.appCode != "" ==> r.appCode == q.appCode) && (r.user != "" ==> r.user == q.user)
        && (r.ip != "" ==> exists ip :: ip in Split(r.ip, ',') && lib.trim(ip) == lib.trim(q.realIp))
        && (r.verb != "" ==> lib.normalize(r.verb) == lib.normalize(q.verb))
        && (r.url != "" ==> lib.search(r.url, q.uri) == Some(true))
    {
      matched := None;
      var min := CEILING;
      var todo := rules.Keys;
      while todo != {}
        invariant todo <= rules.Keys && min == Bound(matched)
        invariant matched.Some? ==> matched.value in rules.Values && Limits(lib, matched.value, q)
        invariant forall k | k in rules && k !in todo && Matches(lib, rules[k], q) ::
          !rules[k].denyAll && min <= rules[k].limit
      {
        var k :| k in todo;
        todo := todo - {k};
        var r := rules[k];
        var applies := Applies(lib, r, q);
        if !applies {
          continue;
        }
        if r.denyAll {
          matched := Some(r);
          break;
        }
        if r.limit < min {
          min := r.limit;
          matched := Some(r);
        }
      }
    }
  }

  /******* What depends on the order and what does not *******/

  lemma {:induction false} ScanGoesOn(lib: Library, order: seq<Rule>, q: Request, best: Option<Rule>)
    requires best.Some? ==> best.value.limit < CEILING
    ensures
      var r := Scan(lib, order, q, best);
      if exists d :: d in order && Matches(lib, d, q) && d.denyAll then
        r.Some? && r.value in order && Matches(lib, r.value, q) && r.value.denyAll
      else
        && (r == best || (r.Some? && r.value in order && Limits(lib, r.value, q)))
        && Bound(r) <= Bound(best)
        && (forall x <- order :: Matches(lib, x, q) ==> Bound(r) <= x.limit)
        && ((forall x <- order :: Matches(lib, x, q) ==> Bound(best) <= x.limit) ==> r == best)
  {
    if order != [] {
      var first, rest := order[0], order[1..];
      assert forall x <- order :: x == first || x in rest;
      if !Matches(lib, first, q) {
        ScanGoesOn(lib, rest, q, best);
      } else if !first.denyAll {
        ScanGoesOn(lib, rest, q, if first.limit < Bound(best) then Some(first) else best);
      } else {
        assert first in order;
      }
    }
  }

  lemma OrderHasValues(names: seq<string>, rules: Rules)
    requires Orders(names, rules)
    ensures forall r :: r in Values(names, rules) <==> r in rules.Values
  {
    var order := Values(names, rules);
    forall r | r in rules.Values ensures r in order {
      var k :| k in rules && rules[k] == r;
      var i :| 0 <= i < |names| && names[i] == k;
      assert order[i] == r;
    }
  }

  // A rule that applies is heeded, whichever is chosen: one that denies all leads to a refusal, and one that
  // limits to at most its own limit.
  lemma EveryRuleIsHeeded(lib: Library, rules: Rules, q: Request, chosen: Option<Rule>, k: string)
    requires Choice(lib, rules, q, chosen) && k in rules && Matches(lib, rules[k], q)
    ensures rules[k].denyAll ==> chosen.Some? && chosen.value.denyAll
    ensures rules[k].limit < 999999 ==> chosen.Some? && (chosen.value.denyAll || chosen.value.limit <= rules[k].limit)
  {
    assert rules[k] in rules.Values;
    if rules[k].denyAll {
      assert Denies(lib, rules, q);
    }
  }

  // Whatever the order, the scan makes a choice of the kind above ...
  lemma EveryOrderChooses(lib: Library, rules: Rules, q: Request, names: seq<string>)
    requires Orders(names, rules)
    ensures Choice(lib, rules, q, Scan(lib, Values(names, rules), q, None))
  {
    var order := Values(names, rules);
    OrderHasValues(names, rules);
    ScanGoesOn(lib, order, q, None);
    if d :| d in order && Matches(lib, d, q) && d.denyAll {
      var k :| k in rules && rules[k] == d;
      assert Denies(lib, rules, q);
    } else {
      forall k | k in rules ensures !(Matches(lib, rules[k], q) && rules[k].denyAll) {
        assert rules[k] in order;
      }
    }
  }

  // ... and any two choices bind the request alike: both refuse it, both limit it to the same number, or
  // both let it through.
  lemma ChoicesAgree(lib: Library, rules: Rules, q: Request, c1: Option<Rule>, c2: Option<Rule>)
    requires Choice(lib, rules, q, c1) && Choice(lib, rules, q, c2)
    ensures c1.Some? <==> c2.Some?
    ensures c1.Some? ==> if Denies(lib, rules, q) then c1.value.denyAll && c2.value.denyAll
                         else !c1.value.denyAll && !c2.value.denyAll && c1.value.limit == c2.value.limit
  {
    if !Denies(lib, rules, q) {
      forall c | (c == c1 || c == c2) && c.Some? ensures !c.value.denyAll {
        var k :| k in rules && rules[k] == c.value;
      }
    }
  }

  // Conversely every such choice comes from some order: of several rules that deny, or of several with
  // the least limit, the order picks the one whose counter and window apply.
  lemma EveryChoiceHappens(lib: Library, rules: Rules, q: Request, chosen: Option<Rule>) returns (names: seq<string>)
    requires Choice(lib, rules, q, chosen)
    ensures Orders(names, rules) && Scan(lib, Values(names, rules), q, None) == chosen
  {
    if chosen.None? {
      names := SomeOrder(rules);
      EveryOrderChooses(lib, rules, q, names);
      ChoicesAgree(lib, rules, q, chosen, Scan(lib, Values(names, rules), q, None));
    } else {
      var k :| k in rules && rules[k] == chosen.value;
      var sub := rules - {k};
      var rest := SomeOrder(sub);
      names := [k] + rest;
      OneMoreName(k, rest, rules);
      var order, tail := Values(names, rules), Values(rest, sub);
      assert order[0] == chosen.value && order[1..] == tail;
      assert Matches(lib, chosen.value, q);
      if !chosen.value.denyAll {
        OrderHasValues(rest, sub);
        forall x | x in tail
          ensures Matches(lib, x, q) ==> !x.denyAll && chosen.value.limit <= x.limit
        {
          var n :| n in sub && sub[n] == x;
          assert n in rules && rules[n] == x;
        }
        assert chosen.value.limit < Bound(None);
        assert Scan(lib, order, q, None) == Scan(lib, tail, q, chosen);
        LeastStays(lib, tail, q, chosen.value);
      }
    }
  }

  lemma OneMoreName(k: string, rest: seq<string>, rules: Rules)
    requires k in rules && Orders(rest, rules - {k})
    ensures Orders([k] + rest, rules)
  {
    assert k !in rest;
    var names := [k] + rest;
    forall i, j | 0 <= i < j < |names|
      ensures names[i] != names[j]
    {
      assert names[j] == rest[j - 1] && rest[j - 1] in rest;
    }
  }

  lemma LeastStays(lib: Library, order: seq<Rule>, q: Request, best: Rule)
    requires best.limit < CEILING
    requires forall x <- order :: Matches(lib, x, q) ==> !x.denyAll && best.limit <= x.limit
    ensures Scan(lib, order, q, Some(best)) == Some(best)
  {
    ScanGoesOn(lib, order, q, Some(best));
  }

  lemma {:induction false} SomeOrder(rules: Rules) returns (names: seq<string>)
    ensures Orders(names, rules)
    decreases rules.Keys
  {
    if rules == map[] {
      names := [];
    } else {
      var k :| k in rules;
      assert (rules - {k}).Keys == rules.Keys - {k};
      var rest := SomeOrder(rules - {k});
      names := [k] + rest;
    }
  }
}
