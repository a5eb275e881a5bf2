/**
 The request counter behind a limiter rule: `setRequestCntTTLScript` and `LimiterFilter`
 (src/apiserver/service/filter.go:232-309). The counter is a key of a shared store that expires; the
 script creates it, counts it up and gives it a deadline, and any of its steps may fail.
 */
module RateWindow {
  import opened Common
  import opened Limiter

  datatype Key = Absent | Counter(count: nat, deadline: Option<int>)

  type Keys = map<string, Key>

  // Where a call goes wrong. The three commands fail inside the script; `Unsent` is a call that never runs
  // and `ReplyLost` one that runs but whose reply does not arrive.
  datatype Trouble = Fine | Unsent | IncrFails | TtlFails | ExpireFails | ReplyLost

  // One request: its time, the rule matched for it, and what the store does. A key past its deadline is
  // gone only when the store has `swept` it by then.
  datatype Event = Event(now: int, rule: Option<Rule>, swept: bool, trouble: Trouble)

  datatype Answer = Unlimited | Denied | FailOpen | Count(n: int)

  function Look(keys: Keys, name: string): Key {
    if name in keys then keys[name] else Absent
  }

  // The key as a command at time `now` finds it.
  function Alive(key: Key, now: int, swept: bool): Key {
    if key.Counter? && key.deadline.Some? && key.deadline.value <= now && swept then Absent else key
  }

  /******* One call *******/

  function Script(found: Key, ttl: int, now: int, trouble: Trouble): (r: (Key, Option<int>))
    ensures found.Counter? && found.deadline.Some? ==> r.0.Counter? && r.0.deadline == found.deadline
    ensures r.1.Some? ==> r.0.Counter? && r.0.deadline.Some? && r.0.count == r.1.value
                          && (found.Absent? || found.deadline.None? ==> r.0.deadline == Some(now + ttl))
  {
    if trouble.Unsent? || trouble.IncrFails? then (found, None)
    else
      var up := match found case Absent => Counter(1, None) case Counter(c, d) => Counter(c + 1, d);
      if trouble.TtlFails? then (up, None)
      else if up.deadline.None? && trouble.ExpireFails? then (up, None)
      else
        var kept := if up.deadline.None? then up.(deadline := Some(now + ttl)) else up;
        (kept, if trouble.ReplyLost? then None else Some(up.count))
  }

  function Step(keys: Keys, e: Event): (Keys, Answer) {
    match e.rule
    case None => (keys, Unlimited)
    case Some(rule) =>
      if rule.denyAll then (keys, Denied)
      else
        var (key, reply) := Script(Alive(Look(keys, rule.name), e.now, e.swept), rule.ttl, e.now, e.trouble);
        (keys[rule.name := key], match reply case None => FailOpen case Some(n) => Count(n))
  }

  predicate Passes(e: Event, a: Answer) {
    match a
    case Unlimited => true
    case Denied => false
    case FailOpen => true
    case Count(n) => e.rule.Some? && n <= e.rule.value.limit
  }

  /******* The code *******/

  class Store {
    var keys: Keys

    constructor ()
      ensures keys == map[]
    {
      keys := map[];
    }

    method Incr(name: string, trouble: Trouble) returns (r: Option<int>)
      modifies this
      ensures trouble.IncrFails? ==> r == None && keys == old(keys)
      ensures !trouble.IncrFails? ==>
        var up := match old(Look(keys, name)) case Absent => Counter(1, None) case Counter(c, d) => Counter(c + 1, d);
        r == Some(up.count) && keys == old(keys)[name := up]
    {
      if trouble.IncrFails? { return None; }
      var up := match Look(keys, name) case Absent => Counter(1, None) case Counter(c, d) => Counter(c + 1, d);
      keys := keys[name := up];
      return Some(up.count);
    }

    // -1 for a key without a deadline.
    method Ttl(name: string, now: int, trouble: Trouble) returns (r: Option<int>)
      requires Look(keys, name).Counter?
      ensures trouble.TtlFails? ==> r == None
      ensures !trouble.TtlFails? ==> r.Some? && (r.value == -1 <==> Look(keys, name).deadline == None)
    {
      if trouble.TtlFails? { return None; }
      match Look(keys, name).deadline {
        case None => return Some(-1);
        case Some(d) => return Some(if d > now then d - now else 0);
      }
    }

    method Expire(name: string, ttl: int, now: int, trouble: Trouble) returns (r: Option<int>)
      requires Look(keys, name).Counter?
      modifies this
      ensures trouble.ExpireFails? ==> r == None && keys == old(keys)
      ensures !trouble.ExpireFails? ==> r.Some? && keys == old(keys)[name := old(Look(keys, name)).(deadline := Some(now + ttl))]
    {
      if trouble.ExpireFails? { return None; }
      keys := keys[name := Look(keys, name).(deadline := Some(now + ttl))];
      return Some(1);
    }

    // The script, once a swept key is out of the way.
    method Eval(name: string, ttl: int, now: int, swept: bool, trouble: Trouble) returns (reply: Option<int>)
      modifies this
      ensures
        var (key, answer) := Script(Alive(old(Look(keys, name)), now, swept), ttl, now, trouble);
        keys == old(keys)[name := key] && reply == answer
    {
      keys := keys[name := Alive(Look(keys, name), now, swept)];
      if trouble.Unsent? { return None; }
      var cnt := Incr(name, trouble);
      if cnt.None? { return None; }
      var rs := Ttl(name, now, trouble);
      if rs.None? { return None; }
      if rs.value == -1 {
        rs := Expire(name, ttl, now, trouble);
        if rs.None? { return None; }
      }
      return if trouble.ReplyLost? then None else cnt;
    }
  }

  // What has been counted under the name and has not been swept away.
  function Used(keys: Keys, name: string, now: int, swept: bool): nat {
    if name in keys && keys[name].Counter?
       && !(keys[name].deadline.Some? && keys[name].deadline.value <= now && swept)
    then keys[name].count
    else 0
  }

  // Every branch of a request: no rule lets it through and a rule that denies all does not, without a word
  // to the store; a call that fails before it has counted and marked the request, or whose reply is lost,
  // lets it through; otherwise it goes through exactly when the limit is not used up, and uses up one.
  lemma EveryBranch(keys: Keys, e: Event)
    ensures e.rule.None? ==> Passes(e, Step(keys, e).1) && Step(keys, e).0 == keys
    ensures e.rule.Some? && e.rule.value.denyAll ==> !Passes(e, Step(keys, e).1) && Step(keys, e).0 == keys
    ensures e.rule.Some? && !e.rule.value.denyAll ==>
      var rule, used, after := e.rule.value, Used(keys, e.rule.value.name, e.now, e.swept), Step(keys, e).0;
      && (e.trouble.Unsent? || e.trouble.IncrFails? || e.trouble.TtlFails? || e.trouble.ReplyLost? ==> Passes(e, Step(keys, e).1))
      && (e.trouble.Unsent? || e.trouble.IncrFails? ==> Used(after, rule.name, e.now, e.swept) == used)
      && (e.trouble.Fine? ==>
            && (Passes(e, Step(keys, e).1) <==> used < rule.limit)
            && (rule.ttl > 0 ==> Used(after, rule.name, e.now, e.swept) == used + 1))
      && (e.trouble.ExpireFails? ==>
            (Passes(e, Step(keys, e).1)
             <==> used < rule.limit || !(rule.name in keys && keys[rule.name].Counter? && keys[rule.name].deadline.Some?)
                  || (keys[rule.name].deadline.value <= e.now && e.swept)))
      && (forall k | k != rule.name :: Look(after, k) == Look(keys, k))
  {
  }

  method LimiterFilter(table: RuleTable, lib: Library, q: Request, store: Store, now: int, swept: bool, trouble: Trouble)
    returns (forwarded: bool, ghost rule: Option<Rule>)
    modifies store
    ensures Choice(lib, table.rules, q, rule)
    ensures
      var e := Event(now, rule, swept, trouble);
      && store.keys == Step(old(store.keys), e).0
      && forwarded == Passes(e, Step(old(store.keys), e).1)
    ensures rule.None? ==> forwarded && store.keys == old(store.keys)
    ensures rule.Some? && rule.value.denyAll ==> !forwarded && store.keys == old(store.keys)
    ensures rule.Some? && !rule.value.denyAll ==>
      && (trouble.Unsent? || trouble.IncrFails? || trouble.TtlFails? || trouble.ReplyLost? ==> forwarded)
      && (trouble.Fine? ==> (forwarded <==> Used(old(store.keys), rule.value.name, now, swept) < rule.value.limit))
      && (forall k | k != rule.value.name :: Look(store.keys, k) == Look(old(store.keys), k))
  {
    rule := None;
    if |table.rules| == 0 {
      return true, rule;
    }
    var matched := table.GetMatchedRule(lib, q);
    rule := matched;
    if matched.None? {
      return true, rule;
    }
    if matched.value.denyAll {
      return false, rule;
    }
    var cnt := store.Eval(matched.value.name, matched.value.ttl, now, swept, trouble);
    if cnt.None? {
      return true, rule;
    }
    if cnt.value > matched.value.limit {
      return false, rule;
    }
    return true, rule;
  }

  /******* Runs *******/

  // The store after the first `i` requests.
  function KeysAt(start: Keys, es: seq<Event>, i: nat): Keys
    requires i <= |es|
  {
    if i == 0 then start else Step(KeysAt(start, es, i - 1), es[i - 1]).0
  }

  function AnswerAt(start: Keys, es: seq<Event>, i: nat): Answer
    requires i < |es|
  {
    Step(KeysAt(start, es, i), es[i]).1
  }

  // Requests of many rules in the order of their times, the rule with this name being always the same.
  ghost predicate Run(es: seq<Event>, rule: Rule) {
    && (forall i, j | 0 <= i < j < |es| :: es[i].now <= es[j].now)
    && (forall e <- es :: e.rule.Some? && e.rule.value.name == rule.name ==> e.rule.value == rule)
  }

  // The half-open interval that is looked at.
  datatype Window = Window(from: int, to: int)

  predicate Concerns(e: Event, rule: Rule, w: Window) {
    e.rule == Some(rule) && w.from <= e.now < w.to
  }

  // Among the first `i` requests, those of the rule in the window that were let through ...
  function Through(start: Keys, es: seq<Event>, rule: Rule, w: Window, i: nat): nat
    requires i <= |es|
  {
    if i == 0 then 0
    else Through(start, es, rule, w, i - 1)
         + (if Concerns(es[i - 1], rule, w) && Passes(es[i - 1], AnswerAt(start, es, i - 1)) then 1 else 0)
  }

  // ... and those whose call failed.
  function Failures(start: Keys, es: seq<Event>, rule: Rule, w: Window, i: nat): nat
    requires i <= |es|
  {
    if i == 0 then 0
    else Failures(start, es, rule, w, i - 1)
         + (if Concerns(es[i - 1], rule, w) && AnswerAt(start, es, i - 1).FailOpen? then 1 else 0)
  }

  // How often the counter was created in the window.
  ghost function Births(start: Keys, es: seq<Event>, rule: Rule, w: Window, i: nat): nat
    requires i <= |es|
  {
    if i == 0 then 0
    else
      var e, keys := es[i - 1], KeysAt(start, es, i - 1);
      Births(start, es, rule, w, i - 1)
      + (if Concerns(e, rule, w) && Alive(Look(keys, rule.name), e.now, e.swept).Absent? && Look(Step(keys, e).0, rule.name).Counter?
         then 1 else 0)
  }

  function Least(a: int, b: int): int {
    if a < b then a else b
  }

  // Requests let through by count, with `births` counters created in the window and `key` the present one.
  ghost predicate Bounded(through: int, births: int, limit: int, key: Key) {
    match key
    case Absent => through <= births * limit + limit - 1
    case Counter(c, _) =>
      && c >= 1
      && through <= births * limit + Least(c, limit) - 1
  }

  // `now` is the time of the last request: counters are born at least a window apart.
  ghost predicate Spaced(now: int, from: int, births: int, ttl: int, key: Key) {
    births == 0
    || match key
       case Absent => now >= from + births * ttl
       case Counter(_, d) => now >= from + (births - 1) * ttl && (d.None? || d.value >= from + births * ttl)
  }

  // One request of the rule in the window.
  lemma CallInWindow(key: Key, through: int, births: int, before: int, e: Event, rule: Rule, from: int)
    requires !rule.denyAll && rule.limit >= 1 && rule.ttl > 0 && births >= 0
    requires before <= e.now && from <= e.now
    requires Bounded(through, births, rule.limit, key) && Spaced(before, from, births, rule.ttl, key)
    ensures
      var found := Alive(key, e.now, e.swept);
      var (after, reply) := Script(found, rule.ttl, e.now, e.trouble);
      var t := through + (if reply.Some? && reply.value <= rule.limit then 1 else 0);
      var b := births + (if found.Absent? && after.Counter? then 1 else 0);
      Bounded(t, b, rule.limit, after) && Spaced(e.now, from, b, rule.ttl, after)
  {
    TimesMore(births, rule.limit);
    TimesMore(births, rule.ttl);
    TimesMore(births - 1, rule.ttl);
  }

  // What the store knows about the rule at the start: nothing, or a counter that counted something.
  ghost predicate Sane(key: Key) {
    key.Counter? ==> key.count >= 1
  }

  ghost predicate Kept(start: Keys, es: seq<Event>, rule: Rule, w: Window, i: nat)
    requires i <= |es|
  {
    var key, births := Look(KeysAt(start, es, i), rule.name), Births(start, es, rule, w, i);
    && Bounded(Through(start, es, rule, w, i) - Failures(start, es, rule, w, i), births, rule.limit, key)
    && Spaced(if i == 0 then w.from else es[i - 1].now, w.from, births, rule.ttl, key)
  }

  ghost predicate Quiet(start: Keys, es: seq<Event>, rule: Rule, w: Window, i: nat)
    requires i <= |es|
  {
    Through(start, es, rule, w, i) == Failures(start, es, rule, w, i) == Births(start, es, rule, w, i) == 0
  }

  lemma {:induction false} BeforeWindow(start: Keys, es: seq<Event>, rule: Rule, w: Window, i: nat)
    requires i <= |es| && Run(es, rule) && (i > 0 ==> es[i - 1].now < w.from)
    requires Sane(Look(start, rule.name))
    ensures Quiet(start, es, rule, w, i) && Sane(Look(KeysAt(start, es, i), rule.name))
  {
    if i > 0 {
      BeforeWindow(start, es, rule, w, i - 1);
      OtherRules(KeysAt(start, es, i - 1), es[i - 1], rule);
    }
  }

  // A request under another name leaves the counter alone.
  lemma OtherRules(keys: Keys, e: Event, rule: Rule)
    requires e.rule.Some? && e.rule.value.name == rule.name ==> e.rule.value == rule
    ensures e.rule != Some(rule) ==> Look(Step(keys, e).0, rule.name) == Look(keys, rule.name)
    ensures e.rule == Some(rule) && !rule.denyAll ==>
      Look(Step(keys, e).0, rule.name) == Script(Alive(Look(keys, rule.name), e.now, e.swept), rule.ttl, e.now, e.trouble).0
  {
  }

  // One request within the window keeps the bound: of the rule ...
  lemma KeptByCall(start: Keys, es: seq<Event>, rule: Rule, w: Window, i: nat)
    requires 0 < i <= |es| && Run(es, rule) && Kept(start, es, rule, w, i - 1)
    requires es[i - 1].rule == Some(rule) && w.from <= es[i - 1].now < w.to
    requires !rule.denyAll && rule.limit >= 1 && rule.ttl > 0
    ensures Kept(start, es, rule, w, i)
  {
    var e, keys := es[i - 1], KeysAt(start, es, i - 1);
    OtherRules(keys, e, rule);
    var before := Through(start, es, rule, w, i - 1) - Failures(start, es, rule, w, i - 1);
    CallInWindow(Look(keys, rule.name), before, Births(start, es, rule, w, i - 1),
                 if i == 1 then w.from else es[i - 2].now, e, rule, w.from);
  }

  // ... or of another one.
  lemma KeptByOther(start: Keys, es: seq<Event>, rule: Rule, w: Window, i: nat)
    requires 0 < i <= |es| && Run(es, rule) && Kept(start, es, rule, w, i - 1)
    requires es[i - 1].rule != Some(rule) && w.from <= es[i - 1].now
    ensures Kept(start, es, rule, w, i)
  {
    assert es[i - 1] in es;
    OtherRules(KeysAt(start, es, i - 1), es[i - 1], rule);
  }

  lemma {:induction false} InWindow(start: Keys, es: seq<Event>, rule: Rule, w: Window, i: nat)
    requires i <= |es| && Run(es, rule) && (i > 0 ==> es[i - 1].now < w.to)
    requires !rule.denyAll && rule.limit >= 1 && rule.ttl > 0 && Sane(Look(start, rule.name))
    ensures Kept(start, es, rule, w, i)
  {
    if i == 0 || es[i - 1].now < w.from {
      BeforeWindow(start, es, rule, w, i);
    } else {
      InWindow(start, es, rule, w, i - 1);
      if es[i - 1].rule == Some(rule) {
        KeptByCall(start, es, rule, w, i);
      } else {
        KeptByOther(start, es, rule, w, i);
      }
    }
  }

  lemma FewBirths(births: int, k: nat, limit: int, ttl: int, lapse: int)
    requires ttl > 0 && limit >= 1 && (births - 1) * ttl <= lapse < k * ttl
    ensures births <= k && births * limit <= k * limit
  {
    if births > k {
      TimesMore(k, ttl);
      TimesMonotone(k, births - 1, ttl);
    }
    TimesMonotone(births, k, limit);
  }

  /******* The bound *******/

  // For every run of requests of any rules, every store to begin with, and every half-open interval of
  // `k` windows: the requests of the rule let through in it are at most (k + 1) * limit - 1 and the
  // failed calls.
  lemma {:induction false} WindowBound(start: Keys, es: seq<Event>, rule: Rule, from: int, k: nat, i: nat)
    requires i <= |es| && Run(es, rule) && !rule.denyAll && rule.limit >= 1 && rule.ttl > 0
    requires Sane(Look(start, rule.name))
    ensures
      var w := Window(from, from + k * rule.ttl);
      Through(start, es, rule, w, i) <= (k + 1) * rule.limit - 1 + Failures(start, es, rule, w, i)
  {
    var w := Window(from, from + k * rule.ttl);
    TimesMore(k, rule.limit);
    TimesMonotone(0, k, rule.limit);
    if i > 0 {
      if es[i - 1].now >= w.to || es[i - 1].now < from {
        WindowBound(start, es, rule, from, k, i - 1);
      } else {
        InWindow(start, es, rule, w, i);
        var births := Births(start, es, rule, w, i);
        if births > 0 {
          TimesMore(births - 1, rule.ttl);
          FewBirths(births, k, rule.limit, rule.ttl, es[i - 1].now - from);
        }
      }
    }
  }

  // A rule that allows nothing lets nothing through but failed calls.
  lemma {:induction false} ZeroLimit(start: Keys, es: seq<Event>, rule: Rule, w: Window, i: nat)
    requires i <= |es| && !rule.denyAll && rule.limit <= 0
    ensures Through(start, es, rule, w, i) == Failures(start, es, rule, w, i)
  {
    if i > 0 {
      ZeroLimit(start, es, rule, w, i - 1);
    }
  }

  /******* Deadlines *******/

  function DeadlineFrom(key: Key, otherwise: int): int {
    if key.Counter? && key.deadline.Some? then key.deadline.value else otherwise
  }

  // A call never moves a deadline that is there, so refused requests cannot prolong the refusal. A call
  // that reports a count leaves a deadline, its own time plus the window when there was none.
  lemma DeadlineOnce(keys: Keys, e: Event)
    requires e.rule.Some? && !e.rule.value.denyAll
    ensures
      var rule := e.rule.value;
      var found := Alive(Look(keys, rule.name), e.now, e.swept);
      var after, answer := Look(Step(keys, e).0, rule.name), Step(keys, e).1;
      && (found.Counter? && found.deadline.Some? ==> after.Counter? && after.deadline == found.deadline)
      && (answer.Count? ==> after.Counter? && after.deadline == Some(DeadlineFrom(found, e.now + rule.ttl)))
  {
  }

  // No deadline is further away than a window.
  lemma {:induction false} DeadlineNear(es: seq<Event>, rule: Rule, i: nat)
    requires i <= |es| && Run(es, rule)
    ensures
      var key := Look(KeysAt(map[], es, i), rule.name);
      key.Counter? && key.deadline.Some? ==> i > 0 && key.deadline.value <= es[i - 1].now + rule.ttl
  {
    if i > 0 {
      DeadlineNear(es, rule, i - 1);
      assert es[i - 1] in es;
      OtherRules(KeysAt(map[], es, i - 1), es[i - 1], rule);
    }
  }

  lemma {:induction false} KeyRests(start: Keys, es: seq<Event>, rule: Rule, i: nat, j: nat)
    requires i <= j <= |es| && Run(es, rule) && forall n | i <= n < j :: es[n].rule != Some(rule)
    ensures Look(KeysAt(start, es, j), rule.name) == Look(KeysAt(start, es, i), rule.name)
  {
    if i < j {
      KeyRests(start, es, rule, i, j - 1);
      assert es[j - 1] in es;
      OtherRules(KeysAt(start, es, j - 1), es[j - 1], rule);
    }
  }

  // A refusal lasts at most a window: the next request that comes a window after a refused one, to a store
  // that sweeps, gets through.
  lemma RefusalEnds(es: seq<Event>, rule: Rule, i: nat, j: nat)
    requires i < j < |es| && Run(es, rule) && !rule.denyAll && rule.limit >= 1
    requires es[i].rule == es[j].rule == Some(rule)
    requires !Passes(es[i], AnswerAt(map[], es, i)) && es[j].now >= es[i].now + rule.ttl && es[j].swept
    requires forall n | i < n < j :: es[n].rule != Some(rule)
    ensures Passes(es[j], AnswerAt(map[], es, j))
  {
    DeadlineNear(es, rule, i + 1);
    DeadlineOnce(KeysAt(map[], es, i), es[i]);
    KeyRests(map[], es, rule, i + 1, j);
  }

  /******* The bound is exact *******/

  // A run from the empty store with `through` requests let through in the window and no failure.
  ghost predicate Reached(es: seq<Event>, rule: Rule, w: Window, key: Key, through: nat, now: int) {
    && Run(es, rule)
    && (es != [] ==> es[|es| - 1].now <= now)
    && Look(KeysAt(map[], es, |es|), rule.name) == key
    && Through(map[], es, rule, w, |es|) == through
    && Failures(map[], es, rule, w, |es|) == 0
  }

  lemma {:induction false} Prefix(es: seq<Event>, e: Event, rule: Rule, w: Window, i: nat)
    requires i <= |es|
    ensures KeysAt(map[], es + [e], i) == KeysAt(map[], es, i)
    ensures Through(map[], es + [e], rule, w, i) == Through(map[], es, rule, w, i)
    ensures Failures(map[], es + [e], rule, w, i) == Failures(map[], es, rule, w, i)
  {
    if i > 0 {
      Prefix(es, e, rule, w, i - 1);
      assert (es + [e])[i - 1] == es[i - 1];
    }
  }

  function Counted(key: Key, n: nat, rule: Rule, now: int): Key {
    Counter((if key.Counter? then key.count else 0) + n, Some(DeadlineFrom(key, now + rule.ttl)))
  }

  ghost predicate Room(found: Key, rule: Rule, n: nat) {
    (if found.Counter? then found.count else 0) + n <= rule.limit && (found.Counter? ==> found.deadline.Some?)
  }

  // `n` requests at one time.
  lemma {:induction false} Burst(es: seq<Event>, rule: Rule, w: Window, key: Key, through: nat, before: int, now: int, n: nat)
    returns (more: seq<Event>)
    requires Reached(es, rule, w, key, through, before) && before <= now && !rule.denyAll && rule.ttl > 0 && n >= 1
    requires Room(Alive(key, now, true), rule, n)
    ensures Reached(more, rule, w, Counted(Alive(key, now, true), n, rule, now),
                    if w.from <= now < w.to then through + n else through, now)
  {
    if n == 1 {
      more := OneMore(es, rule, w, key, through, now);
    } else {
      var fewer := Burst(es, rule, w, key, through, before, now, n - 1);
      more := OneMore(fewer, rule, w, Counted(Alive(key, now, true), n - 1, rule, now),
                      if w.from <= now < w.to then through + n - 1 else through, now);
    }
  }

  lemma OneMore(es: seq<Event>, rule: Rule, w: Window, key: Key, through: nat, now: int) returns (more: seq<Event>)
    requires Reached(es, rule, w, key, through, now) && !rule.denyAll && Room(Alive(key, now, true), rule, 1)
    ensures Reached(more, rule, w, Counted(Alive(key, now, true), 1, rule, now),
                    if w.from <= now < w.to then through + 1 else through, now)
  {
    var e := Event(now, Some(rule), true, Fine);
    more := es + [e];
    Prefix(es, e, rule, w, |es|);
    assert more[|es|] == e;
  }

  // For k >= 1 a run reaches the bound: one request before the interval, the rest of the limit at the end
  // of its window, and then the whole limit as soon as each window is over.
  lemma BoundIsReached(rule: Rule, k: nat) returns (es: seq<Event>, from: int)
    requires !rule.denyAll && rule.limit >= 1 && rule.ttl >= 2 && k >= 1
    ensures
      var w := Window(from, from + k * rule.ttl);
      && Run(es, rule) && Failures(map[], es, rule, w, |es|) == 0
      && Through(map[], es, rule, w, |es|) == (k + 1) * rule.limit - 1
  {
    from := 1;
    TimesMonotone(1, k, rule.ttl);
    es := FullWindows(rule, k, Window(from, from + k * rule.ttl));
  }

  lemma {:induction false} FullWindows(rule: Rule, k: nat, w: Window) returns (es: seq<Event>)
    requires !rule.denyAll && rule.limit >= 1 && rule.ttl >= 2
    requires w.from == 1 && w.to > rule.ttl && w.to > k * rule.ttl
    ensures Reached(es, rule, w, Counter(rule.limit, Some((k + 1) * rule.ttl)), (k + 1) * rule.limit - 1, (k + 1) * rule.ttl - 1)
  {
    if k == 0 {
      es := Burst([], rule, w, Absent, 0, 0, 0, 1);
      if rule.limit > 1 {
        es := Burst(es, rule, w, Counter(1, Some(rule.ttl)), 0, 0, rule.ttl - 1, rule.limit - 1);
      }
    } else {
      TimesMore(k, rule.ttl);
      TimesMore(k, rule.limit);
      TimesMonotone(k - 1, k, rule.ttl);
      TimesMonotone(1, k, rule.ttl);
      TimesMonotone(1, k, rule.limit);
      var now := k * rule.ttl;
      es := FullWindows(rule, k - 1, w);
      es := Burst(es, rule, w, Counter(rule.limit, Some(now)), k * rule.limit - 1, now - 1, now, rule.limit);
    }
  }
}
