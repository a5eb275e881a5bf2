/**
 Batch authorization, `authorizeBatch` and `parseAttributesToBatchOptions`
 (src/ac/iam/iam.go:293-394). Skipped resources are left out of the batch and the answers are merged
 back by a running index; the result is what deciding each resource by itself would give.
 */
module Authorizer {
  import opened Common
  import opened IamTypes
  import opened Adaptor
  import Meta

  datatype AuthBatch = AuthBatch(action: ActionId, resources: seq<Resource>)

  // `Panicked` is an index out of range at run time.
  datatype Outcome<+T> = Done(value: T) | Failed | Panicked

  // What is to happen to one resource.
  datatype Treatment = Pass | Send(item: AuthBatch) | Refuse

  function Classify(a: Meta.ResourceAttribute): Treatment {
    if a.action == Meta.SkipAction then Pass
    else
      match Adapt(a)
      case Err => Refuse
      case Ok((action, resources)) => if action == Skip then Pass else Send(AuthBatch(action, resources))
  }

  function Classifier(): Meta.ResourceAttribute -> Treatment {
    a => Classify(a)
  }

  function Treated<R>(rs: seq<R>, treat: R -> Treatment): seq<Treatment> {
    seq(|rs|, i requires 0 <= i < |rs| => treat(rs[i]))
  }

  function ClassifyAll(resources: seq<Meta.ResourceAttribute>): seq<Treatment> {
    Treated(resources, Classifier())
  }

  /******* One resource at a time *******/

  // What one resource deserves: skipped ones pass, all others get the server's verdict.
  function PointVerdict(t: Treatment, verdict: AuthBatch -> bool): bool
    requires !t.Refuse?
  {
    t.Pass? || verdict(t.item)
  }

  /******* All at once *******/

  predicate NoneRefused(ts: seq<Treatment>) {
    forall t <- ts :: !t.Refuse?
  }

  function Batch(ts: seq<Treatment>): seq<AuthBatch> {
    if ts == [] then []
    else Batch(ts[..|ts| - 1]) + (if ts[|ts| - 1].Send? then [ts[|ts| - 1].item] else [])
  }

  // How many of the first `i` resources are sent to the server.
  function Rank(ts: seq<Treatment>, i: nat): nat
    requires i <= |ts|
  {
    if i == 0 then 0 else Rank(ts, i - 1) + (if ts[i - 1].Send? then 1 else 0)
  }

  // The decision at position `i` when the server sent `answers`.
  function Merged(ts: seq<Treatment>, answers: seq<bool>, i: nat): bool
    requires i < |ts|
  {
    ts[i].Pass? || (Rank(ts, i) < |answers| && answers[Rank(ts, i)])
  }

  function MergedAll(ts: seq<Treatment>, answers: seq<bool>): seq<bool> {
    seq(|ts|, i requires 0 <= i < |ts| => Merged(ts, answers, i))
  }

  function AllTrue(n: nat): seq<bool> {
    seq(n, _ => true)
  }

  // The outcome for every reply of the server, including replies of the wrong length.
  function AuthorizeSpec(enabled: bool, ts: seq<Treatment>, server: seq<AuthBatch> -> Result<seq<bool>>): Outcome<seq<bool>> {
    if !enabled then Done(AllTrue(|ts|))
    else if !NoneRefused(ts) then Failed
    else if Batch(ts) == [] then Done(AllTrue(|ts|))
    else
      match server(Batch(ts))
      case Err => Failed
      case Ok(answers) => if |answers| > |Batch(ts)| then Panicked else Done(MergedAll(ts, answers))
  }

  /******* The code *******/

  lemma BatchGrows(ts: seq<Treatment>, n: nat)
    requires n < |ts|
    ensures NoneRefused(ts[..n + 1]) <==> NoneRefused(ts[..n]) && !ts[n].Refuse?
    ensures Batch(ts[..n + 1]) == Batch(ts[..n]) + (if ts[n].Send? then [ts[n].item] else [])
    ensures ts[n] in ts
  {
    assert ts[..n + 1][..n] == ts[..n] && ts[..n + 1] == ts[..n] + [ts[n]];
    assert ts[n] in ts[..n + 1] && forall t <- ts[..n] :: t in ts[..n + 1];
  }

  method ParseAttributesToBatchOptions(enabled: bool, resources: seq<Meta.ResourceAttribute>)
    returns (ok: bool, opts: Option<seq<AuthBatch>>, decisions: array<bool>)
    ensures fresh(decisions)
    ensures enabled ==> Collected(ClassifyAll(resources), ok, opts, decisions[..])
    ensures !enabled ==> ok && opts == None && decisions[..] == AllTrue(|resources|)
    ensures enabled ==> (ok <==> !Unadaptable(resources))
    ensures enabled && ok ==>
      && decisions.Length == |resources|
      && forall i | 0 <= i < |resources| ::
           decisions[i] <==> resources[i].action.SkipAction? || Adapt(resources[i]).value.0 == Skip
  {
    if !enabled {
      decisions := new bool[|resources|](_ => true);
      return true, None, decisions;
    }
    ok, opts, decisions := CollectBatch(resources, Classifier());
    RefusedIsUnadaptable(resources);
    forall i | 0 <= i < |resources|
      ensures ClassifyAll(resources)[i] == Classify(resources[i]) && resources[i] in resources
    {
    }
  }

  // An error when one cannot be adapted. Otherwise the batch has the adapted resources, if there are any,
  // and exactly the skipped ones are decided.
  ghost predicate Collected(ts: seq<Treatment>, ok: bool, opts: Option<seq<AuthBatch>>, decisions: seq<bool>) {
    && (ok <==> NoneRefused(ts))
    && (ok ==>
          && opts == (if Batch(ts) == [] then None else Some(Batch(ts)))
          && |decisions| == |ts| && forall i | 0 <= i < |ts| :: decisions[i] == ts[i].Pass?)
  }

  // The loop over the resources.
  method CollectBatch<R>(resources: seq<R>, treat: R -> Treatment)
    returns (ok: bool, opts: Option<seq<AuthBatch>>, decisions: array<bool>)
    ensures fresh(decisions) && Collected(Treated(resources, treat), ok, opts, decisions[..])
  {
    ok, opts := true, None;
    decisions := new bool[|resources|](_ => false);
    var batch: seq<AuthBatch> := [];
    ghost var ts := Treated(resources, treat);
    for index := 0 to |resources|
      invariant NoneRefused(ts[..index])
      invariant forall i | 0 <= i < |resources| :: decisions[i] == (i < index && ts[i].Pass?)
      invariant batch == Batch(ts[..index])
    {
      BatchGrows(ts, index);
      var treatment := treat(resources[index]);
      match treatment {
        case Pass =>
          decisions[index] := true;
        case Refuse =>
          assert ts[index].Refuse?;
          return false, None, decisions;
        case Send(item) =>
          batch := batch + [item];
      }
    }
    assert ts[..|ts|] == ts;
    if |batch| != 0 {
      opts := Some(batch);
    }
  }

  method AuthorizeBatch(enabled: bool, resources: seq<Meta.ResourceAttribute>,
                        server: seq<AuthBatch> -> Result<seq<bool>>) returns (r: Outcome<seq<bool>>)
    ensures r == AuthorizeSpec(enabled, ClassifyAll(resources), server)
    ensures enabled ==> (r == Failed <==> Unadaptable(resources) || Unanswered(resources, server))
    ensures !enabled ==> r.Done? && |r.value| == |resources| && forall d <- r.value :: d
  {
    FailsExactly(resources, server);
    var ok, opts, decisions := ParseAttributesToBatchOptions(enabled, resources);
    if !ok {
      return Failed;
    }
    if opts == None {
      if enabled {
        AllPass(ClassifyAll(resources));
      }
      assert decisions[..] == AllTrue(|resources|);
      return Done(decisions[..]);
    }
    var reply := server(opts.value);
    if reply.Err? {
      return Failed;
    }
    r := Merge(ClassifyAll(resources), reply.value, decisions);
  }

  // The merge loop: `index` passes over decisions already set and never comes back.
  method Merge(ghost ts: seq<Treatment>, answers: seq<bool>, decisions: array<bool>) returns (r: Outcome<seq<bool>>)
    requires NoneRefused(ts) && decisions.Length == |ts|
    requires forall i | 0 <= i < |ts| :: decisions[i] == ts[i].Pass?
    modifies decisions
    ensures r == if |answers| > |Batch(ts)| then Panicked else Done(MergedAll(ts, answers))
  {
    RankIsBatch(ts);
    var index := 0;
    for k := 0 to |answers|
      invariant 0 <= index <= |ts|
      invariant Rank(ts, index) == k
      invariant forall i | index <= i < |ts| :: decisions[i] == ts[i].Pass?
      invariant forall i | 0 <= i < index :: decisions[i] == Merged(ts, answers, i)
    {
      var start := index;
      while index < decisions.Length && decisions[index]
        invariant start <= index <= |ts|
        invariant forall i | start <= i < index :: decisions[i]
      {
        index := index + 1;
      }
      RankOverPasses(ts, start, index);
      if index == decisions.Length {
        return Panicked;
      }
      assert ts[index] in ts;
      RankMonotone(ts, index + 1, |ts|);
      decisions[index] := answers[k];
      index := index + 1;
    }
    OutOfAnswers(ts, answers, index);
    assert decisions[..] == MergedAll(ts, answers);
    return Done(decisions[..]);
  }

  lemma {:induction false} RankMonotone(ts: seq<Treatment>, i: nat, j: nat)
    requires i <= j <= |ts|
    ensures Rank(ts, i) <= Rank(ts, j)
  {
    if i < j {
      RankMonotone(ts, i, j - 1);
    }
  }

  // Behind the last answer only skipped resources are authorized.
  lemma OutOfAnswers(ts: seq<Treatment>, answers: seq<bool>, index: nat)
    requires index <= |ts| && Rank(ts, index) == |answers|
    ensures Rank(ts, index) <= Rank(ts, |ts|)
    ensures forall i | index <= i < |ts| :: Merged(ts, answers, i) == ts[i].Pass?
  {
    RankMonotone(ts, index, |ts|);
    forall i | index <= i < |ts|
      ensures Merged(ts, answers, i) == ts[i].Pass?
    {
      RankMonotone(ts, index, i);
    }
  }

  lemma {:induction false} RankOverPasses(ts: seq<Treatment>, i: nat, j: nat)
    requires i <= j <= |ts| && forall k | i <= k < j :: ts[k].Pass?
    ensures forall k | i <= k <= j :: Rank(ts, k) == Rank(ts, i)
  {
    if i < j {
      RankOverPasses(ts, i, j - 1);
    }
  }

  lemma {:induction false} RankPrefix(ts: seq<Treatment>, n: nat, i: nat)
    requires i <= n <= |ts|
    ensures Rank(ts[..n], i) == Rank(ts, i)
  {
    if i > 0 {
      RankPrefix(ts, n, i - 1);
    }
  }

  lemma {:induction false} RankIsBatch(ts: seq<Treatment>)
    ensures Rank(ts, |ts|) == |Batch(ts)|
  {
    if ts != [] {
      RankIsBatch(ts[..|ts| - 1]);
      RankPrefix(ts, |ts| - 1, |ts| - 1);
    }
  }

  lemma {:induction false} AllPass(ts: seq<Treatment>)
    requires NoneRefused(ts) && Batch(ts) == []
    ensures forall i | 0 <= i < |ts| :: ts[i].Pass?
  {
    if ts != [] {
      assert ts[|ts| - 1] in ts;
      AllPass(ts[..|ts| - 1]);
    }
  }

  /******* The batch refines the single decisions *******/

  // The entry of the batch that belongs to a resource sent is the one at its rank.
  lemma {:induction false} BatchAt(ts: seq<Treatment>, i: nat)
    requires i < |ts| && ts[i].Send?
    ensures Rank(ts, i) < |Batch(ts)| && Batch(ts)[Rank(ts, i)] == ts[i].item
  {
    var n := |ts| - 1;
    RankPrefix(ts, n, i);
    RankIsBatch(ts[..n]);
    if i < n {
      BatchAt(ts[..n], i);
    }
  }

  // The server answers the batch position by position.
  ghost predicate Positional(server: seq<AuthBatch> -> Result<seq<bool>>, verdict: AuthBatch -> bool) {
    forall batch | server(batch).Ok? ::
      |server(batch).value| == |batch| && forall j | 0 <= j < |batch| :: server(batch).value[j] == verdict(batch[j])
  }

  // On success every resource gets exactly the decision it would get alone.
  lemma BatchRefinesPointwise(ts: seq<Treatment>, server: seq<AuthBatch> -> Result<seq<bool>>, verdict: AuthBatch -> bool)
    requires Positional(server, verdict)
    ensures
      var r := AuthorizeSpec(true, ts, server);
      && !r.Panicked?
      && (r.Done? ==> |r.value| == |ts| && forall i | 0 <= i < |ts| :: !ts[i].Refuse? && r.value[i] == PointVerdict(ts[i], verdict))
  {
    forall i | 0 <= i < |ts| && NoneRefused(ts)
      ensures !ts[i].Refuse?
      ensures Batch(ts) == [] ==> PointVerdict(ts[i], verdict)
      ensures server(Batch(ts)).Ok? ==> Merged(ts, server(Batch(ts)).value, i) == PointVerdict(ts[i], verdict)
    {
      assert ts[i] in ts;
      if ts[i].Send? {
        BatchAt(ts, i);
      }
    }
  }

  function SentPositions(ts: seq<Treatment>, n: nat): set<nat>
    requires n <= |ts|
  {
    set i: nat | i < n && ts[i].Send?
  }

  lemma {:induction false} RankCounts(ts: seq<Treatment>, n: nat)
    requires n <= |ts|
    ensures Rank(ts, n) == |SentPositions(ts, n)|
  {
    if n > 0 {
      RankCounts(ts, n - 1);
      if ts[n - 1].Send? {
        assert SentPositions(ts, n) == SentPositions(ts, n - 1) + {n - 1};
      } else {
        assert SentPositions(ts, n) == SentPositions(ts, n - 1);
      }
    }
  }

  // For a reply of any length: the merge runs off the end exactly when there are more answers than
  // positions waiting for one. Otherwise the waiting position with `r` others before it gets answer
  // `r`, and stays unauthorized when there is none.
  lemma AnswersGoByRank(ts: seq<Treatment>, server: seq<AuthBatch> -> Result<seq<bool>>)
    requires NoneRefused(ts) && Batch(ts) != [] && server(Batch(ts)).Ok?
    ensures
      var answers, r := server(Batch(ts)).value, AuthorizeSpec(true, ts, server);
      && (r.Panicked? <==> |answers| > |SentPositions(ts, |ts|)|)
      && (!r.Panicked? ==>
            && r.Done? && |r.value| == |ts|
            && forall i | 0 <= i < |ts| && ts[i].Send? ::
                 var before := |SentPositions(ts, i)|;
                 r.value[i] == (before < |answers| && answers[before]))
  {
    RankIsBatch(ts);
    RankCounts(ts, |ts|);
    forall i | 0 <= i < |ts|
      ensures Rank(ts, i) == |SentPositions(ts, i)|
    {
      RankCounts(ts, i);
    }
  }

  /******* From attributes to decisions *******/

  // A resource that is not skipped cannot be adapted.
  ghost predicate Unadaptable(resources: seq<Meta.ResourceAttribute>) {
    exists a <- resources :: !a.action.SkipAction? && Adapt(a).Err?
  }

  // Some resource has to be asked about, and the server does not answer.
  ghost predicate Unanswered(resources: seq<Meta.ResourceAttribute>, server: seq<AuthBatch> -> Result<seq<bool>>) {
    && (exists a <- resources :: !a.action.SkipAction? && Adapt(a).Ok? && Adapt(a).value.0 != Skip)
    && server(Batch(ClassifyAll(resources))).Err?
  }

  // A resource is skipped, or adapts to the action that nobody checks, or is granted as what it adapts to.
  ghost predicate Granted(a: Meta.ResourceAttribute, verdict: AuthBatch -> bool) {
    || a.action.SkipAction?
    || (Adapt(a).Ok? && (Adapt(a).value.0 == Skip || verdict(AuthBatch(Adapt(a).value.0, Adapt(a).value.1))))
  }

  // With authorization on, these are the two ways to fail.
  lemma FailsExactly(resources: seq<Meta.ResourceAttribute>, server: seq<AuthBatch> -> Result<seq<bool>>)
    ensures AuthorizeSpec(true, ClassifyAll(resources), server) == Failed <==>
      Unadaptable(resources) || Unanswered(resources, server)
  {
    var ts := ClassifyAll(resources);
    forall i | 0 <= i < |resources|
      ensures ts[i] == Classify(resources[i]) && ts[i] in ts && resources[i] in resources
    {
    }
    RefusedIsUnadaptable(resources);
    SentIsAdapted(resources);
  }

  lemma RefusedIsUnadaptable(resources: seq<Meta.ResourceAttribute>)
    ensures NoneRefused(ClassifyAll(resources)) <==> forall a <- resources :: a.action.SkipAction? || Adapt(a).Ok?
  {
    var ts := ClassifyAll(resources);
    forall a | a in resources
      ensures Classify(a) in ts && (Classify(a).Refuse? <==> !a.action.SkipAction? && Adapt(a).Err?)
    {
      var i :| 0 <= i < |resources| && resources[i] == a;
      assert ts[i] == Classify(a);
    }
    forall t | t in ts
      ensures exists a <- resources :: Classify(a) == t
    {
      var i :| 0 <= i < |ts| && ts[i] == t;
      assert resources[i] in resources;
    }
  }

  lemma SentIsAdapted(resources: seq<Meta.ResourceAttribute>)
    ensures Batch(ClassifyAll(resources)) != []
       <==> exists a <- resources :: !a.action.SkipAction? && Adapt(a).Ok? && Adapt(a).value.0 != Skip
  {
    var ts := ClassifyAll(resources);
    BatchNotEmpty(ts);
    forall i | 0 <= i < |resources|
      ensures ts[i] == Classify(resources[i]) && resources[i] in resources
    {
    }
    if a :| a in resources && !a.action.SkipAction? && Adapt(a).Ok? && Adapt(a).value.0 != Skip {
      var i :| 0 <= i < |resources| && resources[i] == a;
      assert ts[i].Send?;
    }
  }

  lemma {:induction false} BatchNotEmpty(ts: seq<Treatment>)
    ensures Batch(ts) != [] <==> exists i :: 0 <= i < |ts| && ts[i].Send?
  {
    if ts != [] {
      BatchNotEmpty(ts[..|ts| - 1]);
      assert forall i | 0 <= i < |ts| - 1 :: ts[..|ts| - 1][i] == ts[i];
    }
  }

  // On success a resource passes exactly when it is granted.
  lemma DecisionIsItsOwn(resources: seq<Meta.ResourceAttribute>, server: seq<AuthBatch> -> Result<seq<bool>>,
                         verdict: AuthBatch -> bool, i: nat)
    requires Positional(server, verdict) && i < |resources|
    requires AuthorizeSpec(true, ClassifyAll(resources), server).Done?
    ensures
      var decisions, a := AuthorizeSpec(true, ClassifyAll(resources), server).value, resources[i];
      && |decisions| == |resources| && (a.action.SkipAction? || Adapt(a).Ok?)
      && (decisions[i] <==> Granted(a, verdict))
  {
    BatchRefinesPointwise(ClassifyAll(resources), server, verdict);
    assert ClassifyAll(resources)[i] == Classify(resources[i]);
  }

  // With authorization off everything passes and nobody is asked.
  lemma PassesWhenDisabled(ts: seq<Treatment>, server: seq<AuthBatch> -> Result<seq<bool>>)
    ensures AuthorizeSpec(false, ts, server).Done? && |AuthorizeSpec(false, ts, server).value| == |ts|
    ensures forall d <- AuthorizeSpec(false, ts, server).value :: d
  {
  }
}
