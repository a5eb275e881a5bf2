/**
 The retry loop of the internal clients, `Do` (src/apimachinery/rest/request.go:259-388) with
 `isConnectionReset` (lines 620-634): up to three rounds over the servers that discovery hands out.
 */
module RestRetry {
  import opened Common
  import opened Discovery
  import ServerList

  const ECONNRESET := 104

  // A Go error as far as it can be unwrapped here.
  datatype GoError = UrlError(inner: GoError) | OpError(inner: GoError) | SyscallError(inner: GoError) | Errno(number: int) | OtherError

  datatype Response = Response(status: int, body: string)

  // What comes of one attempt: the request cannot be built; it cannot be sent; the body of the reply ends
  // too early or cannot be read; or there is a reply.
  datatype Attempt = Unbuildable | SendFails(err: GoError) | ShortBody | BadBody | Replied(response: Response)

  // What happens from now on, by the number of the attempt and the host.
  type World = (nat, string) -> Attempt

  datatype Failure = Unprepared | NoServer | BuildFailure | SendFailure(err: GoError) | BodyFailure | Unexpected

  datatype Outcome = Success(response: Response) | Failed(failure: Failure)

  /******* isConnectionReset *******/

  method IsConnectionReset(err: GoError) returns (b: bool)
    ensures b <==> IsReset(err)
    ensures b <==> HasResetShape(err)
  {
    ResetShapes(err);
    var e := err;
    if e.UrlError? {
      e := e.inner;
    }
    if e.OpError? {
      e := e.inner;
    }
    if e.SyscallError? {
      e := e.inner;
    }
    b := e.Errno? && e.number == ECONNRESET;
    if b {
      assert err == Wrapped(err.UrlError?, (if err.UrlError? then err.inner else err).OpError?,
                            !(if err.UrlError? then err.inner else err).Errno?
                            && (if err.UrlError? then err.inner else err) != OpError(Errno(ECONNRESET)));
    }
  }

  // ECONNRESET inside at most one error of each kind, from the URL inwards.
  ghost predicate IsReset(err: GoError) {
    exists url, op, sys :: err == Wrapped(url, op, sys)
  }

  function Wrapped(url: bool, op: bool, sys: bool): GoError {
    var bottom := Errno(ECONNRESET);
    var call := if sys then SyscallError(bottom) else bottom;
    var net := if op then OpError(call) else call;
    if url then UrlError(net) else net
  }

  // The eight ways in which error 104 can be wrapped.
  predicate HasResetShape(err: GoError) {
    || err == Errno(104) || err == SyscallError(Errno(104))
    || err == OpError(Errno(104)) || err == OpError(SyscallError(Errno(104)))
    || err == UrlError(Errno(104)) || err == UrlError(SyscallError(Errno(104)))
    || err == UrlError(OpError(Errno(104))) || err == UrlError(OpError(SyscallError(Errno(104))))
  }

  lemma ResetShapes(err: GoError)
    ensures IsReset(err) <==> HasResetShape(err)
  {
    assert Wrapped(false, false, false) == Errno(104) && Wrapped(false, false, true) == SyscallError(Errno(104));
    assert Wrapped(false, true, false) == OpError(Errno(104)) && Wrapped(false, true, true) == OpError(SyscallError(Errno(104)));
    assert Wrapped(true, false, false) == UrlError(Errno(104)) && Wrapped(true, false, true) == UrlError(SyscallError(Errno(104)));
    assert Wrapped(true, true, false) == UrlError(OpError(Errno(104)));
    assert Wrapped(true, true, true) == UrlError(OpError(SyscallError(Errno(104))));
  }

  /******* The loop *******/

  const CYCLES := 3

  ghost predicate Again(isGet: bool, a: Attempt) {
    a.ShortBody? || (a.SendFails? && isGet && IsReset(a.err))
  }

  // The hosts three times over.
  function Thrice(hosts: seq<string>): seq<string> {
    hosts + hosts + hosts
  }

  // How many attempts are followed by another one, of at most `|plan|`.
  ghost function Resent(isGet: bool, plan: seq<string>, world: World, i: nat): (n: nat)
    requires i <= |plan|
    ensures i + n <= |plan|
    decreases |plan| - i
  {
    if i < |plan| && Again(isGet, world(i, plan[i])) then 1 + Resent(isGet, plan, world, i + 1) else 0
  }

  function Ending(a: Attempt): Outcome
  {
    match a
    case Unbuildable => Failed(BuildFailure)
    case SendFails(err) => Failed(SendFailure(err))
    case ShortBody => Failed(Unexpected)
    case BadBody => Failed(BodyFailure)
    case Replied(response) => Success(response)
  }

  // After `n` attempts, each followed by another one.
  ghost predicate Going(isGet: bool, plan: seq<string>, world: World, sent: seq<string>, throttled: nat, n: nat) {
    && n <= |plan| && sent == plan[..n] && throttled == (if n == 0 then 0 else n - 1)
    && Resent(isGet, plan, world, 0) == n + Resent(isGet, plan, world, n)
  }

  // The client: what it sent to whom, and how often it asked the throttle before.
  class Client {
    ghost var sent: seq<string>
    ghost var throttled: nat

    constructor ()
      ensures sent == [] && throttled == 0
    {
      sent, throttled := [], 0;
    }

    method TryThrottle()
      modifies `throttled
      ensures throttled == old(throttled) + 1
    {
      throttled := throttled + 1;
    }

    method Send(host: string)
      modifies `sent
      ensures sent == old(sent) + [host]
    {
      sent := sent + [host];
    }

    // The body of the loop; `None` goes on to the next host. `number` counts the attempts.
    method Try(isGet: bool, ghost plan: seq<string>, world: World, number: nat, host: string, retries: nat) returns (r: Option<Outcome>)
      requires number < |plan| && host == plan[number] && (retries > 0 <==> number > 0)
      requires Going(isGet, plan, world, sent, throttled, number)
      modifies this
      ensures r == None ==> Going(isGet, plan, world, sent, throttled, number + 1)
      ensures r.Some? ==> Ended(isGet, plan, world, r.value, sent, throttled)
      ensures isGet && r.Some? && r.value.Failed? && r.value.failure.SendFailure? ==> !HasResetShape(r.value.failure.err)
    {
      var attempt := world(number, host);
      if attempt.Unbuildable? {
        return Some(Failed(BuildFailure));
      }
      if retries > 0 {
        TryThrottle();
      }
      Send(host);
      assert sent == plan[..number + 1];
      if attempt.SendFails? {
        var reset := IsConnectionReset(attempt.err);
        if !reset || !isGet {
          return Some(Failed(SendFailure(attempt.err)));
        }
        return None;
      }
      if attempt.ShortBody? {
        return None;
      }
      if attempt.BadBody? {
        return Some(Failed(BodyFailure));
      }
      return Some(Success(attempt.response));
    }

    // `prepared` is false after an error while the request was put together; `mock` is the canned result of a
    // mocked client; `discovered` is what GetServers answers.
    method Do(prepared: bool, mock: Option<Outcome>, isGet: bool, discovered: Result<seq<string>>, world: World)
      returns (r: Outcome)
      requires sent == [] && throttled == 0
      modifies this
      ensures !prepared || mock.Some? || discovered.Err? ==>
        && sent == [] && throttled == 0
        && r == if !prepared then Failed(Unprepared) else if mock.Some? then mock.value else Failed(NoServer)
      ensures prepared && mock.None? && discovered.Ok? ==>
        Followed(isGet, Thrice(discovered.value), world, r, sent, throttled)
      ensures prepared && mock.None? && isGet && r.Failed? && r.failure.SendFailure? ==> !HasResetShape(r.failure.err)
    {
      if !prepared {
        return Failed(Unprepared);
      }
      if mock.Some? {
        return mock.value;
      }
      if discovered.Err? {
        return Failed(NoServer);
      }
      var hosts, number := discovered.value, 0;
      ghost var plan := Thrice(hosts);
      for try := 0 to CYCLES
        invariant number == if try == 0 then 0 else if try == 1 then |hosts| else if try == 2 then 2 * |hosts| else 3 * |hosts|
        invariant Going(isGet, plan, world, sent, throttled, number)
      {
        ghost var before := number;
        for index := 0 to |hosts|
          invariant number == before + index
          invariant Going(isGet, plan, world, sent, throttled, number)
        {
          var retries := try + index;
          var done := Try(isGet, plan, world, number, hosts[index], retries);
          if done.Some? {
            return done.value;
          }
          number := number + 1;
        }
      }
      return Failed(Unexpected);
    }
  }

  // A call that an attempt has put an end to ...
  ghost predicate Ended(isGet: bool, plan: seq<string>, world: World, r: Outcome, sent: seq<string>, throttled: nat) {
    var n := Resent(isGet, plan, world, 0);
    && n < |plan| && r == Ending(world(n, plan[n]))
    && sent == plan[..if world(n, plan[n]).Unbuildable? then n else n + 1]
    && throttled == if |sent| == 0 then 0 else |sent| - 1
  }

  // ... or one that ran out of attempts.
  ghost predicate Followed(isGet: bool, plan: seq<string>, world: World, r: Outcome, sent: seq<string>, throttled: nat) {
    || Ended(isGet, plan, world, r, sent, throttled)
    || (&& Resent(isGet, plan, world, 0) == |plan| && sent == plan && r == Failed(Unexpected)
        && throttled == if |sent| == 0 then 0 else |sent| - 1)
  }

  /******* What a call can and cannot do *******/

  lemma {:induction false} ResentIsRun(isGet: bool, plan: seq<string>, world: World, i: nat)
    requires i <= |plan|
    ensures
      var n := Resent(isGet, plan, world, i);
      && (forall j | i <= j < i + n :: Again(isGet, world(j, plan[j])))
      && (i + n < |plan| ==> !Again(isGet, world(i + n, plan[i + n])))
    decreases |plan| - i
  {
    if i < |plan| && Again(isGet, world(i, plan[i])) {
      ResentIsRun(isGet, plan, world, i + 1);
    }
  }

  // Whatever the servers do: the hosts contacted are the first ones of the list taken three times; a
  // request is repeated only after a body that ended early or, when it is a GET, a reset connection; the
  // throttle is asked once before each repetition; and the answer is that of the last attempt, when there
  // is one.
  lemma RetriesAreJustified(isGet: bool, hosts: seq<string>, world: World, r: Outcome, sent: seq<string>, throttled: nat)
    requires Followed(isGet, Thrice(hosts), world, r, sent, throttled)
    ensures sent <= Thrice(hosts) && throttled == (if |sent| == 0 then 0 else |sent| - 1)
    ensures forall i | 0 <= i < |sent| - 1 ::
      var a := world(i, sent[i]);
      a.ShortBody? || (isGet && a.SendFails? && IsReset(a.err))
    ensures r.Success? <==> |sent| > 0 && world(|sent| - 1, sent[|sent| - 1]).Replied?
    ensures r.Success? ==> r.response == world(|sent| - 1, sent[|sent| - 1]).response
  {
    var plan := Thrice(hosts);
    ResentIsRun(isGet, plan, world, 0);
    var n := Resent(isGet, plan, world, 0);
    assert forall i | 0 <= i < |sent| :: sent[i] == plan[i];
  }

  // The hosts go through in order, three times over, and each attempt decides what comes next. A body that
  // ended early, or a reset connection on a GET, is followed by the next attempt; all else ends the call
  // with what this attempt has come to. These clauses leave one outcome for any behaviour of the servers.
  lemma EachAttemptDecides(isGet: bool, hosts: seq<string>, world: World, r: Outcome, sent: seq<string>, throttled: nat)
    requires Followed(isGet, Thrice(hosts), world, r, sent, throttled)
    ensures sent <= hosts + hosts + hosts
    ensures forall i | 0 <= i < |sent| && (i < |sent| - 1 || r == Failed(Unexpected) || r == Failed(BuildFailure)) ::
      var a := world(i, sent[i]);
      a.ShortBody? || (isGet && a.SendFails? && HasResetShape(a.err))
    ensures r == Failed(Unexpected) ==> sent == hosts + hosts + hosts
    ensures r == Failed(BuildFailure) ==>
      |sent| < |hosts + hosts + hosts| && world(|sent|, (hosts + hosts + hosts)[|sent|]).Unbuildable?
    ensures r != Failed(Unexpected) && r != Failed(BuildFailure) ==>
      && |sent| > 0
      && match world(|sent| - 1, sent[|sent| - 1])
         case Replied(response) => r == Success(response)
         case SendFails(err) => r == Failed(SendFailure(err)) && !(isGet && HasResetShape(err))
         case BadBody => r == Failed(BodyFailure)
         case _ => false
  {
    var plan := Thrice(hosts);
    var n := Resent(isGet, plan, world, 0);
    ResentIsRun(isGet, plan, world, 0);
    forall i | 0 <= i < |sent|
      ensures sent[i] == plan[i] && (i < n ==> Again(isGet, world(i, plan[i])))
    {
    }
    forall err
      ensures IsReset(err) <==> HasResetShape(err)
    {
      ResetShapes(err);
    }
  }

  // An error other than "unexpected" ends a call on the spot, and "unexpected" means that every server was
  // asked three times in vain.
  lemma GivingUpTakesAll(isGet: bool, hosts: seq<string>, world: World, r: Outcome, sent: seq<string>, throttled: nat)
    requires Followed(isGet, Thrice(hosts), world, r, sent, throttled)
    ensures r == Failed(Unexpected) <==> forall i | 0 <= i < |Thrice(hosts)| ::
      var a := world(i, Thrice(hosts)[i]);
      a.ShortBody? || (isGet && a.SendFails? && IsReset(a.err))
    ensures r == Failed(Unexpected) ==> forall h :: multiset(sent)[h] == 3 * multiset(hosts)[h]
  {
    ResentIsRun(isGet, Thrice(hosts), world, 0);
  }

  // Over a rotation of a list of different servers, no server is asked again before all others were.
  lemma AllBeforeAgain(isGet: bool, list: seq<string>, k: nat, world: World, r: Outcome, sent: seq<string>, throttled: nat)
    requires k < |list| && forall i, j | 0 <= i < j < |list| :: list[i] != list[j]
    requires Followed(isGet, Thrice(Turned(list, k)), world, r, sent, throttled)
    ensures forall i, j | 0 <= i < j < |sent| && j < i + |list| :: sent[i] != sent[j]
  {
    var hosts, n := Turned(list, k), |list|;
    RetriesAreJustified(isGet, hosts, world, r, sent, throttled);
    forall i, j | 0 <= i < j < |sent| && j < i + n
      ensures sent[i] != sent[j]
    {
      PlanAt(hosts, i);
      PlanAt(hosts, j);
      TurnedDiffers(list, k, Within(i, n), Within(j, n));
    }
  }

  // A call starts with the server whose turn it is, and a whole round reaches every server of the list.
  lemma RoundIsWhole(isGet: bool, list: seq<string>, k: nat, world: World, r: Outcome, sent: seq<string>, throttled: nat)
    requires k < |list| && Followed(isGet, Thrice(Turned(list, k)), world, r, sent, throttled)
    ensures |sent| >= 1 ==> sent[0] == list[k]
    ensures |sent| >= |list| ==> multiset(sent[..|list|]) == multiset(list)
  {
    var hosts := Turned(list, k);
    RetriesAreJustified(isGet, hosts, world, r, sent, throttled);
    if |sent| >= |list| {
      ServerList.TurnedKeepsAll(list, k);
      assert sent[..|list|] == hosts;
    }
  }

  function Within(i: nat, n: nat): (p: nat)
    requires i < 3 * n
    ensures p < n
  {
    if i < n then i else if i < 2 * n then i - n else i - 2 * n
  }

  lemma PlanAt(hosts: seq<string>, i: nat)
    requires i < 3 * |hosts|
    ensures Thrice(hosts)[i] == hosts[Within(i, |hosts|)]
  {
  }

  lemma TurnedDiffers(list: seq<string>, k: nat, p: nat, q: nat)
    requires k < |list| && p < |list| && q < |list| && p != q
    requires forall i, j | 0 <= i < j < |list| :: list[i] != list[j]
    ensures Turned(list, k)[p] != Turned(list, k)[q]
  {
    var n := |list|;
    var a, b := if p < n - k then p + k else p + k - n, if q < n - k then q + k else q + k - n;
    assert Turned(list, k)[p] == list[a] && Turned(list, k)[q] == list[b] && a != b;
  }
}
