/**
 The relay channel's report methods, over the durable one-slot store. The outcome of each effect is
 an input, and each method follows a path of the report protocol.
 */
module RelayChannel {
  import opened ReportProtocol
  import opened Options

  // ---- one signed report, retried ----

  /** `landed` says whether the server had taken the report before the call failed. */
  datatype Rpc =
    | Replied(accepted: bool, recorded: bool)
    | Transient(landed: bool)
    | Permanent(landed: bool)

  type Byte = n: nat | n < 256

  /** One try: is the reporting window already over; the call; is it over afterwards; the jitter byte, if one
      could be read; and did the window end while waiting. */
  datatype Try = Try(over: bool, rpc: Rpc, overAfter: bool, jitter: Option<Byte>, overWaiting: bool)

  const LAST_ATTEMPT := 5
  const FIRST_DELAY := 250_000_000
  const MAX_DELAY := 4_000_000_000

  predicate Accepts(r: Rpc) {
    r.Replied? && (r.accepted || r.recorded)
  }

  /** The server holds the report after this call. */
  predicate Landed(r: Rpc) {
    if r.Replied? then Accepts(r) else r.landed
  }

  predicate MayRetry(t: Try) {
    t.rpc.Transient? && !t.overAfter && t.jitter.Some? && !t.overWaiting
  }

  /** Each of the first `n` tries was made and left something to retry. */
  ghost predicate Retried(env: nat -> Try, n: nat) {
    n == 0 || (Retried(env, n - 1) && !env(n - 1).over && MayRetry(env(n - 1)))
  }

  /** The longest wait after try `i`, in nanoseconds. */
  function Backoff(i: nat): (d: nat)
    ensures FIRST_DELAY <= d <= MAX_DELAY
  {
    if i == 0 then FIRST_DELAY else if 2 * Backoff(i - 1) < MAX_DELAY then 2 * Backoff(i - 1) else MAX_DELAY
  }

  /** A quarter of a second, doubled with every try up to four seconds. */
  lemma BackoffDoubles(i: nat)
    ensures Backoff(0) == 250_000_000
    ensures Backoff(i + 1) == if 2 * Backoff(i) < 4_000_000_000 then 2 * Backoff(i) else 4_000_000_000
  {
  }

  lemma Scaled(half: nat, jitter: nat)
    requires jitter < 256
    ensures 0 <= jitter * half / 256 <= half
  {
    assert 0 <= jitter * half <= 256 * half;
  }

  /** Each wait lies between half its backoff and all of it. */
  ghost predicate Spaced(waits: seq<nat>) {
    forall i | 0 <= i < |waits| :: Backoff(i) / 2 <= waits[i] <= Backoff(i)
  }

  lemma SpacedThen(waits: seq<nat>, wait: nat)
    requires Spaced(waits) && Backoff(|waits|) / 2 <= wait <= Backoff(|waits|)
    ensures Spaced(waits + [wait])
  {
    assert forall i | 0 <= i < |waits| :: (waits + [wait])[i] == waits[i];
  }

  /** The wait before the next try: between half the delay and all of it. */
  method Jittered(delay: nat, jitter: Byte) returns (wait: nat)
    ensures delay / 2 <= wait <= delay
  {
    Scaled(delay / 2, jitter);
    wait := delay / 2 + jitter * (delay / 2) / 256;
  }

  /** The server answers one of the tries, each of those before it having left something to retry, and its answer
      accepts. */
  ghost predicate Delivered(env: nat -> Try) {
    exists n: nat :: n <= LAST_ATTEMPT && Retried(env, n) && !env(n).over && Accepts(env(n).rpc)
  }

  lemma {:induction false} RetriedBefore(env: nat -> Try, n: nat, m: nat)
    requires m < n && Retried(env, n)
    ensures !env(m).over && MayRetry(env(m))
  {
    if m < n - 1 {
      RetriedBefore(env, n - 1, m);
    }
  }

  /** A sending loop that stopped where it had to was accepted exactly when the report was delivered. */
  lemma AcceptedIffDelivered(env: nat -> Try, calls: nat, accepted: bool)
    requires calls <= LAST_ATTEMPT + 1 && (calls == 0 ==> !accepted && env(0).over)
    requires calls > 0 ==> Retried(env, calls - 1) && !env(calls - 1).over && accepted == Accepts(env(calls - 1).rpc)
    requires calls > 0 && MayRetry(env(calls - 1)) ==> calls == LAST_ATTEMPT + 1 || env(calls).over
    ensures accepted <==> Delivered(env)
  {
    if n: nat :| n <= LAST_ATTEMPT && Retried(env, n) && !env(n).over && Accepts(env(n).rpc) {
      if calls == 0 {
        if n > 0 {
          RetriedBefore(env, n, 0);
        }
      } else if n < calls - 1 {
        RetriedBefore(env, calls - 1, n);
      } else if n > calls - 1 {
        RetriedBefore(env, n, calls - 1);
        if n > calls {
          RetriedBefore(env, n, calls);
        }
      }
    }
  }

  /** Where a sending loop stops, and whether it stops without a reply. */
  ghost predicate Stops(env: nat -> Try, calls: nat, failed: bool) {
    && calls <= LAST_ATTEMPT + 1 && (calls == 0 ==> failed && env(0).over)
    && (calls > 0 ==> Retried(env, calls - 1) && !env(calls - 1).over && failed == !env(calls - 1).rpc.Replied?)
    && (failed && calls > 0 && MayRetry(env(calls - 1)) ==> calls == LAST_ATTEMPT + 1 || env(calls).over)
  }

  /** It stops in one place. */
  lemma StopsOnce(env: nat -> Try, calls: nat, failed: bool, other: nat, failed': bool)
    requires Stops(env, calls, failed) && Stops(env, other, failed')
    ensures calls == other && failed == failed'
  {
    if calls < other {
      StopsFirst(env, calls, failed, other, failed');
    } else if other < calls {
      StopsFirst(env, other, failed', calls, failed);
    }
  }

  lemma StopsFirst(env: nat -> Try, calls: nat, failed: bool, other: nat, failed': bool)
    requires Stops(env, calls, failed) && Stops(env, other, failed')
    ensures other <= calls
  {
    if calls < other {
      if calls < other - 1 {
        RetriedBefore(env, other - 1, calls);
      }
      if calls > 0 {
        RetriedBefore(env, other - 1, calls - 1);
      }
    }
  }

  /** Send the same request until a reply, a permanent error, the end of the window, or the sixth call. */
  method SendSignedReport(env: nat -> Try) returns (accepted: bool, failed: bool, calls: nat, waits: seq<nat>)
    ensures Stops(env, calls, failed) && calls <= 6 && |waits| <= 5
    ensures calls == 0 ==> failed && !accepted && env(0).over
    ensures calls > 0 ==> Retried(env, calls - 1) && !env(calls - 1).over
    ensures calls > 0 ==> failed == !env(calls - 1).rpc.Replied? && accepted == Accepts(env(calls - 1).rpc)
    ensures failed && calls > 0 && MayRetry(env(calls - 1)) ==> calls == LAST_ATTEMPT + 1 || env(calls).over
    ensures accepted <==> Delivered(env)
    ensures accepted ==> calls > 0 && var reply := env(calls - 1).rpc; reply.Replied? && (reply.accepted || reply.recorded)
    ensures calls > 0 && !accepted ==> var reply := env(calls - 1).rpc; !(reply.Replied? && (reply.accepted || reply.recorded))
    ensures calls - 1 <= |waits| <= calls && Spaced(waits)
  {
    accepted, failed, calls, waits := false, false, 0, [];
    var delay := FIRST_DELAY;
    while true
      invariant calls <= LAST_ATTEMPT && |waits| == calls
      invariant delay == Backoff(calls)
      invariant Retried(env, calls)
      invariant Spaced(waits)
      decreases LAST_ATTEMPT - calls
    {
      var t := env(calls);
      if t.over {
        AcceptedIffDelivered(env, calls, false);
        return false, true, calls, waits;
      }
      calls := calls + 1;
      if t.rpc.Replied? {
        AcceptedIffDelivered(env, calls, Accepts(t.rpc));
        return t.rpc.accepted || t.rpc.recorded, false, calls, waits;
      }
      if t.overAfter || t.rpc.Permanent? || calls - 1 == LAST_ATTEMPT || t.jitter.None? {
        AcceptedIffDelivered(env, calls, false);
        return false, true, calls, waits;
      }
      var wait := Jittered(delay, t.jitter.value);
      if t.overWaiting {
        AcceptedIffDelivered(env, calls, false);
        return false, true, calls, waits;
      }
      SpacedThen(waits, wait);
      waits := waits + [wait];
      delay := if 2 * delay < MAX_DELAY then 2 * delay else MAX_DELAY;
    }
  }

  // ---- paths of the protocol ----

  ghost function PathEnd(a: Agent, steps: seq<Step>): Option<Agent>
    decreases |steps|
  {
    if steps == [] then Some(a)
    else if !Enabled(a, steps[0]) then None
    else PathEnd(Next(a, steps[0]), steps[1..])
  }

  lemma {:induction false} PathThen(a: Agent, steps: seq<Step>, b: Agent, s: Step)
    requires PathEnd(a, steps) == Some(b) && Enabled(b, s)
    ensures PathEnd(a, steps + [s]) == Some(Next(b, s))
    decreases |steps|
  {
    if steps == [] {
      assert (steps + [s])[1..] == [];
    } else {
      PathThen(Next(a, steps[0]), steps[1..], b, s);
      assert (steps + [s])[1..] == steps[1..] + [s];
    }
  }

  /** A path of the protocol continues a run of it: what every run promises, the methods below keep. */
  lemma {:induction false} PathExtendsRun(agents: seq<Agent>, steps: seq<Step>, more: seq<Step>)
    returns (agents': seq<Agent>)
    requires Run(agents, steps) && PathEnd(agents[|steps|], more).Some?
    ensures Run(agents', steps + more) && agents <= agents'
    ensures agents'[|steps + more|] == PathEnd(agents[|steps|], more).value
    decreases |more|
  {
    if more == [] {
      agents' := agents;
      assert steps + more == steps;
    } else {
      var longer := agents + [Next(agents[|steps|], more[0])];
      assert Run(longer, steps + [more[0]]);
      agents' := PathExtendsRun(longer, steps + [more[0]], more[1..]);
      assert steps + [more[0]] + more[1..] == steps + more;
    }
  }

  /** What the first `n` calls leave in the trace. */
  ghost function Attempts(o: Observation, env: nat -> Try, n: nat): seq<Action> {
    if n == 0 then [] else Attempts(o, env, n - 1) + Attempt(o, env(n - 1).rpc)
  }

  ghost function Attempt(o: Observation, rpc: Rpc): seq<Action> {
    [Sent(o)] + if Landed(rpc) then [Taken(o)] else []
  }

  ghost function Retries(env: nat -> Try, n: nat): (steps: seq<Step>)
    ensures Claim !in steps
  {
    if n == 0 then [] else Retries(env, n - 1) + [Send(Landed(env(n - 1).rpc), TryAgain)]
  }

  lemma {:induction false} RetriesPath(a: Agent, env: nat -> Try, n: nat)
    requires a.phase.Sending?
    ensures PathEnd(a, Retries(env, n)) == Some(a.(trace := a.trace + Attempts(a.phase.o, env, n)))
  {
    if n == 0 {
      assert a.trace + [] == a.trace;
    } else {
      RetriesPath(a, env, n - 1);
      var b := a.(trace := a.trace + Attempts(a.phase.o, env, n - 1));
      var s := Send(Landed(env(n - 1).rpc), TryAgain);
      PathThen(a, Retries(env, n - 1), b, s);
      assert Next(b, s).trace == a.trace + Attempts(a.phase.o, env, n);
    }
  }

  /** The steps of one sending loop. */
  ghost function SendSteps(env: nat -> Try, calls: nat, failed: bool): seq<Step>
    requires calls == 0 ==> failed
  {
    if failed then Retries(env, calls) + [GiveUp]
    else Retries(env, calls - 1) + [if Accepts(env(calls - 1).rpc) then Send(true, Accepted) else Send(false, NotAccepted)]
  }

  lemma SendStepsPath(a: Agent, env: nat -> Try, calls: nat, failed: bool)
    requires a.phase.Sending? && (calls == 0 ==> failed)
    requires !failed ==> env(calls - 1).rpc.Replied?
    ensures
      var accepted := !failed && Accepts(env(calls - 1).rpc);
      PathEnd(a, SendSteps(env, calls, failed)) ==
      Some(Agent(a.store, if accepted then Confirmed(a.phase.o) else Resting, a.trace + Attempts(a.phase.o, env, calls)))
  {
    var n := if failed then calls else calls - 1;
    RetriesPath(a, env, n);
    var b := a.(trace := a.trace + Attempts(a.phase.o, env, n));
    var s := if failed then GiveUp else if Accepts(env(n).rpc) then Send(true, Accepted) else Send(false, NotAccepted);
    PathThen(a, Retries(env, n), b, s);
    assert Next(b, s).trace == a.trace + Attempts(a.phase.o, env, calls);
  }

  // ---- the channel ----

  /** How the effects of one delivery turn out. `signed` is false when no receipt could be signed. */
  datatype Delivery = Delivery(put: Disk, signed: bool, env: nat -> Try, cleaned: bool, ack: Disk)

  /** The report is signed, delivered, and its host key, if it has one, cleared. */
  ghost predicate Completes(o: Observation, d: Delivery) {
    d.signed && Delivered(d.env) && (o.hostRenew.Some? ==> d.cleaned)
  }

  /** What a healthy store retains is sent and its removal made durable. */
  ghost predicate Recovers(s: Store, d: Delivery) {
    !s.fault && (s.pending.Some? ==> Completes(s.pending.value, d) && d.ack.Done?)
  }

  // ---- the steps a delivery takes ----

  ghost predicate SendsAs(d: Delivery, steps: seq<Step>) {
    if !d.signed then steps == [GiveUp]
    else exists calls: nat, failed :: Stops(d.env, calls, failed) && steps == SendSteps(d.env, calls, failed)
  }

  /** After an accepted report: clear its host key, then acknowledge it; neither without the one before. */
  ghost function Closing(o: Observation, d: Delivery): seq<Step> {
    if !d.signed || !Delivered(d.env) then []
    else if o.hostRenew.Some? && !d.cleaned then [CleanUp(false)]
    else [CleanUp(true), Confirm(d.ack)]
  }

  ghost predicate DeliversAs(o: Observation, d: Delivery, steps: seq<Step>) {
    exists sends: seq<Step> :: SendsAs(d, sends) && steps == sends + Closing(o, d)
  }

  /** Retain first; send only what is retained. */
  ghost predicate ReportsAs(s: Store, o: Observation, d: Delivery, steps: seq<Step>) {
    && |steps| > 0 && steps[0] == Report(o, d.put)
    && if Put(s, o, d.put).1.Ok? then DeliversAs(o, d, steps[1..]) else steps[1..] == []
  }

  ghost predicate RecoversAs(s: Store, d: Delivery, steps: seq<Step>) {
    if s.fault || s.pending.None? then steps == []
    else |steps| > 0 && steps[0] == Recover && DeliversAs(s.pending.value, d, steps[1..])
  }

  lemma SendsOnce(d: Delivery, steps: seq<Step>, others: seq<Step>)
    requires SendsAs(d, steps) && SendsAs(d, others)
    ensures steps == others
  {
    if d.signed {
      var calls: nat, failed :| Stops(d.env, calls, failed) && steps == SendSteps(d.env, calls, failed);
      var calls': nat, failed' :| Stops(d.env, calls', failed') && others == SendSteps(d.env, calls', failed');
      StopsOnce(d.env, calls, failed, calls', failed');
    }
  }

  lemma DeliversOnce(o: Observation, d: Delivery, steps: seq<Step>, others: seq<Step>)
    requires DeliversAs(o, d, steps) && DeliversAs(o, d, others)
    ensures steps == others
  {
    var sends :| SendsAs(d, sends) && steps == sends + Closing(o, d);
    var sends' :| SendsAs(d, sends') && others == sends' + Closing(o, d);
    SendsOnce(d, sends, sends');
  }

  /** The effects settle what a report or a recovery does, step by step. */
  lemma DeliveryIsSettled(s: Store, o: Observation, d: Delivery, steps: seq<Step>, others: seq<Step>)
    ensures ReportsAs(s, o, d, steps) && ReportsAs(s, o, d, others) ==> steps == others
    ensures RecoversAs(s, d, steps) && RecoversAs(s, d, others) ==> steps == others
  {
    if ReportsAs(s, o, d, steps) && ReportsAs(s, o, d, others) {
      if Put(s, o, d.put).1.Ok? {
        DeliversOnce(o, d, steps[1..], others[1..]);
      }
      assert steps == [steps[0]] + steps[1..] && others == [others[0]] + others[1..];
    }
    if RecoversAs(s, d, steps) && RecoversAs(s, d, others) && !s.fault && s.pending.Some? {
      DeliversOnce(s.pending.value, d, steps[1..], others[1..]);
      assert steps == [steps[0]] + steps[1..] && others == [others[0]] + others[1..];
    }
  }

  class Channel {
    var store: Store
    ghost var trace: seq<Action>

    constructor ()
      ensures Value(Resting) == FRESH
    {
      store, trace := Store(None, false), [];
    }

    ghost function Value(phase: Phase): Agent
      reads this
    {
      Agent(store, phase, trace)
    }

    /** Sign and send one observation; the phase after it. */
    method Transmit(o: Observation, d: Delivery) returns (accepted: bool, ghost steps: seq<Step>)
      modifies this`trace
      ensures PathEnd(old(Value(Sending(o))), steps) == Some(Value(if accepted then Confirmed(o) else Resting))
      ensures accepted <==> d.signed && Delivered(d.env)
      ensures SendsAs(d, steps) && Claim !in steps
    {
      ghost var a := Value(Sending(o));
      if !d.signed {
        steps := [GiveUp];
        PathThen(a, [], a, GiveUp);
        assert [] + [GiveUp] == [GiveUp];
        return false, steps;
      }
      var failed, calls, waits;
      accepted, failed, calls, waits := SendSignedReport(d.env);
      SendStepsPath(a, d.env, calls, failed);
      assert Claim !in Retries(d.env, calls);
      trace := trace + Attempts(o, d.env, calls);
      steps := SendSteps(d.env, calls, failed);
    }

    /** Send a retained observation and, once it is accepted, clear its host key and acknowledge it. */
    method SendObservation(o: Observation, d: Delivery) returns (accepted: bool, ghost steps: seq<Step>)
      modifies this
      ensures PathEnd(old(Value(Sending(o))), steps) == Some(Value(Resting))
      ensures DeliversAs(o, d, steps) && Claim !in steps
      ensures accepted <==>
              && Completes(o, d) && !old(store).fault
              && (old(store).pending.Some? ==> Same(old(store).pending.value, o) && d.ack.Done?)
      ensures accepted ==> !store.fault && store.pending.None?
    {
      ghost var a := Value(Sending(o));
      accepted, steps := Transmit(o, d);
      ghost var sends := steps;
      if !accepted {
        assert steps == sends + Closing(o, d);
        return;
      }
      ghost var b := Value(Confirmed(o));
      if o.hostRenew.Some? {
        if !d.cleaned {
          PathThen(a, steps, b, CleanUp(false));
          return false, steps + [CleanUp(false)];
        }
        trace := trace + [Cleared(o)];
      }
      PathThen(a, steps, b, CleanUp(true));
      steps := steps + [CleanUp(true)];
      ghost var c := Value(Cleaned(o));
      accepted := AcknowledgeReport(o, d.ack);
      PathThen(a, steps, c, Confirm(d.ack));
      steps := steps + [Confirm(d.ack)];
      assert steps == sends + Closing(o, d);
    }

    method AcknowledgeReport(o: Observation, disk: Disk) returns (ok: bool)
      modifies this
      ensures Value(Resting) == ConfirmedOnDisk(old(Value(Cleaned(o))), disk)
      ensures ok <==> !old(store).fault && (old(store).pending.Some? ==> Same(old(store).pending.value, o) && disk.Done?)
      ensures ok ==> !store.fault && store.pending.None?
    {
      if store.fault {
        assert trace + [] == trace;
        return false;
      }
      if store.pending.None? {
        assert trace + [] == trace;
        return true;
      }
      if !Same(store.pending.value, o) || disk.NotDone? {
        assert trace + [] == trace;
        return false;
      }
      if disk.Done? || disk.landed {
        store := store.(pending := None);
        trace := trace + [Acked(o)];
      } else {
        assert trace + [] == trace;
      }
      if disk.Unsynced? {
        store := store.(fault := true);
      }
      ok := disk.Done?;
    }

    method PutReport(o: Observation, disk: Disk) returns (ok: bool)
      modifies this
      ensures Value(if ok then Sending(o) else Resting) == Reported(old(Value(Resting)), o, disk)
      ensures ok <==>
              && !old(store).fault && Retainable(o)
              && if old(store).pending.Some? then Same(old(store).pending.value, o) else disk.Done?
      ensures ok ==> !store.fault && store.pending.Some? && Same(store.pending.value, o)
    {
      assert trace + [] == trace;
      if store.fault {
        return false;
      }
      if !Retainable(o) || (store.pending.Some? && !Same(store.pending.value, o)) {
        store := store.(fault := true);
        return false;
      }
      if store.pending.Some? {
        return true;
      }
      if disk.Done? || (disk.Unsynced? && disk.landed) {
        store := store.(pending := Some(o));
        trace := trace + [Stored(o)];
      }
      if !disk.Done? {
        store := store.(fault := true);
      }
      ok := disk.Done?;
    }

    /** Retain a terminal report, then send it. Nothing is sent unless it is retained. */
    method RetainAndSendReport(o: Observation, d: Delivery) returns (accepted: bool, ghost steps: seq<Step>)
      modifies this
      ensures PathEnd(old(Value(Resting)), steps) == Some(Value(Resting)) && ReportsAs(old(store), o, d, steps)
      ensures accepted <==>
              && !old(store).fault && Retainable(o) && Completes(o, d) && d.ack.Done?
              && if old(store).pending.Some? then Same(old(store).pending.value, o) else d.put.Done?
      ensures accepted ==> !store.fault && store.pending.None?
    {
      ghost var a := Value(Resting);
      var kept := PutReport(o, d.put);
      if !kept {
        PathThen(a, [], a, Report(o, d.put));
        return false, [] + [Report(o, d.put)];
      }
      ghost var rest;
      accepted, rest := SendObservation(o, d);
      steps := [Report(o, d.put)] + rest;
      assert steps[1..] == rest;
    }

    /** Deliver what a previous process left behind. */
    method RecoverPendingReport(d: Delivery) returns (ok: bool, ghost steps: seq<Step>)
      modifies this
      ensures PathEnd(old(Value(Resting)), steps) == Some(Value(Resting))
      ensures RecoversAs(old(store), d, steps) && Claim !in steps
      ensures ok <==> Recovers(old(store), d)
      ensures ok ==> !store.fault && store.pending.None?
    {
      if store.fault {
        return false, [];
      }
      if store.pending.None? {
        return true, [];
      }
      ghost var rest;
      ok, rest := SendObservation(store.pending.value, d);
      steps := [Recover] + rest;
      assert steps[1..] == rest;
    }

    /** Claim work, once recovery has left nothing outstanding. */
    method ClaimJobs(d: Delivery) returns (claimed: bool, ghost steps: seq<Step>)
      modifies this
      ensures PathEnd(old(Value(Resting)), steps) == Some(Value(Resting))
      ensures claimed <==> Claim in steps
      ensures RecoversAs(old(store), d, if claimed then steps[..|steps| - 1] else steps)
      ensures claimed <==> Recovers(old(store), d)
    {
      ghost var start := Value(Resting);
      claimed, steps := RecoverPendingReport(d);
      if claimed {
        ghost var mid := Value(Resting);
        trace := trace + [Claimed];
        PathThen(start, steps, mid, Claim);
        assert (steps + [Claim])[..|steps|] == steps;
        steps := steps + [Claim];
      }
    }
  }
}
