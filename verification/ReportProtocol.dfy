/**
 Terminal job reports: retained durably before they are sent, re-sent after a restart, and
 acknowledged before more work is claimed.

 The agent has one sequential worker. A crash may fall between any two effects; only the pending
 report and the host-key slots survive it.
 */
module ReportProtocol {
  import opened Options

  datatype Outcome = Executed | VerifiedOutcome | VerifyFailed | FailedOutcome

  datatype Cleanup = Cleanup(connector: string, target: string, binding: string)

  /** The original execution facts. `adopted` is the predecessor a first deploy found installed. */
  datatype Observation = Observation(
    job: int, attempt: int, outcome: Outcome, detail: string, evidence: string,
    fingerprint: string, custody: Option<string>, hostRenew: Option<Cleanup>, adopted: string)

  /** The comparison the store makes between a retained report and another: every field but `adopted`. */
  predicate Same(a: Observation, b: Observation) {
    && a.job == b.job && a.attempt == b.attempt && a.outcome == b.outcome && a.detail == b.detail
    && a.evidence == b.evidence && a.fingerprint == b.fingerprint && a.custody == b.custody && a.hostRenew == b.hostRenew
  }

  predicate Retainable(o: Observation) {
    && 0 < o.job && 0 < o.attempt
    && (o.hostRenew.Some? ==>
          && (o.outcome.VerifiedOutcome? || o.outcome.Executed?) && o.custody.Some? && o.fingerprint != ""
          && o.hostRenew.value.connector != "" && o.hostRenew.value.target != "" && |o.hostRenew.value.binding| == 64)
  }

  // ---- the one-slot store ----

  /** How a durable write or removal ended. `Unsynced` is a reported failure whose effect may have landed. */
  datatype Disk = Done | NotDone | Unsynced(landed: bool)

  datatype Store = Store(pending: Option<Observation>, fault: bool)

  datatype StoreResult = Ok | Refused

  /** Retain a report. A different pending report, or a write that is not known to be durable, latches a fault. */
  function Put(s: Store, o: Observation, disk: Disk): (Store, StoreResult) {
    if s.fault then (s, Refused)
    else if !Retainable(o) then (s.(fault := true), Refused)
    else if s.pending.Some? then if Same(s.pending.value, o) then (s, Ok) else (s.(fault := true), Refused)
    else match disk
      case Done => (s.(pending := Some(o)), Ok)
      case NotDone => (s.(fault := true), Refused)
      case Unsynced(landed) => (Store(if landed then Some(o) else None, true), Refused)
  }

  /** Drop the retained report if it is the one that was sent. */
  function Acknowledge(s: Store, o: Observation, disk: Disk): (Store, StoreResult) {
    if s.fault then (s, Refused)
    else if s.pending.None? then (s, Ok)
    else if !Same(s.pending.value, o) then (s, Refused)
    else match disk
      case Done => (s.(pending := None), Ok)
      case NotDone => (s, Refused)
      case Unsynced(landed) => (Store(if landed then None else s.pending, true), Refused)
  }

  // ---- the agent ----

  datatype Action =
    | Stored(o: Observation)
    | Sent(o: Observation)
    | Taken(o: Observation)
    | Cleared(o: Observation)
    | Acked(o: Observation)
    | Claimed

  datatype Phase = Resting | Sending(o: Observation) | Confirmed(o: Observation) | Cleaned(o: Observation)

  datatype Agent = Agent(store: Store, phase: Phase, trace: seq<Action>)

  const FRESH := Agent(Store(None, false), Resting, [])

  datatype Reply = Accepted | NotAccepted | TryAgain

  datatype Step =
    | Report(o: Observation, disk: Disk)
    | Recover
    | Send(taken: bool, reply: Reply)
    | GiveUp
    | CleanUp(ok: bool)
    | Confirm(disk: Disk)
    | Claim
    | Crash

  predicate Enabled(a: Agent, s: Step) {
    match s
    case Report(_, _) => a.phase.Resting?
    case Recover => a.phase.Resting? && !a.store.fault && a.store.pending.Some?
    case Send(taken, reply) => a.phase.Sending? && (reply.Accepted? ==> taken)
    case GiveUp => a.phase.Sending?
    case CleanUp(_) => a.phase.Confirmed?
    case Confirm(_) => a.phase.Cleaned?
    case Claim => a.phase.Resting? && !a.store.fault && a.store.pending.None?
    case Crash => true
  }

  function Reported(a: Agent, o: Observation, disk: Disk): Agent {
    var (store, r) := Put(a.store, o, disk);
    var wrote := a.store.pending.None? && store.pending.Some?;
    Agent(store, if r.Ok? then Sending(o) else Resting, a.trace + if wrote then [Stored(o)] else [])
  }

  function SentOnce(a: Agent, taken: bool, reply: Reply): Agent
    requires a.phase.Sending?
  {
    var o := a.phase.o;
    a.(trace := a.trace + [Sent(o)] + (if taken then [Taken(o)] else []),
       phase := match reply case Accepted => Confirmed(o) case NotAccepted => Resting case TryAgain => a.phase)
  }

  function CleanedUp(a: Agent, ok: bool): Agent
    requires a.phase.Confirmed?
  {
    var o := a.phase.o;
    if o.hostRenew.None? then a.(phase := Cleaned(o))
    else if ok then a.(phase := Cleaned(o), trace := a.trace + [Cleared(o)])
    else a.(phase := Resting)
  }

  function ConfirmedOnDisk(a: Agent, disk: Disk): Agent
    requires a.phase.Cleaned?
  {
    var (store, r) := Acknowledge(a.store, a.phase.o, disk);
    var dropped := a.store.pending.Some? && store.pending.None?;
    Agent(store, Resting, a.trace + if dropped then [Acked(a.phase.o)] else [])
  }

  function Next(a: Agent, s: Step): Agent
    requires Enabled(a, s)
  {
    match s
    case Report(o, disk) => Reported(a, o, disk)
    case Recover => a.(phase := Sending(a.store.pending.value))
    case Send(taken, reply) => SentOnce(a, taken, reply)
    case GiveUp => a.(phase := Resting)
    case CleanUp(ok) => CleanedUp(a, ok)
    case Confirm(disk) => ConfirmedOnDisk(a, disk)
    case Claim => a.(trace := a.trace + [Claimed])
    case Crash => a.(store := a.store.(fault := false), phase := Resting)
  }

  ghost predicate Run(agents: seq<Agent>, steps: seq<Step>) {
    && |agents| == |steps| + 1 && agents[0] == FRESH
    && forall i | 0 <= i < |steps| :: Enabled(agents[i], steps[i]) && agents[i + 1] == Next(agents[i], steps[i])
  }

  // ---- reading the trace ----

  /** The report stored and not yet acknowledged after a trace. */
  function Outstanding(trace: seq<Action>): Option<Observation> {
    if trace == [] then None
    else match trace[|trace| - 1]
      case Stored(o) => Some(o)
      case Acked(_) => None
      case _ => Outstanding(trace[..|trace| - 1])
  }

  /** At each position: a claim meets no outstanding report; what is sent is outstanding, up to its adopted
      predecessor; and an acknowledgement follows the server's acceptance and the host-key cleanup. */
  ghost predicate StepOk(trace: seq<Action>, i: nat)
    requires i < |trace|
  {
    var before := trace[..i];
    match trace[i]
    case Claimed => Outstanding(before).None?
    case Sent(o) => Outstanding(before).Some? && Same(Outstanding(before).value, o)
    case Acked(o) =>
      && Outstanding(before).Some? && Same(Outstanding(before).value, o)
      && Taken(o) in before && (o.hostRenew.Some? ==> Cleared(o) in before)
    case Stored(_) => Outstanding(before).None?
    case _ => true
  }

  ghost predicate TraceOk(trace: seq<Action>) {
    forall i: nat | i < |trace| :: StepOk(trace, i)
  }

  ghost predicate Good(a: Agent) {
    && TraceOk(a.trace)
    && a.store.pending == Outstanding(a.trace)
    && (!a.phase.Resting? ==> !a.store.fault && a.store.pending.Some? && Same(a.store.pending.value, a.phase.o))
    && (a.phase.Confirmed? || a.phase.Cleaned? ==> Taken(a.phase.o) in a.trace)
    && (a.phase.Cleaned? && a.phase.o.hostRenew.Some? ==> Cleared(a.phase.o) in a.trace)
  }

  lemma TraceExtends(trace: seq<Action>, x: Action)
    requires TraceOk(trace) && StepOk(trace + [x], |trace|)
    ensures TraceOk(trace + [x])
  {
    forall i: nat | i < |trace + [x]|
      ensures StepOk(trace + [x], i)
    {
      if i < |trace| {
        assert (trace + [x])[..i] == trace[..i];
        assert StepOk(trace, i);
      }
    }
  }

  lemma OutstandingAfter(trace: seq<Action>, x: Action)
    ensures Outstanding(trace + [x]) ==
            match x
            case Stored(o) => Some(o)
            case Acked(_) => None
            case _ => Outstanding(trace)
  {
    assert (trace + [x])[..|trace|] == trace;
  }

  lemma GoodReport(a: Agent, o: Observation, disk: Disk)
    requires Good(a) && a.phase.Resting?
    ensures Good(Reported(a, o, disk))
  {
    var a' := Reported(a, o, disk);
    if a'.trace != a.trace {
      assert (a.trace + [Stored(o)])[..|a.trace|] == a.trace;
      TraceExtends(a.trace, Stored(o));
      OutstandingAfter(a.trace, Stored(o));
    } else {
      assert a.trace + [] == a.trace;
    }
  }

  lemma GoodSend(a: Agent, taken: bool, reply: Reply)
    requires Good(a) && Enabled(a, Send(taken, reply))
    ensures Good(SentOnce(a, taken, reply))
  {
    var o := a.phase.o;
    var sent := a.trace + [Sent(o)];
    assert sent[..|a.trace|] == a.trace;
    TraceExtends(a.trace, Sent(o));
    OutstandingAfter(a.trace, Sent(o));
    if taken {
      TraceExtends(sent, Taken(o));
      OutstandingAfter(sent, Taken(o));
    } else {
      assert sent + [] == sent;
    }
  }

  lemma GoodCleanUp(a: Agent, ok: bool)
    requires Good(a) && a.phase.Confirmed?
    ensures Good(CleanedUp(a, ok))
  {
    var o := a.phase.o;
    TraceExtends(a.trace, Cleared(o));
    OutstandingAfter(a.trace, Cleared(o));
  }

  lemma GoodConfirm(a: Agent, disk: Disk)
    requires Good(a) && a.phase.Cleaned?
    ensures Good(ConfirmedOnDisk(a, disk))
  {
    var a' := ConfirmedOnDisk(a, disk);
    if a'.trace != a.trace {
      assert (a.trace + [Acked(a.phase.o)])[..|a.trace|] == a.trace;
      TraceExtends(a.trace, Acked(a.phase.o));
      OutstandingAfter(a.trace, Acked(a.phase.o));
    } else {
      assert a.trace + [] == a.trace;
    }
  }

  lemma GoodStep(a: Agent, s: Step)
    requires Good(a) && Enabled(a, s)
    ensures Good(Next(a, s))
  {
    match s
    case Report(o, disk) => GoodReport(a, o, disk);
    case Recover =>
    case Send(taken, reply) => GoodSend(a, taken, reply);
    case GiveUp =>
    case CleanUp(ok) => GoodCleanUp(a, ok);
    case Confirm(disk) => GoodConfirm(a, disk);
    case Claim =>
      assert (a.trace + [Claimed])[..|a.trace|] == a.trace;
      TraceExtends(a.trace, Claimed);
      OutstandingAfter(a.trace, Claimed);
    case Crash =>
  }

  lemma {:induction false} GoodThroughout(agents: seq<Agent>, steps: seq<Step>, n: nat)
    requires Run(agents, steps) && n < |agents|
    ensures Good(agents[n])
    decreases n
  {
    if n > 0 {
      GoodThroughout(agents, steps, n - 1);
      GoodStep(agents[n - 1], steps[n - 1]);
    }
  }

  // ---- the promises ----

  lemma {:induction false} OutstandingUntilAcked(trace: seq<Action>, j: nat, m: nat)
    requires TraceOk(trace) && j < m <= |trace| && trace[j].Stored?
    ensures
      || Outstanding(trace[..m]) == Some(trace[j].o)
      || exists k :: j < k < m && trace[k].Acked? && Same(trace[j].o, trace[k].o)
    decreases m
  {
    assert trace[..m] == trace[..m - 1] + [trace[m - 1]];
    OutstandingAfter(trace[..m - 1], trace[m - 1]);
    assert StepOk(trace, m - 1);
    if j < m - 1 {
      OutstandingUntilAcked(trace, j, m - 1);
    }
  }

  /** Whenever work is claimed, every report stored before it has been acknowledged in between. */
  lemma ReportBeforeClaim(agents: seq<Agent>, steps: seq<Step>, n: nat, j: nat, i: nat)
    requires Run(agents, steps) && n < |agents|
    requires j < i < |agents[n].trace| && agents[n].trace[i] == Claimed && agents[n].trace[j].Stored?
    ensures exists k :: j < k < i && agents[n].trace[k].Acked? && Same(agents[n].trace[j].o, agents[n].trace[k].o)
  {
    GoodThroughout(agents, steps, n);
    var trace := agents[n].trace;
    assert StepOk(trace, i);
    OutstandingUntilAcked(trace, j, i);
  }

  lemma {:induction false} OutstandingWasStored(trace: seq<Action>)
    requires Outstanding(trace).Some?
    ensures exists j :: 0 <= j < |trace| && trace[j] == Stored(Outstanding(trace).value)
                        && forall k | j < k < |trace| :: !trace[k].Acked?
  {
    var n := |trace| - 1;
    if trace[n].Stored? {
      assert trace[n] == Stored(Outstanding(trace).value);
    } else {
      OutstandingWasStored(trace[..n]);
      var j :| 0 <= j < n && trace[..n][j] == Stored(Outstanding(trace[..n]).value) && forall k | j < k < n :: !trace[..n][k].Acked?;
      assert trace[j] == trace[..n][j];
      forall k | j < k < |trace|
        ensures !trace[k].Acked?
      {
        if k < n { assert trace[..n][k] == trace[k]; }
      }
    }
  }

  /** Every report sent was stored first, with the same job, attempt and facts, and not yet acknowledged. */
  lemma StoredBeforeSent(agents: seq<Agent>, steps: seq<Step>, n: nat, i: nat)
    requires Run(agents, steps) && n < |agents| && i < |agents[n].trace| && agents[n].trace[i].Sent?
    ensures exists j :: 0 <= j < i && agents[n].trace[j].Stored? && Same(agents[n].trace[j].o, agents[n].trace[i].o)
                        && forall k | j < k < i :: !agents[n].trace[k].Acked?
  {
    GoodThroughout(agents, steps, n);
    var trace := agents[n].trace;
    assert StepOk(trace, i);
    OutstandingWasStored(trace[..i]);
    var j :| 0 <= j < i && trace[..i][j] == Stored(Outstanding(trace[..i]).value) && forall k | j < k < i :: !trace[..i][k].Acked?;
    assert trace[j] == trace[..i][j];
    forall k | j < k < i
      ensures !trace[k].Acked?
    {
      assert trace[..i][k] == trace[k];
    }
  }

  /** An acknowledgement means the server had taken that very report and its host key was cleaned up. */
  lemma AcknowledgedMeansAccepted(agents: seq<Agent>, steps: seq<Step>, n: nat, i: nat)
    requires Run(agents, steps) && n < |agents| && i < |agents[n].trace| && agents[n].trace[i].Acked?
    ensures
      var o := agents[n].trace[i].o;
      Taken(o) in agents[n].trace[..i] && (o.hostRenew.Some? ==> Cleared(o) in agents[n].trace[..i])
  {
    GoodThroughout(agents, steps, n);
    assert StepOk(agents[n].trace, i);
  }

  // ---- a latched fault ----

  /** What latches a fault: a report that may not be retained, one that is not the report retained, or a write or
      removal not known to be durable. A removal known not to have happened is no fault. */
  lemma FaultIff(s: Store, o: Observation, disk: Disk)
    ensures Put(s, o, disk).0.fault <==>
            || s.fault || !Retainable(o)
            || (if s.pending.Some? then !Same(s.pending.value, o) else !disk.Done?)
    ensures Acknowledge(s, o, disk).0.fault <==>
            s.fault || (s.pending.Some? && Same(s.pending.value, o) && disk.Unsynced?)
  {
  }

  lemma FaultHolds(a: Agent, s: Step)
    requires Good(a) && Enabled(a, s) && a.store.fault
    ensures !s.Crash? ==> Next(a, s) == a
    ensures s.Crash? ==> !Next(a, s).store.fault && Next(a, s).store.pending == a.store.pending
  {
    assert a.trace + [] == a.trace;
  }

  /** Over any run: from a latched fault until the process restarts nothing is stored, sent, acknowledged or claimed;
      and the restart lifts the fault and keeps the report. */
  lemma {:induction false} FaultLastsUntilRestart(agents: seq<Agent>, steps: seq<Step>, a: nat, b: nat)
    requires Run(agents, steps) && a <= b < |agents| && agents[a].store.fault
    requires forall i | a <= i < b :: !steps[i].Crash?
    ensures agents[b] == agents[a]
    ensures b < |steps| && steps[b].Crash? ==> !agents[b + 1].store.fault && agents[b + 1].store.pending == agents[a].store.pending
    decreases b
  {
    if a < b {
      FaultLastsUntilRestart(agents, steps, a, b - 1);
      GoodThroughout(agents, steps, b - 1);
      FaultHolds(agents[b - 1], steps[b - 1]);
    }
    if b < |steps| {
      GoodThroughout(agents, steps, b);
      FaultHolds(agents[b], steps[b]);
    }
  }

  /** What is retained names a job and an attempt; and one that asks for a host key to be cleared is of a renewal that
      was carried out, with its custody, fingerprint, connector, target and binding. */
  ghost predicate WellFormed(o: Observation) {
    && o.job >= 1 && o.attempt >= 1
    && (o.hostRenew.Some? ==>
          && o.outcome in {Executed, VerifiedOutcome} && o.custody != None && |o.fingerprint| > 0
          && |o.hostRenew.value.connector| > 0 && |o.hostRenew.value.target| > 0 && |o.hostRenew.value.binding| == 64)
  }

  ghost predicate StoredWellFormed(trace: seq<Action>) {
    forall i | 0 <= i < |trace| && trace[i].Stored? :: WellFormed(trace[i].o)
  }

  /** Over any run every report stored is well formed. */
  lemma {:induction false} StoredIsWellFormed(agents: seq<Agent>, steps: seq<Step>, n: nat)
    requires Run(agents, steps) && n < |agents|
    ensures StoredWellFormed(agents[n].trace)
    decreases n
  {
    if n > 0 {
      StoredIsWellFormed(agents, steps, n - 1);
      StoresWellFormed(agents[n - 1], steps[n - 1]);
    }
  }

  lemma StoresWellFormed(a: Agent, s: Step)
    requires Enabled(a, s) && StoredWellFormed(a.trace)
    ensures StoredWellFormed(Next(a, s).trace)
  {
  }

  // ---- when the report sent is the one stored ----

  /** A report accepted because the same one is retained, although it names another adopted predecessor. */
  predicate Switches(a: Agent, s: Step) {
    && s.Report? && !a.store.fault && Retainable(s.o) && a.store.pending.Some?
    && Same(a.store.pending.value, s.o) && s.o.adopted != a.store.pending.value.adopted
  }

  ghost predicate SwitchSent(agents: seq<Agent>, steps: seq<Step>, m: nat)
    requires m + 1 < |steps| && |steps| < |agents|
  {
    Switches(agents[m], steps[m]) && steps[m + 1].Send?
  }

  /** No such report among the first `n` steps was then sent. */
  ghost predicate NoSwitchSent(agents: seq<Agent>, steps: seq<Step>, n: nat)
    requires n <= |steps| && |steps| < |agents|
  {
    forall m: nat | m + 1 < n :: !SwitchSent(agents, steps, m)
  }

  ghost predicate SentExactly(trace: seq<Action>) {
    forall i: nat | i < |trace| && trace[i].Sent? :: Outstanding(trace[..i]) == Some(trace[i].o)
  }

  /** What the agent is at work on is not what it retains. */
  predicate Off(a: Agent) {
    !a.phase.Resting? && a.store.pending != Some(a.phase.o)
  }

  lemma SentExtends(trace: seq<Action>, more: seq<Action>)
    requires forall k | 0 < k < |more| :: !more[k].Sent?
    ensures SentExactly(trace + more) <==>
            SentExactly(trace) && (more != [] && more[0].Sent? ==> Outstanding(trace) == Some(more[0].o))
  {
    var all := trace + more;
    assert forall i: nat | i < |trace| :: all[i] == trace[i] && all[..i] == trace[..i];
    assert all[..|trace|] == trace;
    forall i: nat | |trace| < i < |all|
      ensures !all[i].Sent?
    {
      assert all[i] == more[i - |trace|];
    }
    if more != [] {
      assert all[|trace|] == more[0];
    }
  }

  /** One step: a send is exact if and only if the agent is not off, and only such a report puts it off. */
  lemma ExactStep(a: Agent, s: Step)
    requires Good(a) && Enabled(a, s)
    ensures SentExactly(Next(a, s).trace) <==> SentExactly(a.trace) && !(s.Send? && Off(a))
    ensures Switches(a, s) ==> Off(Next(a, s)) && Next(a, s).phase.Sending?
    ensures !Switches(a, s) && !Off(a) ==> !Off(Next(a, s))
    ensures Off(a) && a.phase.Sending? && !s.Send? ==> !Off(Next(a, s))
  {
    var a' := Next(a, s);
    var more := a'.trace[|a.trace|..];
    assert a'.trace == a.trace + more;
    SentExtends(a.trace, more);
  }

  /** Off, if at all, right after such a report, while nothing inexact has been sent. */
  ghost predicate OffAfterSwitch(agents: seq<Agent>, steps: seq<Step>, n: nat)
    requires n <= |steps| < |agents|
  {
    Off(agents[n]) <==> n > 0 && Switches(agents[n - 1], steps[n - 1]) && agents[n].phase.Sending?
  }

  lemma NoSwitchSentNext(agents: seq<Agent>, steps: seq<Step>, n: nat)
    requires n < |steps| < |agents|
    ensures NoSwitchSent(agents, steps, n + 1) <==> NoSwitchSent(agents, steps, n) && (n > 0 ==> !SwitchSent(agents, steps, n - 1))
  {
  }

  /** In every run, each report sent is exactly the one outstanding if and only if no report that names another
      predecessor than the one retained is directly followed by a send. */
  lemma {:induction false} SentExactlyIff(agents: seq<Agent>, steps: seq<Step>, n: nat)
    requires Run(agents, steps) && n < |agents|
    ensures SentExactly(agents[n].trace) <==> NoSwitchSent(agents, steps, n)
    ensures SentExactly(agents[n].trace) ==> OffAfterSwitch(agents, steps, n)
    decreases n
  {
    if n > 0 {
      SentExactlyIff(agents, steps, n - 1);
      GoodThroughout(agents, steps, n - 1);
      ExactStep(agents[n - 1], steps[n - 1]);
      NoSwitchSentNext(agents, steps, n - 1);
      if n > 1 && Switches(agents[n - 2], steps[n - 2]) {
        GoodThroughout(agents, steps, n - 2);
        ExactStep(agents[n - 2], steps[n - 2]);
      }
    }
  }

  /** So in a run without one, what is sent is exactly what was stored. */
  lemma SentAsStored(agents: seq<Agent>, steps: seq<Step>, n: nat, i: nat)
    requires Run(agents, steps) && n < |agents| && NoSwitchSent(agents, steps, n)
    requires i < |agents[n].trace| && agents[n].trace[i].Sent?
    ensures Stored(agents[n].trace[i].o) in agents[n].trace[..i]
  {
    SentExactlyIff(agents, steps, n);
    OutstandingWasStored(agents[n].trace[..i]);
  }

  // ---- after a crash ----

  /** At `y` report `o`, outstanding, is sent: the same job, attempt and facts. */
  ghost predicate SendsAt(trace: seq<Action>, y: nat, o: Observation) {
    y < |trace| && trace[y].Sent? && Same(o, trace[y].o) && Outstanding(trace[..y]) == Some(o)
  }

  ghost predicate SentSince(trace: seq<Action>, base: nat, n: nat, o: Observation)
    requires n <= |trace|
  {
    exists y: nat :: base <= y < n && SendsAt(trace, y, o)
  }

  /** Since `base`, work was claimed only after the report was sent again. */
  ghost predicate ClaimsWaited(trace: seq<Action>, base: nat, o: Observation) {
    forall x | base <= x < |trace| && trace[x] == Claimed :: SentSince(trace, base, x, o)
  }

  /** The report is still outstanding, or has been sent since. */
  ghost predicate Recovering(a: Agent, base: nat, o: Observation) {
    && ClaimsWaited(a.trace, base, o)
    && (|| SentSince(a.trace, base, |a.trace|, o)
        || (Outstanding(a.trace) == Some(o) && (a.phase.Resting? || a.phase.Sending?)))
  }

  lemma StillSent(trace: seq<Action>, more: seq<Action>, base: nat, n: nat, o: Observation)
    requires n <= |trace| && SentSince(trace, base, n, o)
    ensures SentSince(trace + more, base, n, o)
  {
    var y: nat :| base <= y < n && SendsAt(trace, y, o);
    assert (trace + more)[..y] == trace[..y];
    assert SendsAt(trace + more, y, o);
  }

  lemma ClaimsStillWaited(trace: seq<Action>, more: seq<Action>, base: nat, o: Observation)
    requires ClaimsWaited(trace, base, o)
    requires Claimed in more ==> |more| == 1 && SentSince(trace, base, |trace|, o)
    ensures ClaimsWaited(trace + more, base, o)
  {
    forall x | base <= x < |trace + more| && (trace + more)[x] == Claimed
      ensures SentSince(trace + more, base, x, o)
    {
      if x < |trace| {
        StillSent(trace, more, base, x, o);
      } else {
        assert more[x - |trace|] == Claimed;
        StillSent(trace, more, base, |trace|, o);
      }
    }
  }

  lemma RecoveringStep(a: Agent, s: Step, base: nat, o: Observation)
    requires Good(a) && Recovering(a, base, o) && Enabled(a, s) && base <= |a.trace|
    ensures Recovering(Next(a, s), base, o) && base <= |Next(a, s).trace|
  {
    var a' := Next(a, s);
    var more := a'.trace[|a.trace|..];
    assert a'.trace == a.trace + more;
    ClaimsStillWaited(a.trace, more, base, o);
    if SentSince(a.trace, base, |a.trace|, o) {
      StillSent(a.trace, more, base, |a.trace|, o);
    } else if s.Send? {
      assert a'.trace[..|a.trace|] == a.trace;
      assert SendsAt(a'.trace, |a.trace|, o);
    } else {
      assert a'.trace == a.trace;
    }
  }

  lemma {:induction false} RecoveringThroughout(agents: seq<Agent>, steps: seq<Step>, c: nat, n: nat, o: Observation)
    requires Run(agents, steps) && c < n < |agents| && steps[c].Crash? && Outstanding(agents[c].trace) == Some(o)
    ensures Recovering(agents[n], |agents[c].trace|, o) && |agents[c].trace| <= |agents[n].trace|
    decreases n
  {
    GoodThroughout(agents, steps, n - 1);
    if n > c + 1 {
      RecoveringThroughout(agents, steps, c, n - 1, o);
      RecoveringStep(agents[n - 1], steps[n - 1], |agents[c].trace|, o);
    }
  }

  /** A crash loses no stored report: whatever follows, before work is claimed again the report outstanding at the
      crash is sent again, with the same job, attempt and facts; and it is the very report stored, if no report that
      names another predecessor is sent. */
  lemma RecoverySendsStored(agents: seq<Agent>, steps: seq<Step>, c: nat, n: nat, o: Observation, x: nat)
    requires Run(agents, steps) && c < n < |agents| && steps[c].Crash? && Outstanding(agents[c].trace) == Some(o)
    requires |agents[c].trace| <= x < |agents[n].trace| && agents[n].trace[x] == Claimed
    ensures exists y: nat :: |agents[c].trace| <= y < x && agents[n].trace[y].Sent? && Same(o, agents[n].trace[y].o)
    ensures NoSwitchSent(agents, steps, n) ==> exists y: nat :: |agents[c].trace| <= y < x && agents[n].trace[y] == Sent(o)
  {
    RecoveringThroughout(agents, steps, c, n, o);
    var trace, base := agents[n].trace, |agents[c].trace|;
    assert SentSince(trace, base, x, o);
    var y: nat :| base <= y < x && SendsAt(trace, y, o);
    assert trace[y].Sent? && Same(o, trace[y].o);
    if NoSwitchSent(agents, steps, n) {
      SentExactlyIff(agents, steps, n);
      assert trace[y] == Sent(o);
    }
  }

  // ---- when it is not ----

  lemma ResendSteps(o: Observation, o': Observation)
    requires Retainable(o) && Same(o, o') && Retainable(o')
    ensures Next(FRESH, Report(o, Done)) == Agent(Store(Some(o), false), Sending(o), [Stored(o)])
    ensures Next(Agent(Store(Some(o), false), Resting, [Stored(o)]), Report(o', Done))
            == Agent(Store(Some(o), false), Sending(o'), [Stored(o)])
    ensures Next(Agent(Store(Some(o), false), Sending(o'), [Stored(o)]), Send(false, NotAccepted))
            == Agent(Store(Some(o), false), Resting, [Stored(o), Sent(o')])
  {
    assert [] + [Stored(o)] == [Stored(o)] && [Stored(o)] + [] == [Stored(o)];
    assert [Stored(o)] + [Sent(o')] + [] == [Stored(o), Sent(o')];
  }

  /** A run in which the report sent is not the one stored: only its adopted predecessor differs. */
  lemma AdoptedPredecessorCanDiffer(o: Observation, other: string)
    requires Retainable(o) && other != o.adopted
    ensures exists agents: seq<Agent>, steps: seq<Step> ::
              Run(agents, steps) && SentUnstored(agents[|steps|].trace, o.(adopted := other))
  {
    var o' := o.(adopted := other);
    var held := Store(Some(o), false);
    var a1, a2 := Agent(held, Sending(o), [Stored(o)]), Agent(held, Resting, [Stored(o)]);
    var a3, a4 := Agent(held, Sending(o'), [Stored(o)]), Agent(held, Resting, [Stored(o), Sent(o')]);
    ResendSteps(o, o');
    var agents := [FRESH, a1, a2, a3, a4];
    var steps := [Report(o, Done), GiveUp, Report(o', Done), Send(false, NotAccepted)];
    assert Run(agents, steps);
    assert agents[|steps|].trace[1] == Sent(o');
  }

  ghost predicate SentUnstored(trace: seq<Action>, o: Observation) {
    Sent(o) in trace && Stored(o) !in trace
  }
}
