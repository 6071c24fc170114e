/**
 The agent's main select loop: heartbeat, job polling on one background worker, and certificate
 rotation that waits for the worker.

 A timer is idle or armed; `prompt` marks one reset to fire at once. A worker is a goroutine that
 is running or has left its result on its channel.
 */
module AgentLoop {
  import opened Options

  datatype Timer = Idle | Armed(prompt: bool)

  datatype Exit = Shutdown | Rotated

  /** A renewal attempt: the workers alive when it ran, and whether the control plane had asked for it. */
  datatype Renewal = Renewal(workers: set<nat>, requested: bool)

  datatype Loop = Loop(
    rotate: Timer,
    relay: Option<Timer>,
    running: set<nat>,
    finished: set<nat>,
    relayDone: Option<nat>,
    started: nat,
    rotationPending: bool,
    renewRequested: bool,
    renewals: seq<Renewal>,
    exit: Option<Exit>)

  /** Loop state on entry: the rotate timer is armed, at once if a renewal was already requested. */
  function Entry(polling: bool, renewRequested: bool): Loop {
    Loop(Armed(renewRequested), if polling then Some(Armed(true)) else None, {}, {}, None, 0, false, renewRequested, [], None)
  }

  datatype Event =
    | Heartbeat(ok: bool, renew: bool)
    | RelayTimer(expired: bool)
    | WorkerDone(id: nat)
    | RelayResult(executed: bool)
    | RotateTimer(renewed: bool)
    | Stop

  predicate Enabled(l: Loop, e: Event) {
    l.exit.None? &&
    match e
    case Heartbeat(_, _) => true
    case RelayTimer(_) => l.relay.Some? && l.relay.value.Armed?
    case WorkerDone(id) => id in l.running
    case RelayResult(_) => l.relayDone.Some? && l.relayDone.value in l.finished
    case RotateTimer(_) => l.rotate.Armed?
    case Stop => true
  }

  // ---- the cases of the select ----

  function AfterHeartbeat(l: Loop, ok: bool, renew: bool): Loop {
    if !ok || !renew || l.renewRequested then l
    else if l.relayDone.Some? then l.(renewRequested := true, rotationPending := true)
    else l.(renewRequested := true, rotate := Armed(true))
  }

  function AfterRelayTimer(l: Loop, expired: bool): Loop
    requires l.relay.Some?
  {
    if expired then l.(relay := Some(Idle), rotate := Armed(true))
    else l.(relay := Some(Idle), relayDone := Some(l.started), running := l.running + {l.started}, started := l.started + 1)
  }

  function AfterRelayResult(l: Loop, executed: bool): Loop
    requires l.relayDone.Some?
  {
    var idle := l.(relayDone := None, finished := l.finished - {l.relayDone.value});
    if l.rotationPending then idle.(rotationPending := false, rotate := Armed(true))
    else idle.(relay := if l.relay.Some? then Some(Armed(executed)) else None)
  }

  function AfterRotateTimer(l: Loop, renewed: bool): Loop {
    if l.relayDone.Some? then l.(rotate := Idle, rotationPending := true)
    else
      var tried := l.(renewRequested := false, renewals := l.renewals + [Renewal(l.running, l.renewRequested)]);
      if renewed then tried.(rotate := Idle, exit := Some(Rotated))
      else tried.(rotate := Armed(false), relay := if l.relay.Some? then Some(Armed(false)) else None)
  }

  function Next(l: Loop, e: Event): Loop
    requires Enabled(l, e)
  {
    match e
    case Heartbeat(ok, renew) => AfterHeartbeat(l, ok, renew)
    case RelayTimer(expired) => AfterRelayTimer(l, expired)
    case WorkerDone(id) => l.(running := l.running - {id}, finished := l.finished + {id})
    case RelayResult(executed) => AfterRelayResult(l, executed)
    case RotateTimer(renewed) => AfterRotateTimer(l, renewed)
    case Stop => l.(exit := Some(Shutdown))
  }

  ghost predicate Run(loops: seq<Loop>, events: seq<Event>) {
    && |loops| == |events| + 1
    && (exists polling, requested :: loops[0] == Entry(polling, requested))
    && forall i | 0 <= i < |events| :: Enabled(loops[i], events[i]) && loops[i + 1] == Next(loops[i], events[i])
  }

  // ---- the loop object ----

  class Agent {
    var rotate: Timer
    var relay: Option<Timer>
    var running: set<nat>
    var finished: set<nat>
    var relayDone: Option<nat>
    var started: nat
    var rotationPending: bool
    var renewRequested: bool
    var renewals: seq<Renewal>
    var exit: Option<Exit>

    ghost function Value(): Loop
      reads this
    {
      Loop(rotate, relay, running, finished, relayDone, started, rotationPending, renewRequested, renewals, exit)
    }

    constructor (polling: bool, requested: bool)
      ensures Value() == Entry(polling, requested)
    {
      rotate, relay := Armed(requested), if polling then Some(Armed(true)) else None;
      running, finished, relayDone, started := {}, {}, None, 0;
      rotationPending, renewRequested, renewals, exit := false, requested, [], None;
    }

    method OnHeartbeat(ok: bool, renew: bool)
      modifies this
      ensures Value() == AfterHeartbeat(old(Value()), ok, renew)
    {
      if ok && renew && !renewRequested {
        renewRequested := true;
        if relayDone.Some? {
          rotationPending := true;
        } else {
          rotate := Armed(true);
        }
      }
    }

    method OnRelayTimer(expired: bool)
      requires relay.Some?
      modifies this
      ensures Value() == AfterRelayTimer(old(Value()), expired)
    {
      relay := Some(Idle);
      if expired {
        rotate := Armed(true);
        return;
      }
      relayDone := Some(started);
      running := running + {started};
      started := started + 1;
    }

    method OnRelayResult(executed: bool)
      requires relayDone.Some?
      modifies this
      ensures Value() == AfterRelayResult(old(Value()), executed)
    {
      finished := finished - {relayDone.value};
      relayDone := None;
      if rotationPending {
        rotationPending := false;
        rotate := Armed(true);
      } else if relay.Some? {
        relay := Some(Armed(executed));
      }
    }

    method OnRotateTimer(renewed: bool)
      modifies this
      ensures Value() == AfterRotateTimer(old(Value()), renewed)
    {
      rotate := Idle;
      if relayDone.Some? {
        rotationPending := true;
        return;
      }
      renewals := renewals + [Renewal(running, renewRequested)];
      renewRequested := false;
      if renewed {
        exit := Some(Rotated);
        return;
      }
      rotate := Armed(false);
      if relay.Some? {
        relay := Some(Armed(false));
      }
    }
  }

  // ---- what every event keeps ----

  /** Exactly the worker behind `relayDone` is alive. */
  ghost predicate OneWorker(l: Loop) {
    && l.running !! l.finished
    && l.running + l.finished == (if l.relayDone.Some? then {l.relayDone.value} else {})
    && (l.relayDone.Some? ==> l.relayDone.value < l.started)
  }

  ghost predicate Sound(l: Loop) {
    && OneWorker(l)
    && (l.relay.Some? && l.relay.value.Armed? ==> l.relayDone.None?)
    && (l.rotationPending ==> l.relayDone.Some?)
    && (l.exit != Some(Rotated) ==> l.rotate.Armed? || l.rotationPending)
    && (l.renewRequested ==> l.rotate == Armed(true) || l.rotationPending)
    && (l.relay.None? ==> l.relayDone.None?)
    && (l.exit == Some(Rotated) ==> l.relayDone.None?)
    && (forall i | 0 <= i < |l.renewals| :: l.renewals[i].workers == {})
  }

  lemma SoundNext(l: Loop, e: Event)
    requires Sound(l) && Enabled(l, e)
    ensures Sound(Next(l, e))
  {
  }

  lemma {:induction false} SoundThroughout(loops: seq<Loop>, events: seq<Event>, n: nat)
    requires Run(loops, events) && n < |loops|
    ensures Sound(loops[n])
    decreases n
  {
    if n > 0 {
      SoundThroughout(loops, events, n - 1);
      SoundNext(loops[n - 1], events[n - 1]);
    }
  }

  /** In every state of every run: at most one worker exists, no renewal ever ran beside a worker, a
      deferred rotation has a worker to wait for, and unless the identity has rotated the rotate timer is
      armed or a rotation waits behind the worker. */
  lemma LoopIsSafe(loops: seq<Loop>, events: seq<Event>, n: nat)
    requires Run(loops, events) && n < |loops|
    ensures
      var l := loops[n];
      && |l.running + l.finished| <= 1
      && (forall i | 0 <= i < |l.renewals| :: l.renewals[i].workers == {})
      && (l.rotationPending ==> l.relayDone.Some?)
      && (l.exit != Some(Rotated) ==> l.rotate.Armed? || (l.rotationPending && l.relayDone.Some?))
  {
    SoundThroughout(loops, events, n);
  }

  // ---- a requested renewal is not lost ----

  predicate IsAttempt(l: Loop, e: Event) {
    e.RotateTimer? && l.relayDone.None?
  }

  /** A requested renewal stays requested, and prompt, until the attempt that honours it. */
  lemma RequestHeldUntilAttempt(l: Loop, e: Event)
    requires Sound(l) && Enabled(l, e) && l.renewRequested
    ensures IsAttempt(l, e) ==> |Next(l, e).renewals| == |l.renewals| + 1 && Next(l, e).renewals[|l.renewals|].requested
    ensures !IsAttempt(l, e) ==>
              && Next(l, e).renewRequested
              && (Next(l, e).rotate == Armed(true) || Next(l, e).rotationPending)
  {
    SoundNext(l, e);
  }

  /** Through a whole run: a renewal requested at state `a` is either still held, promptly, at state `b`, or a
      requested attempt was made in between. */
  lemma {:induction false} RequestNeverLost(loops: seq<Loop>, events: seq<Event>, a: nat, b: nat)
    requires Run(loops, events) && a <= b < |loops| && loops[a].renewRequested
    ensures
      || (loops[b].renewRequested && (loops[b].rotate == Armed(true) || loops[b].rotationPending))
      || exists i :: a <= i < b && IsAttempt(loops[i], events[i]) && loops[i].renewRequested
    decreases b
  {
    SoundThroughout(loops, events, b);
    if a < b {
      RequestNeverLost(loops, events, a, b - 1);
      if loops[b - 1].renewRequested {
        SoundThroughout(loops, events, b - 1);
        RequestHeldUntilAttempt(loops[b - 1], events[b - 1]);
      }
    }
  }

  /** A heartbeat that fails, or does not ask, leaves the request and every timer alone; one that asks makes the
      renewal requested, promptly or behind the worker. */
  lemma HeartbeatAsks(l: Loop, ok: bool, renew: bool)
    requires Sound(l) && Enabled(l, Heartbeat(ok, renew))
    ensures
      var l' := Next(l, Heartbeat(ok, renew));
      && (!(ok && renew) ==> l'.renewRequested == l.renewRequested && l'.rotate == l.rotate && l'.rotationPending == l.rotationPending)
      && (ok && renew ==> l'.renewRequested && (l'.rotate == Armed(true) || l'.rotationPending))
      && l'.relay == l.relay && l'.relayDone == l.relayDone && l'.renewals == l.renewals && l'.exit == l.exit
  {
  }

  /** Over any run: a renewal the control plane asks for is held, promptly, until it is attempted. */
  lemma AskedRenewalIsTried(loops: seq<Loop>, events: seq<Event>, a: nat, b: nat)
    requires Run(loops, events) && a < b < |loops| && events[a] == Heartbeat(true, true)
    ensures
      || (loops[b].renewRequested && (loops[b].rotate == Armed(true) || loops[b].rotationPending))
      || exists i :: a < i < b && IsAttempt(loops[i], events[i]) && loops[i].renewRequested
  {
    SoundThroughout(loops, events, a);
    HeartbeatAsks(loops[a], true, true);
    RequestNeverLost(loops, events, a + 1, b);
  }

  /** And only then: a renewal is requested at a state exactly when it was on entry, or a heartbeat asked, and no
      attempt was made since. */
  lemma {:induction false} RequestedIffAsked(loops: seq<Loop>, events: seq<Event>, n: nat)
    requires Run(loops, events) && n < |loops|
    ensures loops[n].renewRequested <==>
            || (loops[0].renewRequested && forall i | 0 <= i < n :: !IsAttempt(loops[i], events[i]))
            || exists a :: 0 <= a < n && events[a] == Heartbeat(true, true) && forall i | a < i < n :: !IsAttempt(loops[i], events[i])
    decreases n
  {
    if n > 0 {
      RequestedIffAsked(loops, events, n - 1);
      var l, e := loops[n - 1], events[n - 1];
      if loops[n].renewRequested && e != Heartbeat(true, true) {
        assert l.renewRequested && !IsAttempt(l, e);
      }
    }
  }

  /** On entry polling, where the agent polls, is due at once, and rotation is due at once exactly when a renewal was
      requested already. */
  lemma EntryIsPrompt(polling: bool, requested: bool)
    ensures
      var l := Entry(polling, requested);
      && Sound(l) && l.exit.None? && l.renewRequested == requested && l.renewals == []
      && l.rotate == Armed(requested)
      && (if polling then Enabled(l, RelayTimer(true)) && l.relay.value.prompt else l.relay.None?)
  {
  }

  // ---- what was started and tried ----

  function Count(loops: seq<Loop>, events: seq<Event>, which: (Loop, Event) -> bool, n: nat): nat
    requires n <= |events| < |loops|
  {
    if n == 0 then 0 else Count(loops, events, which, n - 1) + if which(loops[n - 1], events[n - 1]) then 1 else 0
  }

  const STARTS: (Loop, Event) -> bool := (l: Loop, e: Event) => e == RelayTimer(false)
  const ATTEMPTS: (Loop, Event) -> bool := (l: Loop, e: Event) => IsAttempt(l, e)

  /** A worker is started by every poll under a live certificate and by nothing else, a renewal is tried by every
      rotation with no worker and by nothing else, and the loop ends by shutdown, or by the renewal that succeeded. */
  lemma {:induction false} StartsAndAttempts(loops: seq<Loop>, events: seq<Event>, n: nat)
    requires Run(loops, events) && n < |loops|
    ensures loops[n].started == Count(loops, events, STARTS, n)
    ensures |loops[n].renewals| == Count(loops, events, ATTEMPTS, n)
    ensures loops[n].exit == Some(Rotated) <==>
            n > 0 && events[n - 1] == RotateTimer(true) && IsAttempt(loops[n - 1], events[n - 1])
    ensures loops[n].exit == Some(Shutdown) <==> n > 0 && events[n - 1].Stop?
    decreases n
  {
    if n > 0 {
      StartsAndAttempts(loops, events, n - 1);
    }
  }

  lemma NoWorker(l: Loop)
    requires OneWorker(l) && l.relayDone.None?
    ensures l.running == {} && l.finished == {}
  {
    assert l.running == l.running * (l.running + l.finished) && l.finished == l.finished * (l.running + l.finished);
  }

  /** Which request an attempt honours, and what a failed one leaves: the next rotation armed, and polling with it. */
  lemma AttemptHonours(l: Loop, renewed: bool)
    requires Sound(l) && Enabled(l, RotateTimer(renewed)) && l.relayDone.None?
    ensures
      var l' := Next(l, RotateTimer(renewed));
      && !l'.renewRequested && l'.renewals == l.renewals + [Renewal({}, l.renewRequested)]
      && (renewed <==> l'.exit == Some(Rotated))
      && (!renewed ==> l'.rotate == Armed(false) && (l.relay.Some? ==> l'.relay == Some(Armed(false))))
  {
    NoWorker(l);
  }

  // ---- the worker's turn ----

  /** A poll with time left on the certificate starts one worker and disarms polling; with none left it asks for a
      rotation at once. */
  lemma PollStarts(l: Loop, expired: bool)
    requires Sound(l) && Enabled(l, RelayTimer(expired))
    ensures
      var l' := Next(l, RelayTimer(expired));
      && l'.relay == Some(Idle)
      && (if expired then l'.rotate == Armed(true) && l'.relayDone.None? && l'.running == {}
          else l'.rotate == l.rotate && l'.relayDone.Some? && l'.running == {l'.relayDone.value})
      && l'.rotationPending == l.rotationPending && l'.renewRequested == l.renewRequested
  {
    assert l.running + l.finished == {};
  }

  /** A worker's result frees its place: a rotation that waited is due at once, and otherwise polling is armed, at once
      if there was work. */
  lemma ResultFrees(l: Loop, executed: bool)
    requires Sound(l) && Enabled(l, RelayResult(executed))
    ensures
      var l' := Next(l, RelayResult(executed));
      && l'.relayDone.None? && l'.running + l'.finished == {} && !l'.rotationPending
      && (if l.rotationPending then l'.rotate == Armed(true) && l'.relay == l.relay
          else l'.rotate == l.rotate && l'.relay == Some(Armed(executed)))
      && l'.renewRequested == l.renewRequested
  {
    SoundNext(l, RelayResult(executed));
  }

  /** A rotation due while a worker runs waits for it. */
  lemma RotationWaits(l: Loop, renewed: bool)
    requires Enabled(l, RotateTimer(renewed)) && l.relayDone.Some?
    ensures
      var l' := Next(l, RotateTimer(renewed));
      && l'.rotationPending && l'.renewals == l.renewals && l'.exit.None? && l'.renewRequested == l.renewRequested
      && l'.relayDone == l.relayDone && l'.running == l.running && l'.relay == l.relay
  {
  }

  // ---- polling resumes ----

  /** Zero when the poll timer is armed; one when a rotation attempt must come first; two when the worker's
      result must come first. */
  function PollDistance(l: Loop): nat {
    if l.relay.None? || l.relay.value.Armed? || l.exit.Some? then 0 else if l.relayDone.None? then 1 else 2
  }

  predicate Progress(l: Loop, e: Event) {
    e.RelayResult? || IsAttempt(l, e)
  }

  /** What polling waits for can happen: the rotate timer is armed, or the worker is running or done. */
  lemma PollingIsNotStuck(l: Loop)
    requires Sound(l) && l.exit.None?
    ensures PollDistance(l) == 1 ==> Enabled(l, RotateTimer(true)) && Enabled(l, RotateTimer(false))
    ensures PollDistance(l) == 2 ==>
              l.relayDone.value in l.running || (Enabled(l, RelayResult(true)) && Enabled(l, RelayResult(false)))
  {
    assert PollDistance(l) == 2 ==> l.relayDone.value in l.running + l.finished;
  }

  lemma PollStep(l: Loop, e: Event)
    requires Sound(l) && Enabled(l, e) && !e.RelayTimer?
    ensures PollDistance(Next(l, e)) + (if Progress(l, e) && PollDistance(l) > 0 then 1 else 0) <= PollDistance(l)
  {
  }

  function ProgressCount(loops: seq<Loop>, events: seq<Event>, a: nat, b: nat): nat
    requires a <= b <= |events| < |loops|
  {
    if a == b then 0 else ProgressCount(loops, events, a, b - 1) + if Progress(loops[b - 1], events[b - 1]) then 1 else 0
  }

  /** While polling is disarmed it takes at most two such events, a result and an attempt, to arm it again. */
  lemma {:induction false} PollingResumes(loops: seq<Loop>, events: seq<Event>, a: nat, b: nat)
    requires Run(loops, events) && a <= b < |loops|
    requires forall i | a <= i < b :: PollDistance(loops[i]) > 0
    ensures ProgressCount(loops, events, a, b) + PollDistance(loops[b]) <= PollDistance(loops[a]) <= 2
    decreases b
  {
    if a < b {
      PollingResumes(loops, events, a, b - 1);
      SoundThroughout(loops, events, b - 1);
      PollStep(loops[b - 1], events[b - 1]);
    }
  }

  // ---- when the next rotation is tried ----

  const SECOND := 1_000_000_000
  const DEFAULT_ROTATION := 12 * 3600 * SECOND

  function Cadence(rotateEvery: int): int {
    if rotateEvery <= 0 then DEFAULT_ROTATION else rotateEvery
  }

  /** Two thirds of the remaining life, or the configured cadence if that is sooner. */
  function Target(rotateEvery: int, remaining: int): int {
    var target := remaining * 2 / 3;
    if Cadence(rotateEvery) < target then Cadence(rotateEvery) else target
  }

  function AtLeastSecond(d: int): int {
    if d < SECOND then SECOND else d
  }

  /** The delay before the next attempt; `jitter` is the random draw, below a fifth of the target, and is absent when
      there is no random source. */
  method NextRotationDelay(rotateEvery: int, notAfter: Option<int>, now: int, jitter: Option<nat>) returns (d: int)
    requires notAfter.Some? && 0 < notAfter.value - now && jitter.Some? ==>
               jitter.value == 0 || jitter.value < Target(rotateEvery, notAfter.value - now) / 5
    ensures 0 < d
    ensures notAfter.None? ==> d == Cadence(rotateEvery)
    ensures notAfter.None? && rotateEvery <= 0 ==> d == 43_200_000_000_000
    ensures notAfter.Some? && now < notAfter.value ==> (now + d < notAfter.value <==> SECOND < notAfter.value - now)
    ensures notAfter.Some? && now < notAfter.value ==>
              var target := Target(rotateEvery, notAfter.value - now);
              if jitter.None? then d == AtLeastSecond(target)
              else target - target / 10 <= d <= AtLeastSecond(target + target / 10)
    ensures notAfter.Some? && notAfter.value <= now ==> d == SECOND
  {
    var every := Cadence(rotateEvery);
    if notAfter.None? {
      return every;
    }
    var remaining := notAfter.value - now;
    if remaining <= 0 {
      return SECOND;
    }
    var target := remaining * 2 / 3;
    if target > every {
      target := every;
    }
    if jitter.Some? && target > 0 {
      var spread := target / 5;
      if spread > 0 {
        target := target - spread / 2 + jitter.value;
      }
    }
    if target < SECOND {
      target := SECOND;
    }
    return target;
  }
}
