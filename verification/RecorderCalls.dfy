/**
 What becomes of a call of the recorder, by what it meets: over every run, from the arguments it was made with to
 the counter it adds to.
 */
module RecorderCalls {
  import opened RecorderMemory
  import opened RecorderWorld
  import opened RecorderSafety

  // ---- calls keep their arguments ----

  /** The calls the first `n` steps made, in order. */
  function Made(steps: seq<Step>, n: nat): seq<Step>
    requires n <= |steps|
  {
    if n == 0 then [] else Made(steps, n - 1) + if steps[n - 1].Begin? then [steps[n - 1]] else []
  }

  predicate MadeBy(c: Call, s: Step) {
    s.Begin? && c.tenant == s.tenant && c.meter == s.meter && c.delta == s.delta && c.at == s.at
  }

  lemma CallsAfter(w: World, s: Step)
    requires Enabled(w, s)
    ensures |Apply(w, s).calls| == |w.calls| + if s.Begin? then 1 else 0
    ensures s.Begin? ==> MadeBy(Apply(w, s).calls[|w.calls|], s)
  {
  }

  /** Every state holds exactly the calls made so far, each with the tenant, meter, delta and time it was made with. */
  lemma {:induction false} CallsAreThoseMade(worlds: seq<World>, steps: seq<Step>, n: nat)
    requires Run(worlds, steps) && n < |worlds|
    ensures |worlds[n].calls| == |Made(steps, n)|
    ensures forall i | 0 <= i < |worlds[n].calls| :: MadeBy(worlds[n].calls[i], Made(steps, n)[i])
    decreases n
  {
    if n > 0 {
      CallsAreThoseMade(worlds, steps, n - 1);
      CallsAfter(worlds[n - 1], steps[n - 1]);
      forall i | 0 <= i < |worlds[n - 1].calls|
        ensures StepsOn(worlds[n - 1].calls[i], worlds[n].calls[i])
      {
        CallStepsOn(worlds[n - 1], steps[n - 1], i);
      }
    }
  }

  // ---- from one state to a later one ----

  lemma StepsOnAgain(a: Call, b: Call, c: Call)
    requires StepsOn(a, b) && StepsOn(b, c)
    ensures StepsOn(a, c)
  {
  }

  lemma {:induction false} CallLater(worlds: seq<World>, steps: seq<Step>, a: nat, b: nat, i: nat)
    requires Run(worlds, steps) && a <= b < |worlds| && i < |worlds[a].calls|
    ensures i < |worlds[b].calls| && StepsOn(worlds[a].calls[i], worlds[b].calls[i])
    decreases b
  {
    if a < b {
      CallLater(worlds, steps, a, b - 1, i);
      CallStepsOn(worlds[b - 1], steps[b - 1], i);
      StepsOnAgain(worlds[a].calls[i], worlds[b - 1].calls[i], worlds[b].calls[i]);
    }
  }

  // ---- the outcome ----

  /** The call is queued under a key of the registration that names it, on top of what was queued there. */
  ghost predicate Queued(before: World, after: World, i: nat, registration: string) {
    && i < |after.calls| && after.calls[i].state.Accepted? && after.calls[i].state.place == InPending
    && var c := after.calls[i];
       && Names(c.state.key, c) && c.state.key.registration == registration
       && Amount(after.memory.pending, c.state.key) == Amount(before.memory.pending, c.state.key) + c.delta
       && forall k: Key | k != c.state.key :: Amount(after.memory.pending, k) == Amount(before.memory.pending, k)
  }

  /** The registration was read: the call is queued under it, and if its ticket is the newest the tenant is
      remembered under that registration and observed, from now on if it was not before. */
  ghost predicate Resolves(before: World, after: World, i: nat, registration: string) {
    && Queued(before, after, i, registration)
    && var c, o := after.calls[i], Observer(after.calls[i].tenant, registration);
       if c.tenant in before.memory.lookups && before.memory.lookups[c.tenant] == c.ticket then
         && c.tenant in after.memory.registrations && after.memory.registrations[c.tenant] == registration
         && o in after.memory.observing
         && (if o in before.memory.observing then after.memory.observing == before.memory.observing
             else after.memory.observing == before.memory.observing[o := Observation(before.now, c.ticket)])
       else after.memory.observing == before.memory.observing && after.memory.registrations == before.memory.registrations
  }

  /** The lookup failed: no observation of the tenant is left and no other is touched, and the call is queued under the
      registration known when it began, if there was one and it was not reported erased. */
  ghost predicate Interrupts(before: World, after: World, i: nat, known: string, erased: bool) {
    && i < |after.calls|
    && (if known != "" && !erased then Queued(before, after, i, known)
        else after.calls[i].state == Dropped && after.memory.pending == before.memory.pending)
    && (forall o | o in after.memory.observing ::
          o.tenant != after.calls[i].tenant && o in before.memory.observing && after.memory.observing[o] == before.memory.observing[o])
    && (forall o | o in before.memory.observing && o.tenant != after.calls[i].tenant :: o in after.memory.observing)
  }

  lemma FinishResolved(w: World, i: nat)
    requires Enabled(w, Finish(i)) && w.calls[i].state.Resolved?
    ensures Resolves(w, Finished(w, i), i, w.calls[i].state.registration)
  {
  }

  lemma FinishFailed(w: World, i: nat)
    requires Enabled(w, Finish(i)) && w.calls[i].state.Failed?
    ensures Interrupts(w, Finished(w, i), i, w.calls[i].previous, w.calls[i].state.erased)
  {
  }

  /** What the call knew when it began. */
  function KnownBefore(w: World, tenant: string): string {
    if tenant in w.memory.registrations then w.memory.registrations[tenant] else ""
  }

  lemma BegunKnows(w: World, s: Step)
    requires Enabled(w, s) && s.Begin?
    ensures
      var w' := Apply(w, s);
      && |w'.calls| == |w.calls| + 1 && MadeBy(w'.calls[|w.calls|], s)
      && w'.calls[|w.calls|].previous == KnownBefore(w, s.tenant)
      && s.tenant in w'.memory.lookups && w'.memory.lookups[s.tenant] == w'.calls[|w.calls|].ticket
  {
  }

  lemma LookupTells(w: World, i: nat, answered: bool)
    requires Enabled(w, Lookup(i, answered))
    ensures
      var c := LookedUp(w, i, answered).calls[i];
      if answered && c.tenant in w.db.live then c.state == Resolved(w.db.live[c.tenant])
      else c.state == Failed(answered)
  {
  }

  /** Over any run: a call begun at step `m`, looked up at `a` and finished at `b` is counted under the registration
      live at its lookup if that was answered; under the one known when it began if the lookup got no answer; and not
      at all if there was none, or the tenant was gone. */
  lemma CallOutcome(worlds: seq<World>, steps: seq<Step>, m: nat, a: nat, b: nat, answered: bool)
    requires Run(worlds, steps) && m < a < b < |steps| && steps[m].Begin?
    requires steps[a] == Lookup(|worlds[m].calls|, answered) && steps[b] == Finish(|worlds[m].calls|)
    ensures
      var i := |worlds[m].calls|;
      && i < |worlds[b + 1].calls| && MadeBy(worlds[b + 1].calls[i], steps[m])
      && if answered && steps[m].tenant in worlds[a].db.live
         then Resolves(worlds[b], worlds[b + 1], i, worlds[a].db.live[steps[m].tenant])
         else Interrupts(worlds[b], worlds[b + 1], i, KnownBefore(worlds[m], steps[m].tenant), answered)
  {
    var i := |worlds[m].calls|;
    BegunKnows(worlds[m], steps[m]);
    CallLater(worlds, steps, m + 1, a, i);
    LookupTells(worlds[a], i, answered);
    CallLater(worlds, steps, m + 1, b, i);
    CallLater(worlds, steps, a + 1, b, i);
    CallLater(worlds, steps, m + 1, b + 1, i);
    if worlds[b].calls[i].state.Resolved? {
      FinishResolved(worlds[b], i);
    } else {
      FinishFailed(worlds[b], i);
    }
  }
}
