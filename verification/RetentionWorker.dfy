/**
 The retention worker for one tenant, updating the log, the archive and the checkpoint rows in
 place, and the drain loop that runs it until nothing due is left.
 */
module RetentionWorker {
  import opened Clock
  import opened AuditChain
  import opened Retention
  import opened RetentionSafety
  import opened RetentionPass
  import opened Options

  datatype RoundResult = Moved(count: nat) | Nothing | Refused

  /** Events other writers append while a pass runs: newer than the cutoff, and not this worker's. */
  predicate Late(e: Event, tenant: string, cutoff: Instant) {
    Foreign(e, tenant) && cutoff < e.time
  }

  /** The boundary moved past `records` due records in `segments` segments, and the due count fell by as many. */
  ghost predicate Advanced(s: State, s': State, records: nat, segments: nat, cutoff: Instant) {
    && SavedOk(s) && SavedOk(s') && Start(s') == Start(s) + records && |s'.saved| == |s.saved| + segments
    && DueNow(s', cutoff) + records == DueNow(s, cutoff)
  }

  lemma AdvancedThen(a: State, b: State, c: State, records: nat, segments: nat, more: nat, extra: nat, cutoff: Instant)
    requires Advanced(a, b, records, segments, cutoff) && Advanced(b, c, more, extra, cutoff)
    ensures Advanced(a, c, records + more, segments + extra, cutoff)
  {
  }

  lemma NotAdvanced(s: State, s': State, cutoff: Instant)
    requires SavedOk(s) && s'.saved == s.saved && s'.log == s.log && s'.tenant == s.tenant
    ensures Advanced(s, s', 0, 0, cutoff)
  {
  }

  lemma ArrivalKeeps(s: State, e: Event, cutoff: Instant)
    requires Safe(s) && Late(e, s.tenant, cutoff)
    ensures Safe(s.(log := s.log + [e])) && Advanced(s, s.(log := s.log + [e]), 0, 0, cutoff)
  {
    RetentionTheorems.SafeAppend(s, e);
    SurvivorsAreSuffix(s);
    DueAfterAppend(s.log, e, s.tenant, Start(s), cutoff);
  }

  lemma RoundOutcome(s: State, fit: nat, overwrite: bool, now: Instant, cutoff: Instant)
    requires Safe(s) && Current(s) && CanCut(s, fit) && ArchivedState(s, fit, overwrite).phase.Held?
    requires cutoff < now && forall i | 0 <= i < fit :: s.phase.recs[i].core.time <= cutoff
    ensures AnnouncedState(ArchivedState(s, fit, overwrite), now).phase.Announced?
    ensures
      var s' := SavedState(AnnouncedState(ArchivedState(s, fit, overwrite), now));
      Safe(s') && s'.phase.Resting? && Advanced(s.(phase := Resting), s', fit, 1, cutoff)
  {
    SafeArchive(s, fit, overwrite);
    AnnounceAdds(ArchivedState(s, fit, overwrite), now);
    RoundReducesDue(s, fit, overwrite, now, cutoff);
    RoundMoves(s, fit, overwrite, now);
    var s' := SavedState(AnnouncedState(ArchivedState(s, fit, overwrite), now));
    assert Advanced(s, s', fit, 1, cutoff);
    NotAdvanced(s, s.(phase := Resting), cutoff);
  }

  /** The state with the records past the latest checkpoint just read. */
  ghost function ReadNow(s: State): State {
    s.(phase := Loaded(Survivors(s).0, Survivors(s).1))
  }

  /** Another object is stored at the boundary of the leading `n` records read, and may not be overwritten. */
  ghost predicate Taken(l: State, n: nat, overwrite: bool) {
    && CanCut(l, n)
    && var (bundle, cp) := Cut(l, n);
       !overwrite && cp.count in l.archive && !SameSegment(l.archive[cp.count], bundle)
  }

  /** Sealing the leading `n` records read: refused, changing nothing, exactly when another object is in the way. */
  ghost predicate SealDone(l: State, s': State, n: nat, overwrite: bool, now: Instant, r: RoundResult) {
    && CanCut(l, n)
    && if Taken(l, n, overwrite) then r == Refused && s' == l.(phase := Resting)
       else r == Moved(n) && ArchivedState(l, n, overwrite).phase.Held? && s' == Round(l, n, overwrite, now)
  }

  /** What one round does from a state, by its result: moves the best fit of the due records through archive,
      announcement and checkpoint; or changes nothing, because no record is due, or because none can be signed or
      another object is in the way. */
  ghost predicate RoundDone(s: State, s': State, r: RoundResult, overwrite: bool, cutoff: Instant, now: Instant, size: Sizes) {
    var l := ReadNow(s);
    match r
    case Moved(n) => BestDue(l.phase.recs, cutoff, size, n) && SealDone(l, s', n, overwrite, now, r)
    case Nothing => s' == s && DueRun(l.phase.recs, 0, cutoff)
    case Refused =>
      && s' == s && !DueRun(l.phase.recs, 0, cutoff)
      && (NoneFits(l.phase.recs, cutoff, size) || exists n: nat :: BestDue(l.phase.recs, cutoff, size, n) && Taken(l, n, overwrite))
  }

  lemma SealedRound(s: State, l: State, s': State, n: nat, r: RoundResult, overwrite: bool, cutoff: Instant, now: Instant, size: Sizes)
    requires s.phase.Resting? && l == ReadNow(s) && SealDone(l, s', n, overwrite, now, r)
    requires BestDue(l.phase.recs, cutoff, size, n) && !DueRun(l.phase.recs, 0, cutoff)
    ensures RoundDone(s, s', r, overwrite, cutoff, now, size)
  {
  }

  lemma HeldUnlessTaken(l: State, n: nat, overwrite: bool)
    requires CanCut(l, n)
    ensures ArchivedState(l, n, overwrite).phase.Held? <==> !Taken(l, n, overwrite)
    ensures Taken(l, n, overwrite) ==> ArchivedState(l, n, overwrite) == l.(phase := Resting)
  {
  }

  /** What a pass is run against: the limits of each round, and what arrives before it. */
  datatype Pass = Pass(
    overwrite: bool, cutoff: Instant, clock: nat -> Instant, arrivals: nat -> seq<Event>, sizes: nat -> Sizes)

  /** Round `j` of a pass, after whatever arrived since the one before. */
  ghost predicate RoundAfter(p: Pass, s: State, s': State, r: RoundResult, j: nat) {
    RoundDone(s.(log := s.log + p.arrivals(j)), s', r, p.overwrite, p.cutoff, p.clock(j), p.sizes(j))
  }

  /** Rounds that each moved the best fit of what was due, from the first state to the last. */
  ghost predicate Rounds(p: Pass, states: seq<State>, cuts: seq<nat>) {
    && |states| == |cuts| + 1
    && forall j | 0 <= j < |cuts| :: RoundAfter(p, states[j], states[j + 1], Moved(cuts[j]), j)
  }

  /** A pass: such rounds, and then one that finds nothing due or is refused. */
  ghost predicate PassDone(p: Pass, s: State, s': State, cuts: seq<nat>, finished: bool) {
    exists states: seq<State> ::
      && Rounds(p, states, cuts) && states[0] == s
      && RoundAfter(p, states[|cuts|], s', if finished then Nothing else Refused, |cuts|)
  }

  /** Where a pass stands after some rounds. */
  ghost predicate Drained(p: Pass, start: State, s: State, states: seq<State>, cuts: seq<nat>, records: nat, segments: nat) {
    && |cuts| == segments && Rounds(p, states, cuts) && states[0] == start && states[segments] == s
    && Advanced(start, s, records, segments, p.cutoff)
  }

  lemma DrainMoves(p: Pass, start: State, s: State, s': State, states: seq<State>, cuts: seq<nat>, records: nat, segments: nat, n: nat)
    requires Drained(p, start, s, states, cuts, records, segments)
    requires RoundAfter(p, s, s', Moved(n), segments) && Advanced(s, s', n, 1, p.cutoff)
    ensures 0 < n && Drained(p, start, s', states + [s'], cuts + [n], records + n, segments + 1)
  {
    MovesSome(p, s, s', n, segments);
    assert Rounds(p, states + [s'], cuts + [n]) by {
      OneMoreRound(p, states, cuts, s', n);
    }
    assert Advanced(start, s', records + n, segments + 1, p.cutoff) by {
      AdvancedThen(start, s, s', records, segments, n, 1, p.cutoff);
    }
  }

  lemma MovesSome(p: Pass, s: State, s': State, n: nat, j: nat)
    requires RoundAfter(p, s, s', Moved(n), j)
    ensures 0 < n
  {
  }

  lemma EndsPass(p: Pass, start: State, s': State, states: seq<State>, cuts: seq<nat>, finished: bool)
    requires Rounds(p, states, cuts) && states[0] == start
    requires RoundAfter(p, states[|cuts|], s', if finished then Nothing else Refused, |cuts|)
    ensures PassDone(p, start, s', cuts, finished)
  {
  }

  lemma NothingIsDue(p: Pass, s: State, s': State, j: nat)
    requires RoundAfter(p, s, s', Nothing, j) && s'.phase.Resting?
    ensures DueRun(Survivors(s').0, 0, p.cutoff)
  {
  }

  lemma DrainEnds(p: Pass, start: State, s: State, s': State, states: seq<State>, cuts: seq<nat>, records: nat, segments: nat, finished: bool)
    requires Drained(p, start, s, states, cuts, records, segments) && s'.phase.Resting?
    requires RoundAfter(p, s, s', if finished then Nothing else Refused, segments) && Advanced(s, s', 0, 0, p.cutoff)
    ensures PassDone(p, start, s', cuts, finished) && Advanced(start, s', records, segments, p.cutoff)
    ensures finished ==> DueRun(Survivors(s').0, 0, p.cutoff)
  {
    EndsPass(p, start, s', states, cuts, finished);
    AdvancedThen(start, s, s', records, segments, 0, 0, p.cutoff);
    if finished {
      NothingIsDue(p, s, s', segments);
    }
  }

  lemma OneMoreRound(p: Pass, states: seq<State>, cuts: seq<nat>, s: State, n: nat)
    requires Rounds(p, states, cuts) && RoundAfter(p, states[|cuts|], s, Moved(n), |cuts|)
    ensures Rounds(p, states + [s], cuts + [n])
  {
    var states', cuts' := states + [s], cuts + [n];
    forall j | 0 <= j < |cuts'|
      ensures RoundAfter(p, states'[j], states'[j + 1], Moved(cuts'[j]), j)
    {
      if j < |cuts| {
        assert RoundAfter(p, states[j], states[j + 1], Moved(cuts[j]), j);
      }
    }
  }

  class Worker {
    const tenant: string
    const overwrite: bool
    var log: Log
    var saved: map<nat, Checkpoint>
    var archive: map<nat, Stored>

    constructor (tenant: string, overwrite: bool, log: Log)
      ensures this.tenant == tenant && this.overwrite == overwrite
      ensures this.log == log && saved == map[] && archive == map[]
    {
      this.tenant, this.overwrite := tenant, overwrite;
      this.log, saved, archive := log, map[], map[];
    }

    ghost function Value(phase: Phase): State
      reads this
    {
      State(tenant, log, saved, archive, phase)
    }

    /** The row with the highest boundary. */
    method LatestCheckpoint() returns (r: Option<Checkpoint>)
      ensures r == Latest(saved)
    {
      if saved == map[] {
        return None;
      }
      var left := saved.Keys;
      var best :| best in left;
      left := left - {best};
      while left != {}
        invariant best in saved && best !in left && left <= saved.Keys
        invariant forall k | k in saved && k !in left :: k <= best
        decreases |left|
      {
        var k :| k in left;
        left := left - {k};
        if best < k {
          best := k;
        }
      }
      assert IsLatest(saved, best);
      assert forall k | IsLatest(saved, k) :: k == best;
      return Some(saved[best]);
    }

    /** The records past the latest checkpoint and the head they continue from. */
    method SearchWithSeed() returns (recs: seq<Entry>, seed: Hash)
      ensures forall phase :: (recs, seed) == Survivors(Value(phase))
      ensures Value(Loaded(recs, seed)) == ReadState(Value(Checked), |log|)
    {
      assert log[..|log|] == log;
      var latest := LatestCheckpoint();
      match latest
      case None =>
        recs, seed := Entries(log, tenant, 0, 0), Genesis;
      case Some(cp) =>
        recs, seed := if cp.boundarySeq <= |log| then Entries(log[cp.boundarySeq..], tenant, cp.count, cp.boundarySeq) else [], cp.boundaryHash;
    }

    method EnsureEvent(cp: Checkpoint, now: Instant) returns (ok: bool)
      modifies this`log
      ensures ok <==> EnsureArchivedEvent(old(log), cp, now).Some?
      ensures log == if ok then EnsureArchivedEvent(old(log), cp, now).value else old(log)
    {
      if Conflicting(log, cp) {
        return false;
      }
      if !Found(log, IdOf(cp)) {
        log := log + [Event(cp.tenant, IdOf(cp), now, PayloadOf(cp))];
      }
      return true;
    }

    /** Write the segment, or accept one already stored, and read it back. */
    method ArchiveSegment(bundle: Bundle, boundary: nat) returns (ok: bool)
      modifies this`archive
      ensures ok <==> overwrite || boundary !in old(archive) || SameSegment(old(archive)[boundary], bundle)
      ensures archive == if overwrite || boundary !in old(archive) then old(archive)[boundary := Whole(bundle)] else old(archive)
    {
      if overwrite || boundary !in archive {
        archive := archive[boundary := Whole(bundle)];
        return true;
      }
      return SameSegment(archive[boundary], bundle);
    }

    /** Before a round: the last checkpoint's source is still there, and so is its announcement. */
    method CheckLatest(now: Instant) returns (ok: bool)
      modifies this`log
      ensures Value(if ok then Checked else Resting) == CheckedState(old(Value(Resting)), now)
    {
      var latest := LatestCheckpoint();
      if latest.None? {
        return true;
      }
      if !SourceRetained(latest.value, log, tenant) {
        return false;
      }
      ok := EnsureEvent(latest.value, now);
    }

    /** One round: check the last checkpoint, cut the largest due prefix that fits, archive it, announce it
        and save its checkpoint. A refusal saves nothing; `Nothing` means no leading record is due. */
    method ArchiveTenant(cutoff: Instant, now: Instant, size: Sizes) returns (r: RoundResult)
      requires Safe(Value(Resting)) && cutoff < now
      modifies this
      ensures Safe(Value(Resting))
      ensures RoundDone(old(Value(Resting)), Value(Resting), r, overwrite, cutoff, now, size)
      ensures r.Moved? ==> size(r.count).Some? && size(r.count).value <= 524_288
      ensures r.Nothing? <==> var recs := Survivors(old(Value(Resting))).0; recs == [] || cutoff < recs[0].core.time
      ensures Advanced(old(Value(Resting)), Value(Resting), if r.Moved? then r.count else 0, if r.Moved? then 1 else 0, cutoff)
    {
      ghost var s := Value(Checked);
      NotAdvanced(Value(Resting), Value(Resting), cutoff);
      CheckIsQuiet(Value(Resting), now);
      SafePhase(Value(Resting), Checked);
      var ok := CheckLatest(now);
      if !ok {
        return Refused;
      }
      assert Value(Checked) == s;
      var recs, seed := SearchWithSeed();
      var cut := ChooseCut(recs, cutoff, size);
      if cut.NothingDue? {
        return Nothing;
      }
      if cut.NoneSignable? {
        return Refused;
      }
      SafeRead(s, |log|);
      ghost var before, l := Value(Resting), Value(Loaded(recs, seed));
      r := Seal(recs, seed, cut.count, cutoff, now);
      SealedRound(before, l, Value(Resting), cut.count, r, overwrite, cutoff, now, size);
    }

    method Seal(recs: seq<Entry>, seed: Hash, fit: nat, cutoff: Instant, now: Instant) returns (r: RoundResult)
      requires Safe(Value(Resting)) && Safe(Value(Loaded(recs, seed))) && cutoff < now
      requires (recs, seed) == Survivors(Value(Loaded(recs, seed))) && 0 < fit <= |recs|
      requires forall i | 0 <= i < fit :: recs[i].core.time <= cutoff
      modifies this
      ensures Safe(Value(Resting))
      ensures Advanced(old(Value(Resting)), Value(Resting), if r.Moved? then fit else 0, if r.Moved? then 1 else 0, cutoff)
      ensures SealDone(old(Value(Loaded(recs, seed))), Value(Resting), fit, overwrite, now, r)
    {
      ghost var l := Value(Loaded(recs, seed));
      HeldUnlessTaken(l, fit, overwrite);
      var stored, cp := Hold(recs, seed, fit);
      if !stored {
        NotAdvanced(old(Value(Resting)), Value(Resting), cutoff);
        return Refused;
      }
      RoundOutcome(l, fit, overwrite, now, cutoff);
      Publish(cp, now);
      return Moved(fit);
    }

    method Hold(recs: seq<Entry>, seed: Hash, fit: nat) returns (stored: bool, cp: Checkpoint)
      requires 0 < fit <= |recs|
      modifies this`archive
      ensures Value(if stored then Held(cp) else Resting) == ArchivedState(old(Value(Loaded(recs, seed))), fit, overwrite)
    {
      var cut := CutOf(tenant, recs, seed, fit);
      cp := cut.1;
      stored := ArchiveSegment(cut.0, cp.count);
    }

    method Publish(cp: Checkpoint, now: Instant)
      requires AnnouncedState(Value(Held(cp)), now).phase.Announced?
      modifies this
      ensures Value(Resting) == SavedState(AnnouncedState(old(Value(Held(cp))), now))
    {
      var told := EnsureEvent(cp, now);
      saved := saved[cp.boundarySeq := cp];
    }

    /** Other writers' events land in the log between rounds. */
    method Receive(arrivals: seq<Event>, ghost cutoff: Instant)
      requires Safe(Value(Resting)) && forall i | 0 <= i < |arrivals| :: Late(arrivals[i], tenant, cutoff)
      modifies this`log
      ensures log == old(log) + arrivals
      ensures Safe(Value(Resting)) && Advanced(old(Value(Resting)), Value(Resting), 0, 0, cutoff)
    {
      ghost var start := Value(Resting);
      NotAdvanced(start, start, cutoff);
      for i := 0 to |arrivals|
        invariant log == old(log) + arrivals[..i]
        invariant Safe(Value(Resting)) && Advanced(start, Value(Resting), 0, 0, cutoff)
      {
        ArrivalKeeps(Value(Resting), arrivals[i], cutoff);
        AdvancedThen(start, Value(Resting), Value(Resting).(log := log + [arrivals[i]]), 0, 0, 0, 0, cutoff);
        log := log + [arrivals[i]];
        assert old(log) + arrivals[..i + 1] == old(log) + arrivals[..i] + [arrivals[i]];
      }
    }

    /** One round, after whatever arrived since the last one. */
    method RunRound(arrivals: seq<Event>, cutoff: Instant, now: Instant, size: Sizes) returns (r: RoundResult)
      requires Safe(Value(Resting)) && cutoff < now && forall i | 0 <= i < |arrivals| :: Late(arrivals[i], tenant, cutoff)
      modifies this
      ensures Safe(Value(Resting))
      ensures Advanced(old(Value(Resting)), Value(Resting), if r.Moved? then r.count else 0, if r.Moved? then 1 else 0, cutoff)
      ensures RoundDone(old(Value(Resting)).(log := old(log) + arrivals), Value(Resting), r, overwrite, cutoff, now, size)
    {
      ghost var a := Value(Resting);
      Receive(arrivals, cutoff);
      ghost var b := Value(Resting);
      r := ArchiveTenant(cutoff, now, size);
      AdvancedThen(a, b, Value(Resting), 0, 0, if r.Moved? then r.count else 0, if r.Moved? then 1 else 0, cutoff);
    }

    /** One round of a pass that has come this far. */
    method NextRound(ghost p: Pass, ghost start: State, ghost states: seq<State>, ghost cuts: seq<nat>, ghost records: nat,
                     ghost segments: nat, arrivals: seq<Event>, cutoff: Instant, now: Instant, size: Sizes)
      returns (r: RoundResult)
      requires Safe(Value(Resting)) && cutoff < now && forall i | 0 <= i < |arrivals| :: Late(arrivals[i], tenant, cutoff)
      requires Drained(p, start, Value(Resting), states, cuts, records, segments)
      requires overwrite == p.overwrite && cutoff == p.cutoff && now == p.clock(segments)
      requires arrivals == p.arrivals(segments) && size == p.sizes(segments)
      modifies this
      ensures Safe(Value(Resting))
      ensures r.Moved? ==>
                && DueNow(Value(Resting), cutoff) < old(DueNow(Value(Resting), cutoff))
                && Drained(p, start, Value(Resting), states + [Value(Resting)], cuts + [r.count], records + r.count, segments + 1)
      ensures !r.Moved? ==>
                && PassDone(p, start, Value(Resting), cuts, r.Nothing?)
                && Advanced(start, Value(Resting), records, segments, cutoff)
      ensures r.Nothing? ==> DueRun(Survivors(Value(Resting)).0, 0, cutoff)
    {
      ghost var before := Value(Resting);
      r := RunRound(arrivals, cutoff, now, size);
      if r.Moved? {
        DrainMoves(p, start, before, Value(Resting), states, cuts, records, segments, r.count);
      } else {
        DrainEnds(p, start, before, Value(Resting), states, cuts, records, segments, r.Nothing?);
      }
    }

    /** Rounds until nothing due leads the served view, or a round refuses. It ends although every round
        appends an announcement and other writers keep appending; its counts are exactly what moved, and every segment
        is the best fit of what was due. */
    method Drain(cutoff: Instant, clock: nat -> Instant, arrivals: nat -> seq<Event>, sizes: nat -> Sizes)
      returns (segments: nat, records: nat, finished: bool, ghost cuts: seq<nat>)
      requires Safe(Value(Resting)) && forall i: nat :: cutoff < clock(i)
      requires forall i: nat, j | 0 <= j < |arrivals(i)| :: Late(arrivals(i)[j], tenant, cutoff)
      modifies this
      ensures Safe(Value(Resting)) && Advanced(old(Value(Resting)), Value(Resting), records, segments, cutoff)
      ensures finished ==> DueRun(Survivors(Value(Resting)).0, 0, cutoff)
      ensures |cuts| == segments
      ensures PassDone(Pass(overwrite, cutoff, clock, arrivals, sizes), old(Value(Resting)), Value(Resting), cuts, finished)
    {
      segments, records, finished, cuts := 0, 0, false, [];
      ghost var p, states, start := Pass(overwrite, cutoff, clock, arrivals, sizes), [Value(Resting)], Value(Resting);
      NotAdvanced(start, start, cutoff);
      while true
        invariant Safe(Value(Resting)) && Drained(p, start, Value(Resting), states, cuts, records, segments)
        decreases DueNow(Value(Resting), cutoff)
      {
        var r := NextRound(p, start, states, cuts, records, segments, arrivals(segments), cutoff, clock(segments), sizes(segments));
        if !r.Moved? {
          finished := r.Nothing?;
          return;
        }
        states, cuts := states + [Value(Resting)], cuts + [r.count];
        segments, records := segments + 1, records + r.count;
      }
    }
  }
}
