/**
 The books of retention: announcements and checkpoint rows. Every step keeps them true of the log, whatever
 becomes of the archived files.
 */
module RetentionBooks {
  import opened Clock
  import opened AuditChain
  import opened Retention
  import opened RetentionSafety

  ghost predicate PhaseSound(s: State) {
    && LoadedOk(s)
    && (s.phase.Held? || s.phase.Announced? ==>
          Sound(s.phase.cp, s.log, s.tenant) && (s.phase.Announced? ==> Found(s.log, IdOf(s.phase.cp))))
  }

  /** Announcements and rows are sound checkpoints of the log, and every row has its announcement. */
  ghost predicate Books(s: State) {
    s.tenant != "" && EventsOk(s.log, s.tenant) && SavedOk(s) && PhaseSound(s)
  }

  lemma BooksWithLog(s: State, s': State, e: Event)
    requires Books(s) && s' == s.(log := s.log + [e], phase := s'.phase)
    requires IsArchive(e, s.tenant) ==> EventOk(e, s.log, s.tenant) && !Found(s.log, e.id)
    requires s'.phase == s.phase
             || (s.phase.Held? && s'.phase == Announced(s.phase.cp) && e.id == IdOf(s.phase.cp))
    ensures Books(s')
  {
    EventsGrow(s.log, e, s.tenant);
    forall k | k in s'.saved
      ensures Sound(s'.saved[k], s'.log, s'.tenant) && Found(s'.log, IdOf(s'.saved[k]))
    {
      SoundGrows(s.saved[k], s.log, s'.log, s.tenant);
      StillFound(s.log, s'.log, IdOf(s.saved[k]));
    }
    if s'.phase == s.phase {
      LoadedGrows(s, s');
    }
    if s'.phase.Held? || s'.phase.Announced? {
      SoundGrows(s.phase.cp, s.log, s'.log, s.tenant);
      if s.phase.Announced? {
        StillFound(s.log, s'.log, IdOf(s.phase.cp));
      } else if s'.phase.Announced? {
        assert s'.log[|s.log|].id == IdOf(s.phase.cp);
      }
    }
  }

  lemma BooksAnnounce(s: State, now: Instant)
    requires Books(s) && s.phase.Held?
    ensures Books(AnnouncedState(s, now))
  {
    var cp := s.phase.cp;
    NoConflict(s.log, cp, s.tenant);
    if !Found(s.log, IdOf(cp)) {
      var e := Event(cp.tenant, IdOf(cp), now, PayloadOf(cp));
      assert CheckpointOf(e) == cp;
      BooksWithLog(s, AnnouncedState(s, now), e);
    }
  }

  lemma BooksArchive(s: State, fit: nat, overwrite: bool)
    requires Books(s) && CanCut(s, fit)
    ensures Books(ArchivedState(s, fit, overwrite))
  {
    var _ := CutCovered(s, fit);
    ArchivedPhase(s, fit, overwrite);
    SameRows(s, ArchivedState(s, fit, overwrite));
  }

  /** Archiving changes only the archive and the phase. */
  lemma ArchivedPhase(s: State, fit: nat, overwrite: bool)
    requires CanCut(s, fit)
    ensures
      var s' := ArchivedState(s, fit, overwrite);
      && s'.tenant == s.tenant && s'.log == s.log && s'.saved == s.saved
      && (s'.phase.Resting? || s'.phase == Held(Cut(s, fit).1))
  {
  }

  /** A row for a sound, announced checkpoint. */
  lemma BooksSave(s: State, cp: Checkpoint, phase: Phase)
    requires Books(s) && Sound(cp, s.log, s.tenant) && Found(s.log, IdOf(cp))
    requires phase == s.phase || phase.Resting?
    ensures Books(s.(saved := s.saved[cp.boundarySeq := cp], phase := phase))
  {
    var s' := s.(saved := s.saved[cp.boundarySeq := cp], phase := phase);
    RowsWith(s, s', cp);
    if phase == s.phase {
      LoadedGrows(s, s');
    }
  }

  lemma RowsWith(s: State, s': State, cp: Checkpoint)
    requires SavedOk(s) && Sound(cp, s.log, s.tenant) && Found(s.log, IdOf(cp))
    requires s'.tenant == s.tenant && s'.log == s.log && s'.saved == s.saved[cp.boundarySeq := cp]
    ensures SavedOk(s')
    ensures forall k | k in s.saved :: k in s'.saved && s'.saved[k].count == s.saved[k].count
  {
    if cp.boundarySeq in s.saved {
      BoundarySettlesCount(cp, s.saved[cp.boundarySeq], s.log, s.tenant);
    }
  }

  lemma BooksRead(s: State, head: nat)
    requires Books(s) && head <= |s.log|
    ensures Books(ReadState(s, head))
  {
    ReadIsStretch(s, head);
    SameRows(s, ReadState(s, head));
  }

  lemma BooksProject(s: State, i: nat)
    requires Books(s) && Enabled(s, Project(i))
    ensures Books(Apply(s, Project(i)))
  {
    var e := s.log[i];
    assert IsArchive(e, s.tenant) && EventOk(e, s.log, s.tenant);
    assert Found(s.log, IdOf(CheckpointOf(e)));
    BooksSave(s, CheckpointOf(e), s.phase);
  }

  lemma BooksStep(s: State, step: Step)
    requires Books(s) && Enabled(s, step)
    ensures Books(Apply(s, step))
  {
    match step
    case Append(e) => BooksWithLog(s, Apply(s, step), e);
    case Check(now) => CheckIsQuiet(s, now); SameRows(s, s.(phase := Checked));
    case Read(head) => BooksRead(s, head);
    case Archive(fit, overwrite) => BooksArchive(s, fit, overwrite);
    case Tear(_) => SameRows(s, Apply(s, step));
    case Announce(now) => BooksAnnounce(s, now);
    case Save => BooksSave(s, s.phase.cp, Resting);
    case Crash => SameRows(s, Apply(s, step));
    case Project(i) => BooksProject(s, i);
  }

  lemma {:induction false} BooksThroughout(states: seq<State>, steps: seq<Step>, n: nat)
    requires Run(states, steps) && n < |states|
    ensures Books(states[n])
    decreases n
  {
    if n > 0 {
      BooksThroughout(states, steps, n - 1);
      BooksStep(states[n - 1], steps[n - 1]);
    }
  }

  // ---- exactly one announcement ----

  /** The checkpoint has its announcement in the log, and no other event bears its name. */
  ghost predicate AnnouncedOnce(log: Log, cp: Checkpoint) {
    exists i: nat :: Announces(log, i, cp) && forall j | 0 <= j < |log| && log[j].id == log[i].id :: j == i
  }

  /** The event names the checkpoint by tenant, boundary, hash and location, and states it in full, with the source
      history retained. */
  ghost predicate Announces(log: Log, i: nat, cp: Checkpoint) {
    && i < |log| && log[i].tenant == cp.tenant
    && log[i].id == ArchiveId(cp.tenant, cp.boundarySeq, cp.boundaryHash, cp.uri)
    && log[i].data == Archived(cp.count, cp.boundarySeq, cp.boundaryHash, cp.uri, true)
  }

  /** In every run, whatever was torn or rebuilt, a saved checkpoint is a true boundary of the tenant's history
      with exactly one matching announcement. */
  lemma SavedIsAnnouncedOnce(states: seq<State>, steps: seq<Step>, n: nat, k: nat)
    requires Run(states, steps) && n < |states| && k in states[n].saved
    ensures AnnouncedOnce(states[n].log, states[n].saved[k])
    ensures
      var s, cp := states[n], states[n].saved[k];
      && cp.boundarySeq <= |s.log| && cp.count == |History(s.log[..cp.boundarySeq], s.tenant)|
      && cp.boundaryHash == Chain(Genesis, History(s.log[..cp.boundarySeq], s.tenant))
  {
    BooksThroughout(states, steps, n);
    var s, cp := states[n], states[n].saved[k];
    SoundCuts(cp, s.log, s.tenant);
    var i :| 0 <= i < |s.log| && s.log[i].id == IdOf(cp);
    assert EventOk(s.log[i], s.log, s.tenant);
    assert Announces(s.log, i, cp);
    forall j | 0 <= j < |s.log| && s.log[j].id == IdOf(cp)
      ensures j == i
    {
      assert IsArchive(s.log[j], s.tenant);
    }
  }
}
