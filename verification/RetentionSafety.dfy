/**
 What every step of retention keeps, and what that says about archived history.
 */
module RetentionSafety {
  import opened Clock
  import opened AuditChain
  import opened Retention

  // ---- growing logs ----

  lemma HistoryPrefix(log: Log, more: Log, tenant: string)
    requires log <= more
    ensures History(log, tenant) <= History(more, tenant)
  {
    HistorySplits(more, tenant, |log|);
    assert more[..|log|] == log;
  }

  lemma SoundGrows(cp: Checkpoint, log: Log, more: Log, tenant: string)
    requires Sound(cp, log, tenant) && log <= more
    ensures Sound(cp, more, tenant)
  {
    assert more[..cp.boundarySeq] == log[..cp.boundarySeq];
  }

  /** A sound checkpoint cuts the tenant's history at its count. */
  lemma SoundCuts(cp: Checkpoint, log: Log, tenant: string)
    requires Sound(cp, log, tenant)
    ensures cp.count <= |History(log, tenant)|
    ensures History(log[..cp.boundarySeq], tenant) == History(log, tenant)[..cp.count]
    ensures Entries(log[cp.boundarySeq..], tenant, cp.count, cp.boundarySeq) == History(log, tenant)[cp.count..]
    ensures cp.boundaryHash == Chain(Genesis, History(log, tenant)[..cp.count])
  {
    HistorySplits(log, tenant, cp.boundarySeq);
  }

  // ---- archive slots ----

  ghost predicate SavedAt(saved: map<nat, Checkpoint>, n: nat) {
    n == 0 || exists k :: k in saved && saved[k].count == n
  }

  /** The bundle stored at boundary `n` is the tenant's history from its start to `n`, and it starts at
      the beginning or at a saved checkpoint. */
  ghost predicate SlotOk(n: nat, b: Bundle, h: seq<Entry>, tenant: string, saved: map<nat, Checkpoint>) {
    && n <= |h| && 0 < |b.records| <= n
    && b == SegmentBundle(tenant, h, n - |b.records|, n)
    && SavedAt(saved, n - |b.records|)
  }

  ghost predicate SlotWhole(n: nat, s: State) {
    n in s.archive && s.archive[n].Whole? && SlotOk(n, s.archive[n].bundle, History(s.log, s.tenant), s.tenant, s.saved)
  }

  lemma SlotGrows(n: nat, b: Bundle, h: seq<Entry>, more: seq<Entry>, tenant: string,
                  saved: map<nat, Checkpoint>, saved': map<nat, Checkpoint>)
    requires SlotOk(n, b, h, tenant, saved) && h <= more
    requires forall k | k in saved :: exists j :: j in saved' && saved'[j].count == saved[k].count
    ensures SlotOk(n, b, more, tenant, saved')
  {
    var a := n - |b.records|;
    assert more[..a] == h[..a] && more[..n] == h[..n] && more[a..n] == h[a..n];
    if a != 0 {
      var k :| k in saved && saved[k].count == a;
      var j :| j in saved' && saved'[j].count == saved[k].count;
    }
  }

  // ---- the invariant ----

  predicate IsArchive(e: Event, tenant: string) {
    e.id.ArchiveId? && (e.tenant == tenant || e.id.tenant == tenant)
  }

  /** An announcement states a sound checkpoint, exactly. */
  ghost predicate EventOk(e: Event, log: Log, tenant: string) {
    && e.tenant == tenant && e.data.Archived?
    && e.id == IdOf(CheckpointOf(e)) && e.data == PayloadOf(CheckpointOf(e))
    && Sound(CheckpointOf(e), log, tenant)
  }

  ghost predicate EventsOk(log: Log, tenant: string) {
    && (forall i | 0 <= i < |log| && IsArchive(log[i], tenant) :: EventOk(log[i], log, tenant))
    && (forall i, j | 0 <= i < j < |log| && IsArchive(log[i], tenant) :: log[i].id != log[j].id)
  }

  ghost predicate SavedOk(s: State) {
    forall k | k in s.saved ::
      s.saved[k].boundarySeq == k && Sound(s.saved[k], s.log, s.tenant) && Found(s.log, IdOf(s.saved[k]))
  }

  /** The records read are a stretch of the history that starts at the beginning or at a saved checkpoint. It need
      not be the latest any more, nor reach the end. */
  ghost predicate LoadedAt(s: State, a: nat) {
    var h := History(s.log, s.tenant);
    && s.phase.Loaded? && a + |s.phase.recs| <= |h| && s.phase.recs == h[a..a + |s.phase.recs|]
    && s.phase.seed == Chain(Genesis, h[..a]) && SavedAt(s.saved, a)
  }

  ghost predicate LoadedOk(s: State) {
    s.phase.Loaded? ==> exists a :: LoadedAt(s, a)
  }

  ghost predicate PhaseOk(s: State) {
    && LoadedOk(s)
    && (s.phase.Held? || s.phase.Announced? ==>
          && Sound(s.phase.cp, s.log, s.tenant) && SlotWhole(s.phase.cp.count, s)
          && (s.phase.Announced? ==> Found(s.log, IdOf(s.phase.cp))))
  }

  ghost predicate SlotsOk(s: State) {
    forall n | n in s.archive && s.archive[n].Whole? :: SlotWhole(n, s)
  }

  /** Every saved checkpoint has its segment. */
  ghost predicate SavedBacked(s: State) {
    forall k | k in s.saved :: SlotWhole(s.saved[k].count, s)
  }

  /** Every announced checkpoint has its segment. */
  ghost predicate EventsBacked(s: State) {
    forall i | 0 <= i < |s.log| && IsArchive(s.log[i], s.tenant) && s.log[i].data.Archived? :: SlotWhole(s.log[i].data.count, s)
  }

  ghost predicate Safe(s: State) {
    s.tenant != "" && EventsOk(s.log, s.tenant) && SavedOk(s) && PhaseOk(s) && SlotsOk(s) && SavedBacked(s)
  }

  // ---- cutting a segment ----

  ghost function Start(s: State): nat {
    match Latest(s.saved)
    case None => 0
    case Some(cp) => cp.count
  }

  lemma SurvivorsAreSuffix(s: State)
    requires SavedOk(s)
    ensures Start(s) <= |History(s.log, s.tenant)| && SavedAt(s.saved, Start(s))
    ensures Survivors(s) == (History(s.log, s.tenant)[Start(s)..], Chain(Genesis, History(s.log, s.tenant)[..Start(s)]))
  {
    var latest := Latest(s.saved);
    if latest.Some? {
      SoundCuts(latest.value, s.log, s.tenant);
    } else {
      assert History(s.log, s.tenant)[0..] == History(s.log, s.tenant);
    }
  }

  /** What a read loads, whatever part of the log it saw. */
  lemma ReadIsStretch(s: State, head: nat)
    requires SavedOk(s) && head <= |s.log|
    ensures LoadedOk(ReadState(s, head))
  {
    var seen, latest := s.log[..head], Latest(s.saved);
    HistoryPrefix(seen, s.log, s.tenant);
    if latest.None? {
      StretchFrom(s, ReadState(s, head), seen, 0);
    } else {
      SoundCuts(latest.value, s.log, s.tenant);
      if latest.value.boundarySeq <= head {
        SoundShrinks(latest.value, s.log, seen, s.tenant);
        SoundCuts(latest.value, seen, s.tenant);
        StretchFrom(s, ReadState(s, head), seen, latest.value.count);
      } else {
        assert LoadedAt(ReadState(s, head), latest.value.count);
      }
    }
  }

  lemma SoundShrinks(cp: Checkpoint, log: Log, seen: Log, tenant: string)
    requires Sound(cp, log, tenant) && seen <= log && cp.boundarySeq <= |seen|
    ensures Sound(cp, seen, tenant)
  {
    assert seen[..cp.boundarySeq] == log[..cp.boundarySeq];
  }

  lemma StretchFrom(s: State, s': State, seen: Log, a: nat)
    requires s'.log == s.log && s'.tenant == s.tenant && s'.saved == s.saved && SavedAt(s.saved, a) && s'.phase.Loaded?
    requires History(seen, s.tenant) <= History(s.log, s.tenant) && a <= |History(seen, s.tenant)|
    requires s'.phase.recs == History(seen, s.tenant)[a..] && s'.phase.seed == Chain(Genesis, History(seen, s.tenant)[..a])
    ensures LoadedAt(s', a)
  {
    var h, more := History(seen, s.tenant), History(s.log, s.tenant);
    assert h[..a] == more[..a] && h[a..] == more[a..|h|];
  }

  /** What was read stays a stretch of the history as the log and the rows grow. */
  lemma LoadedGrows(s: State, s': State)
    requires LoadedOk(s) && s'.tenant == s.tenant && s.log <= s'.log && s'.phase == s.phase
    requires forall k | k in s.saved :: k in s'.saved && s'.saved[k].count == s.saved[k].count
    ensures LoadedOk(s')
  {
    if s.phase.Loaded? {
      var a: nat :| LoadedAt(s, a);
      HistoryPrefix(s.log, s'.log, s.tenant);
      LoadedAtGrows(s, s', a);
    }
  }

  lemma LoadedAtGrows(s: State, s': State, a: nat)
    requires LoadedAt(s, a) && s'.tenant == s.tenant && s'.phase == s.phase
    requires History(s.log, s.tenant) <= History(s'.log, s.tenant)
    requires forall k | k in s.saved :: k in s'.saved && s'.saved[k].count == s.saved[k].count
    ensures LoadedAt(s', a)
  {
    var h, more := History(s.log, s.tenant), History(s'.log, s.tenant);
    var b := a + |s.phase.recs|;
    assert h[..a] == more[..a] && h[a..b] == more[a..b];
  }

  lemma SegmentHead(h: seq<Entry>, a: nat, n: nat)
    requires a < n <= |h|
    ensures
      var segment := Sealed(Chain(Genesis, h[..a]), h[a..n]);
      segment[n - a - 1] == Record(h[n - 1].core, h[n - 1].stream, Chain(Genesis, h[..n]))
  {
    ChainConcat(Genesis, h[..a], h[a..n]);
    assert h[..a] + h[a..n] == h[..n];
    assert h[a..n][..n - a] == h[a..n];
  }

  lemma BoundarySound(log: Log, tenant: string, n: nat)
    requires 0 < n <= |History(log, tenant)|
    ensures
      var h := History(log, tenant);
      h[n - 1].core.sequence == n && Sound(Checkpoint(tenant, h[n - 1].stream, Chain(Genesis, h[..n]), n, Uri(tenant, n)), log, tenant)
  {
    StreamCuts(log, tenant, n - 1);
    EntriesNumbered(log, tenant, 0, 0);
  }

  /** A bundle and checkpoint that cover the history from `a` to `n`. */
  ghost predicate Covers(bundle: Bundle, cp: Checkpoint, log: Log, tenant: string, a: nat, n: nat) {
    var h := History(log, tenant);
    a < n <= |h| && bundle == SegmentBundle(tenant, h, a, n) && cp.count == n && Sound(cp, log, tenant)
  }

  /** The leading `fit` records read are the history from their start on, and their boundary is a sound checkpoint. */
  lemma CutIsSegment(s: State, fit: nat, a: nat)
    requires LoadedAt(s, a) && CanCut(s, fit)
    ensures Covers(Cut(s, fit).0, Cut(s, fit).1, s.log, s.tenant, a, a + fit)
  {
    var h := History(s.log, s.tenant);
    CutOfHistory(s.tenant, h, a, s.phase.recs, fit);
    CutCovers(s.log, s.tenant, a, a + fit, Cut(s, fit));
  }

  lemma CutCovered(s: State, fit: nat) returns (a: nat)
    requires LoadedOk(s) && CanCut(s, fit)
    ensures SavedAt(s.saved, a) && Covers(Cut(s, fit).0, Cut(s, fit).1, s.log, s.tenant, a, Cut(s, fit).1.count)
  {
    a :| LoadedAt(s, a);
    CutIsSegment(s, fit, a);
  }

  function CutAt(tenant: string, h: seq<Entry>, a: nat, n: nat): (Bundle, Checkpoint)
    requires a < n <= |h|
  {
    var last := h[n - 1];
    (SegmentBundle(tenant, h, a, n),
     Checkpoint(tenant, last.stream, Chain(Genesis, h[..n]), last.core.sequence, Uri(tenant, last.core.sequence)))
  }

  lemma CutCovers(log: Log, tenant: string, a: nat, n: nat, cut: (Bundle, Checkpoint))
    requires a < n <= |History(log, tenant)| && cut == CutAt(tenant, History(log, tenant), a, n)
    ensures Covers(cut.0, cut.1, log, tenant, a, n)
  {
    BoundarySound(log, tenant, n);
  }

  lemma CutOfHistory(tenant: string, h: seq<Entry>, a: nat, recs: seq<Entry>, fit: nat)
    requires 0 < fit <= |recs| && a + |recs| <= |h| && recs == h[a..a + |recs|]
    ensures CutOf(tenant, recs, Chain(Genesis, h[..a]), fit) == CutAt(tenant, h, a, a + fit)
  {
    assert recs[..fit] == h[a..a + fit];
    SegmentHead(h, a, a + fit);
  }

  // ---- steps ----

  /** Growing the log, or the saved checkpoints, keeps every slot. */
  lemma SlotKept(n: nat, s: State, s': State)
    requires SlotWhole(n, s) && s'.tenant == s.tenant && s.log <= s'.log
    requires n in s'.archive && s'.archive[n] == s.archive[n]
    requires forall k | k in s.saved :: k in s'.saved && s'.saved[k].count == s.saved[k].count
    ensures SlotWhole(n, s')
  {
    HistoryPrefix(s.log, s'.log, s.tenant);
    SlotGrows(n, s.archive[n].bundle, History(s.log, s.tenant), History(s'.log, s.tenant), s.tenant, s.saved, s'.saved);
  }

  lemma StillFound(log: Log, more: Log, id: EventId)
    requires Found(log, id) && log <= more
    ensures Found(more, id)
  {
    var i :| 0 <= i < |log| && log[i].id == id;
    assert more[i] == log[i];
  }

  lemma EventsGrow(log: Log, e: Event, tenant: string)
    requires EventsOk(log, tenant)
    requires IsArchive(e, tenant) ==> EventOk(e, log, tenant) && !Found(log, e.id)
    ensures EventsOk(log + [e], tenant)
  {
    var more := log + [e];
    forall i | 0 <= i < |more| && IsArchive(more[i], tenant)
      ensures EventOk(more[i], more, tenant)
    {
      SoundGrows(CheckpointOf(more[i]), log, more, tenant);
    }
    forall i, j | 0 <= i < j < |more| && IsArchive(more[i], tenant)
      ensures more[i].id != more[j].id
    {
      assert EventOk(log[i], log, tenant);
      assert Found(log, log[i].id);
      assert log[i].id == e.id ==> IsArchive(e, tenant);
    }
  }

  /** A step that only extends the log keeps the rest. */
  lemma SafeWithLog(s: State, s': State, e: Event)
    requires Safe(s) && s' == s.(log := s.log + [e], phase := s'.phase)
    requires IsArchive(e, s.tenant) ==> EventOk(e, s.log, s.tenant) && !Found(s.log, e.id)
    requires s'.phase == s.phase
             || (s.phase.Held? && s'.phase == Announced(s.phase.cp) && e.id == IdOf(s.phase.cp))
    ensures Safe(s')
  {
    EventsGrow(s.log, e, s.tenant);
    forall k | k in s'.saved
      ensures Sound(s'.saved[k], s'.log, s'.tenant) && Found(s'.log, IdOf(s'.saved[k])) && SlotWhole(s'.saved[k].count, s')
    {
      SoundGrows(s.saved[k], s.log, s'.log, s.tenant);
      StillFound(s.log, s'.log, IdOf(s.saved[k]));
      SlotKept(s.saved[k].count, s, s');
    }
    forall n | n in s'.archive && s'.archive[n].Whole?
      ensures SlotWhole(n, s')
    {
      SlotKept(n, s, s');
    }
    if s'.phase == s.phase {
      LoadedGrows(s, s');
    }
    if s'.phase.Held? || s'.phase.Announced? {
      SoundGrows(s.phase.cp, s.log, s'.log, s.tenant);
      if s.phase.Announced? {
        StillFound(s.log, s'.log, IdOf(s.phase.cp));
      } else if s'.phase.Announced? {
        assert s'.log[|s.log|].id == IdOf(s.phase.cp);
      }
    }
  }

  /** With the invariant, announcing never meets a conflicting event. */
  lemma NoConflict(log: Log, cp: Checkpoint, tenant: string)
    requires EventsOk(log, tenant) && Sound(cp, log, tenant)
    ensures !Conflicting(log, cp)
  {
    forall i | 0 <= i < |log| && log[i].id == IdOf(cp)
      ensures log[i].tenant == cp.tenant && log[i].data == PayloadOf(cp)
    {
      assert EventOk(log[i], log, tenant);
    }
  }

  lemma EnsureKeepsSafe(s: State, s': State, cp: Checkpoint, now: Instant)
    requires Safe(s) && Sound(cp, s.log, s.tenant)
    requires EnsureArchivedEvent(s.log, cp, now).Some?
    requires s' == s.(log := EnsureArchivedEvent(s.log, cp, now).value, phase := s'.phase)
    requires s.phase == Held(cp) && s'.phase == Announced(cp)
    ensures Safe(s')
  {
    if !Found(s.log, IdOf(cp)) {
      var e := Event(cp.tenant, IdOf(cp), now, PayloadOf(cp));
      assert CheckpointOf(e) == cp;
      SafeWithLog(s, s', e);
    }
  }

  /** Changing only the worker's phase, to one that claims nothing, keeps the invariant. */
  lemma SafePhase(s: State, phase: Phase)
    requires Safe(s) && (phase.Resting? || phase.Checked?)
    ensures Safe(s.(phase := phase))
  {
    assert forall n | SlotWhole(n, s) :: SlotWhole(n, s.(phase := phase));
  }

  /** A sound, announced checkpoint passes the checks made before a round, which then change nothing. */
  lemma CheckIsQuiet(s: State, now: Instant)
    requires EventsOk(s.log, s.tenant) && SavedOk(s)
    ensures CheckedState(s, now) == s.(phase := Checked)
  {
    var latest := Latest(s.saved);
    if latest.Some? {
      NoConflict(s.log, latest.value, s.tenant);
    }
  }

  lemma SafeAnnounce(s: State, now: Instant)
    requires Safe(s) && s.phase.Held?
    ensures Safe(AnnouncedState(s, now)) && AnnouncedState(s, now).phase == Announced(s.phase.cp)
  {
    NoConflict(s.log, s.phase.cp, s.tenant);
    EnsureKeepsSafe(s, AnnouncedState(s, now), s.phase.cp, now);
  }

  /** Writing a whole segment is safe anywhere, and a torn one where no checkpoint is saved. */
  lemma SafeWrite(s: State, a: nat, n: nat, content: Stored, phase: Phase)
    requires Safe(s) && SavedAt(s.saved, a) && a < n <= |History(s.log, s.tenant)|
    requires if content.Whole? then content.bundle == SegmentBundle(s.tenant, History(s.log, s.tenant), a, n)
             else !SavedAt(s.saved, n)
    requires phase.Resting? || (phase.Held? && content.Whole? && phase.cp.count == n && Sound(phase.cp, s.log, s.tenant))
    ensures Safe(s.(archive := s.archive[n := content], phase := phase))
  {
    var s' := s.(archive := s.archive[n := content], phase := phase);
    if content.Whole? {
      NewSlot(s, s', a, n);
    }
    SlotsAfterWrite(s, s', n);
    SavedAfterWrite(s, s', n);
    SameRows(s, s');
  }

  lemma NewSlot(s: State, s': State, a: nat, n: nat)
    requires SavedAt(s.saved, a) && a < n <= |History(s.log, s.tenant)|
    requires s'.tenant == s.tenant && s'.log == s.log && s'.saved == s.saved
    requires n in s'.archive && s'.archive[n].Whole?
    requires s'.archive[n].bundle == SegmentBundle(s.tenant, History(s.log, s.tenant), a, n)
    ensures SlotWhole(n, s')
  {
    assert |s'.archive[n].bundle.records| == n - a;
  }

  lemma SameRows(s: State, s': State)
    requires SavedOk(s) && s'.tenant == s.tenant && s'.log == s.log && s'.saved == s.saved
    ensures SavedOk(s')
  {
  }

  lemma SlotsAfterWrite(s: State, s': State, n: nat)
    requires SlotsOk(s) && s'.tenant == s.tenant && s'.log == s.log && s'.saved == s.saved
    requires n in s'.archive && s'.archive == s.archive[n := s'.archive[n]] && (s'.archive[n].Whole? ==> SlotWhole(n, s'))
    ensures SlotsOk(s')
  {
    forall m | m in s'.archive && s'.archive[m].Whole? && m != n
      ensures SlotWhole(m, s')
    {
      OtherSlot(s, s', n, m);
    }
  }

  lemma SavedAfterWrite(s: State, s': State, n: nat)
    requires SavedBacked(s)
    requires s'.tenant == s.tenant && s'.log == s.log && s'.saved == s.saved
    requires n in s'.archive && s'.archive == s.archive[n := s'.archive[n]] && (SlotWhole(n, s') || !SavedAt(s.saved, n))
    ensures SavedBacked(s')
  {
    forall k | k in s'.saved
      ensures SlotWhole(s'.saved[k].count, s')
    {
      assert SlotWhole(s.saved[k].count, s);
      if s.saved[k].count != n {
        OtherSlot(s, s', n, s.saved[k].count);
      }
    }
  }

  /** Writing one slot leaves the others as they were. */
  lemma OtherSlot(s: State, s': State, n: nat, m: nat)
    requires SlotWhole(m, s) && m != n
    requires s'.tenant == s.tenant && s'.log == s.log && s'.saved == s.saved
    requires n in s'.archive && s'.archive == s.archive[n := s'.archive[n]]
    ensures SlotWhole(m, s')
  {
  }

  lemma SafeArchive(s: State, fit: nat, overwrite: bool)
    requires Safe(s) && CanCut(s, fit)
    ensures Safe(ArchivedState(s, fit, overwrite))
  {
    var a := CutCovered(s, fit);
    SafeStored(s, a, Cut(s, fit).0, Cut(s, fit).1, overwrite);
  }

  lemma SafeStored(s: State, a: nat, bundle: Bundle, cp: Checkpoint, overwrite: bool)
    requires Safe(s) && SavedAt(s.saved, a) && Covers(bundle, cp, s.log, s.tenant, a, cp.count)
    ensures Safe(StoredState(s, bundle, cp, overwrite))
  {
    if overwrite || cp.count !in s.archive {
      SafeWrite(s, a, cp.count, Whole(bundle), Held(cp));
    } else {
      SafePhase(s, Resting);
      if SameSegment(s.archive[cp.count], bundle) {
        SafeHold(s, cp);
      }
    }
  }

  /** Holding a checkpoint whose segment is there. */
  lemma SafeHold(s: State, cp: Checkpoint)
    requires Safe(s) && Sound(cp, s.log, s.tenant) && cp.count in s.archive && s.archive[cp.count].Whole?
    ensures Safe(s.(phase := Held(cp)))
  {
    assert SlotWhole(cp.count, s);
    assert forall n | SlotWhole(n, s) :: SlotWhole(n, s.(phase := Held(cp)));
  }

  lemma SafeRead(s: State, head: nat)
    requires Safe(s) && head <= |s.log|
    ensures Safe(ReadState(s, head))
  {
    var s' := ReadState(s, head);
    ReadIsStretch(s, head);
    assert forall n | SlotWhole(n, s) :: SlotWhole(n, s');
    SameRows(s, s');
  }

  lemma BoundarySettlesCount(a: Checkpoint, b: Checkpoint, log: Log, tenant: string)
    requires Sound(a, log, tenant) && Sound(b, log, tenant) && a.boundarySeq == b.boundarySeq
    ensures a == b
  {
  }

  /** Saving a checkpoint that is sound, announced and backed. */
  lemma SafeSave(s: State, cp: Checkpoint)
    requires Safe(s) && Sound(cp, s.log, s.tenant) && Found(s.log, IdOf(cp)) && SlotWhole(cp.count, s)
    ensures Safe(s.(saved := s.saved[cp.boundarySeq := cp]))
  {
    if cp.boundarySeq in s.saved {
      SavedAlready(s, cp);
    } else {
      SafeSaveNew(s, s.(saved := s.saved[cp.boundarySeq := cp]), cp);
    }
  }

  lemma SavedAlready(s: State, cp: Checkpoint)
    requires SavedOk(s) && Sound(cp, s.log, s.tenant) && cp.boundarySeq in s.saved
    ensures s.(saved := s.saved[cp.boundarySeq := cp]) == s
  {
    BoundarySettlesCount(cp, s.saved[cp.boundarySeq], s.log, s.tenant);
    assert s.saved[cp.boundarySeq := cp] == s.saved;
  }

  lemma SafeSaveNew(s: State, s': State, cp: Checkpoint)
    requires Safe(s) && Sound(cp, s.log, s.tenant) && Found(s.log, IdOf(cp)) && SlotWhole(cp.count, s)
    requires cp.boundarySeq !in s.saved && s' == s.(saved := s.saved[cp.boundarySeq := cp])
    ensures Safe(s')
  {
    SlotsWithNewCheckpoint(s, s', cp);
    BackedWithNewCheckpoint(s, s', cp);
    PhaseWithNewCheckpoint(s, s', cp);
    assert SavedOk(s');
  }

  lemma PhaseWithNewCheckpoint(s: State, s': State, cp: Checkpoint)
    requires PhaseOk(s) && cp.boundarySeq !in s.saved && s' == s.(saved := s.saved[cp.boundarySeq := cp])
    requires forall n :: SlotWhole(n, s) ==> SlotWhole(n, s')
    ensures PhaseOk(s')
  {
    LoadedGrows(s, s');
  }

  lemma BackedWithNewCheckpoint(s: State, s': State, cp: Checkpoint)
    requires SavedBacked(s) && SlotsOk(s) && SlotWhole(cp.count, s)
    requires s' == s.(saved := s.saved[cp.boundarySeq := cp])
    requires forall n :: SlotWhole(n, s) ==> SlotWhole(n, s')
    ensures SavedBacked(s') && SlotsOk(s')
  {
    forall k | k in s'.saved
      ensures SlotWhole(s'.saved[k].count, s')
    {
      assert k != cp.boundarySeq ==> SlotWhole(s.saved[k].count, s);
    }
    forall n | n in s'.archive && s'.archive[n].Whole?
      ensures SlotWhole(n, s')
    {
      assert SlotWhole(n, s);
    }
  }

  lemma SlotsWithNewCheckpoint(s: State, s': State, cp: Checkpoint)
    requires cp.boundarySeq !in s.saved && s' == s.(saved := s.saved[cp.boundarySeq := cp])
    ensures forall n :: SlotWhole(n, s) ==> SlotWhole(n, s')
  {
    forall n | SlotWhole(n, s)
      ensures SlotWhole(n, s')
    {
      SlotKept(n, s, s');
    }
  }
}
