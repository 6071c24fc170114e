/**
 Retention's promises over every run: crash safety, splicing and stable hashes.
 */
module RetentionTheorems {
  import opened Clock
  import opened AuditChain
  import opened Retention
  import opened RetentionSafety
  import opened RetentionBooks
  import opened Options

  lemma SafeAppend(s: State, e: Event)
    requires Safe(s) && Enabled(s, Append(e))
    ensures Safe(Apply(s, Append(e)))
  {
    SafeWithLog(s, Apply(s, Append(e)), e);
  }

  lemma SafeSaveStep(s: State)
    requires Safe(s) && s.phase.Announced?
    ensures Safe(SavedState(s))
  {
    SafeSave(s, s.phase.cp);
    SafePhase(s.(saved := s.saved[s.phase.cp.boundarySeq := s.phase.cp]), Resting);
  }

  /** A torn write is safe exactly when no checkpoint is saved at the boundary it hits. */
  lemma TearSafeIffUnsaved(s: State, fit: nat)
    requires Safe(s) && Enabled(s, Tear(fit))
    ensures Safe(Apply(s, Tear(fit))) <==> !SavedAt(s.saved, Cut(s, fit).1.count)
  {
    var a := CutCovered(s, fit);
    TornAt(s, a, Cut(s, fit).1.count);
  }

  lemma TornAt(s: State, a: nat, n: nat)
    requires Safe(s) && SavedAt(s.saved, a) && a < n <= |History(s.log, s.tenant)|
    ensures Safe(s.(archive := s.archive[n := Torn], phase := Resting)) <==> !SavedAt(s.saved, n)
  {
    var s' := s.(archive := s.archive[n := Torn], phase := Resting);
    if SavedAt(s.saved, n) {
      var k :| k in s.saved && s.saved[k].count == n;
      assert !SlotWhole(s'.saved[k].count, s');
    } else {
      SafeWrite(s, a, n, Torn, Resting);
    }
  }

  /** Rebuilding a checkpoint row from its announcement is safe exactly when the announced segment is whole. */
  lemma ProjectionSafeIffWhole(s: State, i: nat)
    requires Safe(s) && Enabled(s, Project(i))
    ensures Safe(Apply(s, Project(i))) <==> SlotWhole(s.log[i].data.count, s)
  {
    var e := s.log[i];
    var cp := CheckpointOf(e);
    var s' := Apply(s, Project(i));
    assert IsArchive(e, s.tenant) && EventOk(e, s.log, s.tenant);
    assert Found(s.log, IdOf(cp));
    if SlotWhole(cp.count, s) {
      SafeSave(s, cp);
    }
    if Safe(s') {
      assert s'.saved[cp.boundarySeq] == cp && SlotWhole(cp.count, s');
      assert SlotWhole(cp.count, s);
    }
  }

  /** A row is rebuilt only for a whole segment, and a write is torn only where no checkpoint is saved. */
  ghost predicate Harmless(s: State, step: Step)
    requires Enabled(s, step)
  {
    match step
    case Project(i) => SlotWhole(s.log[i].data.count, s)
    case Tear(fit) => !SavedAt(s.saved, Cut(s, fit).1.count)
    case _ => true
  }

  lemma SafeStep(s: State, step: Step)
    requires Safe(s) && Enabled(s, step)
    ensures Safe(Apply(s, step)) <==> Harmless(s, step)
  {
    match step
    case Append(e) => SafeAppend(s, e);
    case Check(now) => CheckIsQuiet(s, now); SafePhase(s, Checked);
    case Read(head) => SafeRead(s, head);
    case Archive(fit, overwrite) => SafeArchive(s, fit, overwrite);
    case Tear(fit) => TearSafeIffUnsaved(s, fit);
    case Announce(now) => SafeAnnounce(s, now);
    case Save => SafeSaveStep(s);
    case Crash => SafePhase(s, Resting);
    case Project(i) => ProjectionSafeIffWhole(s, i);
  }

  // ---- announced segments survive unless an overwrite is interrupted ----

  ghost predicate HasWhole(s: State, n: nat) {
    n in s.archive && s.archive[n].Whole?
  }

  /** Without torn writes, archived segments stay and only backed checkpoints are announced. */
  lemma BackedWithoutTears(s: State, s': State)
    requires EventsBacked(s) && SlotsOk(s') && s'.tenant == s.tenant && s.log <= s'.log
    requires forall n | HasWhole(s, n) :: HasWhole(s', n)
    requires forall i | |s.log| <= i < |s'.log| && IsArchive(s'.log[i], s.tenant) && s'.log[i].data.Archived? :: HasWhole(s', s'.log[i].data.count)
    ensures EventsBacked(s')
  {
    forall i | 0 <= i < |s'.log| && IsArchive(s'.log[i], s'.tenant) && s'.log[i].data.Archived?
      ensures SlotWhole(s'.log[i].data.count, s')
    {
      if i < |s.log| {
        assert s'.log[i] == s.log[i];
        assert SlotWhole(s.log[i].data.count, s);
        assert HasWhole(s, s.log[i].data.count);
      }
      assert HasWhole(s', s'.log[i].data.count);
    }
  }

  lemma NewAnnouncementBacked(s: State, s': State, cp: Checkpoint, now: Instant)
    requires EnsureArchivedEvent(s.log, cp, now).Some? && s'.log == EnsureArchivedEvent(s.log, cp, now).value
    requires HasWhole(s', cp.count)
    ensures s.log <= s'.log
    ensures forall i | |s.log| <= i < |s'.log| && s'.log[i].data.Archived? :: HasWhole(s', s'.log[i].data.count)
  {
  }

  lemma BackedCheck(s: State, now: Instant)
    requires Safe(s) && EventsBacked(s) && s.phase.Resting?
    ensures EventsBacked(CheckedState(s, now))
  {
    CheckIsQuiet(s, now);
    SafePhase(s, Checked);
    BackedWithoutTears(s, s.(phase := Checked));
  }

  lemma BackedAnnounce(s: State, now: Instant)
    requires Safe(s) && EventsBacked(s) && s.phase.Held?
    ensures EventsBacked(AnnouncedState(s, now))
  {
    var s' := AnnouncedState(s, now);
    SafeAnnounce(s, now);
    NewAnnouncementBacked(s, s', s.phase.cp, now);
    BackedWithoutTears(s, s');
  }

  lemma BackedAppend(s: State, e: Event)
    requires Safe(s) && EventsBacked(s) && Enabled(s, Append(e))
    ensures EventsBacked(Apply(s, Append(e)))
  {
    SafeAppend(s, e);
    BackedWithoutTears(s, Apply(s, Append(e)));
  }

  lemma BackedArchive(s: State, fit: nat, overwrite: bool)
    requires Safe(s) && EventsBacked(s) && Enabled(s, Archive(fit, overwrite))
    ensures EventsBacked(ArchivedState(s, fit, overwrite))
  {
    SafeArchive(s, fit, overwrite);
    ArchiveKeepsWhole(s, fit, overwrite);
    BackedWithoutTears(s, ArchivedState(s, fit, overwrite));
  }

  lemma ArchiveKeepsWhole(s: State, fit: nat, overwrite: bool)
    requires CanCut(s, fit)
    ensures
      var s' := ArchivedState(s, fit, overwrite);
      s'.tenant == s.tenant && s'.log == s.log && s'.saved == s.saved && forall n | HasWhole(s, n) :: HasWhole(s', n)
  {
  }

  lemma BackedQuiet(s: State, step: Step)
    requires Safe(s) && EventsBacked(s) && Enabled(s, step) && (step.Read? || step.Save? || step.Crash? || step.Project?)
    ensures EventsBacked(Apply(s, step))
  {
    BackedIsHarmless(s, step);
    SafeStep(s, step);
    assert Apply(s, step).log == s.log && Apply(s, step).archive == s.archive;
    BackedWithoutTears(s, Apply(s, step));
  }

  lemma BackedIsHarmless(s: State, step: Step)
    requires EventsBacked(s) && Enabled(s, step) && !step.Tear?
    ensures Harmless(s, step)
  {
    assert step.Project? ==> IsArchive(s.log[step.index], s.tenant);
  }

  lemma BackedStep(s: State, step: Step)
    requires Safe(s) && EventsBacked(s) && Enabled(s, step) && !step.Tear?
    ensures EventsBacked(Apply(s, step))
  {
    match step
    case Append(e) => BackedAppend(s, e);
    case Check(now) => BackedCheck(s, now);
    case Archive(fit, overwrite) => BackedArchive(s, fit, overwrite);
    case Announce(now) => BackedAnnounce(s, now);
    case Read(_) => BackedQuiet(s, step);
    case Save => BackedQuiet(s, step);
    case Crash => BackedQuiet(s, step);
    case Project(_) => BackedQuiet(s, step);
  }

  // ---- every run ----

  ghost predicate HarmlessUpTo(states: seq<State>, steps: seq<Step>, n: nat)
    requires Run(states, steps) && n < |states|
  {
    n == 0 || (HarmlessUpTo(states, steps, n - 1) && Harmless(states[n - 1], steps[n - 1]))
  }

  ghost predicate SafeUpTo(states: seq<State>, n: nat)
    requires n < |states|
  {
    Safe(states[n]) && (n == 0 || SafeUpTo(states, n - 1))
  }

  lemma SafeInitially(s: State)
    requires s.saved == map[] && s.archive == map[] && s.phase == Resting && s.tenant != ""
    requires forall i | 0 <= i < |s.log| :: Foreign(s.log[i], s.tenant)
    ensures Safe(s)
  {
  }

  /** A run is safe up to a state if and only if each row rebuilt so far met a whole segment and no write was torn at
      a boundary already saved. Crashes, reruns and other torn writes do no harm. */
  lemma {:induction false} SafeIffHarmless(states: seq<State>, steps: seq<Step>, n: nat)
    requires Run(states, steps) && n < |states|
    ensures SafeUpTo(states, n) <==> HarmlessUpTo(states, steps, n)
    decreases n
  {
    if n == 0 {
      SafeInitially(states[0]);
    } else {
      SafeIffHarmless(states, steps, n - 1);
      if SafeUpTo(states, n - 1) {
        SafeAcross(states[n - 1], steps[n - 1], states[n]);
      }
    }
  }

  lemma SafeAcross(s: State, step: Step, s': State)
    requires Safe(s) && Enabled(s, step) && s' == Apply(s, step)
    ensures Safe(s') <==> Harmless(s, step)
  {
    SafeStep(s, step);
  }

  /** Without torn writes every projection meets a whole segment. */
  lemma {:induction false} UntornIsHarmless(states: seq<State>, steps: seq<Step>, n: nat)
    requires Run(states, steps) && n < |states| && forall i | 0 <= i < n :: !steps[i].Tear?
    ensures HarmlessUpTo(states, steps, n) && Safe(states[n]) && EventsBacked(states[n])
    decreases n
  {
    if n > 0 {
      UntornIsHarmless(states, steps, n - 1);
      var s, step := states[n - 1], steps[n - 1];
      BackedIsHarmless(s, step);
      BackedStep(s, step);
      SafeStep(s, step);
    }
  }

  lemma BundleVerifies(tenant: string, h: seq<Entry>, a: nat, b: nat)
    requires tenant != "" && a < b <= |h|
    requires forall i | 0 <= i < |h| :: h[i].core.sequence == i + 1 && h[i].core.tenant == tenant
    ensures Verifies(SegmentBundle(tenant, h, a, b))
  {
    SegmentChains(tenant, h, a, b);
    SegmentNumbers(tenant, h, a, b);
  }

  lemma SegmentChains(tenant: string, h: seq<Entry>, a: nat, b: nat)
    requires a <= b <= |h|
    ensures
      var segment := SegmentBundle(tenant, h, a, b);
      ChainIntact(segment.prevHash, segment.records) && segment.head == ChainHead(segment.prevHash, segment.records)
  {
    SealedVerifies(Chain(Genesis, h[..a]), h[a..b]);
    ChainConcat(Genesis, h[..a], h[a..b]);
    assert h[..a] + h[a..b] == h[..b];
  }

  lemma SegmentNumbers(tenant: string, h: seq<Entry>, a: nat, b: nat)
    requires a <= b <= |h|
    requires forall i | 0 <= i < |h| :: h[i].core.sequence == i + 1 && h[i].core.tenant == tenant
    ensures
      var records := SegmentBundle(tenant, h, a, b).records;
      |records| == b - a && forall i | 0 <= i < |records| :: records[i].core.sequence == a + i + 1 && records[i].core.tenant == tenant
  {
    var records := SegmentBundle(tenant, h, a, b).records;
    forall i | 0 <= i < |records|
      ensures records[i].core == h[a + i].core
    {
      assert h[a..b][i] == h[a + i];
    }
  }

  lemma SavedIsArchived(s: State, k: nat)
    requires Safe(s) && k in s.saved
    ensures
      var cp := s.saved[k];
      && cp.count in s.archive && s.archive[cp.count].Whole?
      && Verifies(s.archive[cp.count].bundle) && s.archive[cp.count].bundle.head == cp.boundaryHash
      && cp.boundarySeq <= |s.log| && cp.count == |History(s.log[..cp.boundarySeq], s.tenant)|
  {
    var cp := s.saved[k];
    SoundCuts(cp, s.log, s.tenant);
    assert SlotWhole(cp.count, s);
    SlotVerifies(cp.count, s.archive[cp.count].bundle, s.log, s.tenant, s.saved);
  }

  lemma SlotVerifies(n: nat, b: Bundle, log: Log, tenant: string, saved: map<nat, Checkpoint>)
    requires SlotOk(n, b, History(log, tenant), tenant, saved) && tenant != ""
    ensures Verifies(b) && b.head == Chain(Genesis, History(log, tenant)[..n])
  {
    EntriesNumbered(log, tenant, 0, 0);
    BundleVerifies(tenant, History(log, tenant), n - |b.records|, n);
  }

  /** Whatever crashed and however often it reran: if the rows rebuilt so far met whole segments and no write was torn
      at a saved boundary, a saved checkpoint has a whole, verified segment that ends at its boundary, and exactly
      one matching announcement in the log. */
  lemma RetentionIsCrashSafe(states: seq<State>, steps: seq<Step>, n: nat, k: nat)
    requires Run(states, steps) && n < |states| && HarmlessUpTo(states, steps, n) && k in states[n].saved
    ensures
      var s := states[n];
      var cp := s.saved[k];
      && cp.count in s.archive && s.archive[cp.count].Whole?
      && Verifies(s.archive[cp.count].bundle) && s.archive[cp.count].bundle.head == cp.boundaryHash
      && cp.boundarySeq <= |s.log| && cp.count == |History(s.log[..cp.boundarySeq], s.tenant)|
    ensures AnnouncedOnce(states[n].log, states[n].saved[k])
  {
    assert Safe(states[n]) by {
      SafeIffHarmless(states, steps, n);
    }
    SavedIsArchived(states[n], k);
    SavedIsAnnouncedOnce(states, steps, n, k);
  }

  // ---- the checks and the announcement ----

  /** A checkpoint whose source is no longer all there stops retention: nothing is checked, read or written. */
  lemma PrunedSourceBlocks(s: State, now: Instant, k: nat)
    requires IsLatest(s.saved, k) && s.phase.Resting?
    requires
      var cp := s.saved[k];
      || cp.boundarySeq == 0 || cp.count == 0 || |s.log| < cp.boundarySeq
      || |History(s.log[..cp.boundarySeq], s.tenant)| != cp.count
    ensures CheckedState(s, now) == s
  {
    assert forall j | IsLatest(s.saved, j) :: j == k;
  }

  /** Announcing is exactly once: an event of that name that says anything else refuses, one that says the same is
      left alone, and otherwise the announcement is appended. */
  lemma AnnouncedExactly(log: Log, cp: Checkpoint, now: Instant)
    ensures
      var r := EnsureArchivedEvent(log, cp, now);
      var id := ArchiveId(cp.tenant, cp.boundarySeq, cp.boundaryHash, cp.uri);
      if exists i: nat :: i < |log| && log[i].id == id && !Announces(log, i, cp) then r.None?
      else if exists i: nat :: i < |log| && log[i].id == id then r == Some(log)
      else
        && r.Some? && |r.value| == |log| + 1 && r.value[..|log|] == log
        && Announces(r.value, |log|, cp) && r.value[|log|].time == now
  {
    var id := ArchiveId(cp.tenant, cp.boundarySeq, cp.boundaryHash, cp.uri);
    assert Conflicting(log, cp) <==> exists i: nat :: i < |log| && log[i].id == id && !Announces(log, i, cp) by {
      forall i: nat | i < |log| && log[i].id == id
        ensures Announces(log, i, cp) <==> log[i].tenant == cp.tenant && log[i].data == PayloadOf(cp)
      {
      }
    }
  }

  /** A row rebuilt from its announcement is the checkpoint announced; a crash forgets only what the worker was at. */
  lemma ProjectionRestores(s: State, i: nat, cp: Checkpoint)
    requires Enabled(s, Project(i)) && Announces(s.log, i, cp)
    ensures Apply(s, Project(i)) == s.(saved := s.saved[cp.boundarySeq := cp])
    ensures Apply(s, Crash) == s.(phase := Resting)
  {
  }

  /** What a verified bundle is: a named tenant's records, at least one, numbered without a gap and each linked to the
      one before, from the head stated to the head stated. */
  lemma {:induction false} VerifiedIsContiguous(b: Bundle, i: nat)
    requires Verifies(b) && i < |b.records|
    ensures b.tenant != "" && b.count == |b.records| && b.records[0].core.sequence >= 1
    ensures b.records[i].core.tenant == b.tenant && b.records[i].core.sequence == b.records[0].core.sequence + i
    ensures ChainIntact(b.prevHash, b.records) && b.head == ChainHead(b.prevHash, b.records)
    decreases i
  {
    if i > 0 {
      VerifiedIsContiguous(b, i - 1);
    }
  }

  // ---- splicing ----

  /** The cores reached by walking segments back from boundary `n`. */
  ghost function ArchivedCores(archive: map<nat, Stored>, n: nat): seq<Core> {
    if n in archive && archive[n].Whole? && 0 < |archive[n].bundle.records| <= n
    then ArchivedCores(archive, n - |archive[n].bundle.records|) + Cores(archive[n].bundle.records)
    else []
  }

  lemma EntryCoresSplit(h: seq<Entry>, a: nat, n: nat)
    requires a <= n <= |h|
    ensures EntryCores(h[..n]) == EntryCores(h[..a]) + EntryCores(h[a..n])
  {
  }

  lemma SavedCountHasSlot(s: State, n: nat)
    requires SavedBacked(s) && SavedAt(s.saved, n) && n > 0
    ensures SlotWhole(n, s)
  {
    var k :| k in s.saved && s.saved[k].count == n;
  }

  /** Each segment links onto the head of the segment before it, and the counts add up. */
  lemma SegmentsLink(s: State, n: nat)
    requires Safe(s) && SavedAt(s.saved, n) && n > 0
    ensures SlotWhole(n, s)
    ensures
      var a := n - |s.archive[n].bundle.records|;
      SavedAt(s.saved, a) && (a > 0 ==> SlotWhole(a, s) && s.archive[n].bundle.prevHash == s.archive[a].bundle.head)
  {
    SavedCountHasSlot(s, n);
    var a := n - |s.archive[n].bundle.records|;
    if a > 0 {
      SavedCountHasSlot(s, a);
    }
  }

  /** Walking back from a saved checkpoint, the segments together are the tenant's history up to it. */
  lemma {:induction false} SegmentsSplice(s: State, n: nat)
    requires Safe(s) && SavedAt(s.saved, n)
    ensures n <= |History(s.log, s.tenant)|
    ensures ArchivedCores(s.archive, n) == EntryCores(History(s.log, s.tenant)[..n])
    decreases n
  {
    if n > 0 {
      SegmentsLink(s, n);
      var a := n - |s.archive[n].bundle.records|;
      SegmentsSplice(s, a);
      SegmentCores(s, n, a);
      SpliceOne(s.archive, History(s.log, s.tenant), n, a);
    } else {
      assert History(s.log, s.tenant)[..n] == [];
    }
  }

  lemma SpliceOne(archive: map<nat, Stored>, h: seq<Entry>, n: nat, a: nat)
    requires n in archive && archive[n].Whole? && 0 < |archive[n].bundle.records| <= n <= |h|
    requires a == n - |archive[n].bundle.records| && Cores(archive[n].bundle.records) == EntryCores(h[a..n])
    requires ArchivedCores(archive, a) == EntryCores(h[..a])
    ensures ArchivedCores(archive, n) == EntryCores(h[..n])
  {
    EntryCoresSplit(h, a, n);
  }

  lemma SegmentCores(s: State, n: nat, a: nat)
    requires SlotWhole(n, s) && a == n - |s.archive[n].bundle.records|
    ensures n <= |History(s.log, s.tenant)| && 0 <= a
    ensures Cores(s.archive[n].bundle.records) == EntryCores(History(s.log, s.tenant)[a..n])
  {
  }

  /** The archived segments followed by the live records are the full history. */
  lemma ArchivedHistorySplices(s: State)
    requires Safe(s)
    ensures ArchivedCores(s.archive, Start(s)) + EntryCores(Survivors(s).0) == EntryCores(History(s.log, s.tenant))
  {
    SurvivorsAreSuffix(s);
    SegmentsSplice(s, Start(s));
    WholeSplit(History(s.log, s.tenant), Start(s));
  }

  lemma WholeSplit(h: seq<Entry>, a: nat)
    requires a <= |h|
    ensures EntryCores(h) == EntryCores(h[..a]) + EntryCores(h[a..])
  {
    EntryCoresSplit(h, a, |h|);
    assert h[..|h|] == h && h[a..|h|] == h[a..];
  }

  lemma {:induction false} PrefixChain(states: seq<State>, a: nat, b: nat)
    requires a <= b < |states|
    requires forall i | a <= i < b :: states[i].log <= states[i + 1].log && states[i].tenant == states[i + 1].tenant
    ensures states[a].log <= states[b].log && states[a].tenant == states[b].tenant
    decreases b
  {
    if a < b {
      PrefixChain(states, a, b - 1);
      assert states[b - 1].log <= states[b - 1 + 1].log;
    }
  }

  lemma LogGrows(states: seq<State>, steps: seq<Step>, a: nat, b: nat)
    requires Run(states, steps) && a <= b < |states|
    ensures states[a].log <= states[b].log && states[a].tenant == states[b].tenant
  {
    forall i | a <= i < b
      ensures states[i].log <= states[i + 1].log && states[i].tenant == states[i + 1].tenant
    {
      LogStep(states[i], steps[i]);
    }
    PrefixChain(states, a, b);
  }

  lemma LogStep(s: State, step: Step)
    requires Enabled(s, step)
    ensures s.log <= Apply(s, step).log && s.tenant == Apply(s, step).tenant
  {
  }

  /** The served view shows record `r` with the hash it has in the full chain of an earlier log. */
  ghost predicate ShowsHash(s: State, earlier: Log, tenant: string, r: nat)
    requires r < |History(earlier, tenant)| && Start(s) <= r
  {
    var seen := Survivors(s);
    r - Start(s) < |seen.0| && Sealed(seen.1, seen.0)[r - Start(s)] == Sealed(Genesis, History(earlier, tenant))[r]
  }

  /** A surviving record keeps its hash: the served view after any later retention shows record `r` with
      the hash it had in the full chain when it was written. */
  lemma HashesNeverChange(states: seq<State>, steps: seq<Step>, a: nat, b: nat, r: nat)
    requires Run(states, steps) && a <= b < |states|
    requires r < |History(states[a].log, states[a].tenant)| && Start(states[b]) <= r
    ensures ShowsHash(states[b], states[a].log, states[a].tenant, r)
  {
    assert SavedOk(states[b]) by {
      BooksThroughout(states, steps, b);
    }
    assert states[a].log <= states[b].log && states[a].tenant == states[b].tenant by {
      LogGrows(states, steps, a, b);
    }
    HashKept(states[b], states[a].log, r);
  }

  lemma HashKept(s: State, earlier: Log, r: nat)
    requires SavedOk(s) && earlier <= s.log && r < |History(earlier, s.tenant)| && Start(s) <= r
    ensures ShowsHash(s, earlier, s.tenant, r)
  {
    HistoryPrefix(earlier, s.log, s.tenant);
    SurvivorsAreSuffix(s);
    SeenHash(Survivors(s).0, Survivors(s).1, History(earlier, s.tenant), History(s.log, s.tenant), Start(s), r);
  }

  lemma SeenHash(recs: seq<Entry>, seed: Hash, h: seq<Entry>, more: seq<Entry>, a: nat, r: nat)
    requires h <= more && a <= r < |h| && recs == more[a..] && seed == Chain(Genesis, more[..a])
    ensures r - a < |recs| && Sealed(seed, recs)[r - a] == Sealed(Genesis, h)[r]
  {
    SuffixHash(h, more, a, r);
  }

  lemma SuffixHash(h: seq<Entry>, more: seq<Entry>, a: nat, r: nat)
    requires h <= more && a <= r < |h|
    ensures Sealed(Chain(Genesis, more[..a]), more[a..])[r - a] == Sealed(Genesis, h)[r]
  {
    SurvivingHashesUnchanged(more, a, r - a);
    PrefixHash(h, more, r);
  }

  lemma PrefixHash(h: seq<Entry>, more: seq<Entry>, r: nat)
    requires h <= more && r < |h|
    ensures Sealed(Genesis, more)[r] == Sealed(Genesis, h)[r]
  {
    assert more[..r + 1] == h[..r + 1];
  }

  /** What a create-once archiver accepts as already stored holds exactly the wanted records. */
  lemma AcceptedObjectIsTheSegment(stored: Stored, want: Bundle)
    requires SameSegment(stored, want) && Verifies(want)
    ensures Cores(stored.bundle.records) == Cores(want.records)
  {
    HeadSettlesCores(want.prevHash, stored.bundle.records, want.records);
  }

  /** Some saved checkpoint's segment is not readable. */
  ghost predicate Stranded(s: State) {
    exists k :: k in s.saved && s.saved[k].count in s.archive && s.archive[s.saved[k].count].Torn?
  }

  lemma RunExtends(states: seq<State>, steps: seq<Step>, step: Step)
    requires Run(states, steps) && Enabled(states[|steps|], step)
    ensures Run(states + [Apply(states[|steps|], step)], steps + [step])
  {
    var states', steps' := states + [Apply(states[|steps|], step)], steps + [step];
    assert states'[0] == states[0];
    forall i | 0 <= i < |steps'|
      ensures Enabled(states'[i], steps'[i]) && states'[i + 1] == Apply(states'[i], steps'[i])
    {
    }
  }

  /** Torn overwrites and projection together are not safe: announce, crash, overwrite the same boundary and
      tear it, then rebuild the row from the announcement. The saved checkpoint has no readable segment. */
  lemma TornOverwriteStrandsCheckpoint(tenant: string, e: Event, now: Instant)
    requires tenant != "" && e.tenant == tenant && e.id.OtherId?
    ensures exists states: seq<State>, steps: seq<Step> :: Run(states, steps) && Stranded(states[|states| - 1])
  {
    var states, steps, cp := ReadAgain(tenant, e, now);
    var s6 := states[|steps|];
    RunExtends(states, steps, Tear(1));
    var s7 := Apply(s6, Tear(1));
    states, steps := states + [s7], steps + [Tear(1)];
    assert CheckpointOf(s7.log[1]) == cp;
    RunExtends(states, steps, Project(1));
    states, steps := states + [Apply(s7, Project(1))], steps + [Project(1)];
    var s8 := states[|states| - 1];
    assert cp.boundarySeq in s8.saved && s8.saved[cp.boundarySeq] == cp;
  }

  /** Nor in the other order, where the rebuilt row meets a whole segment: the records are read, then the row is
      rebuilt, and then the overwrite is torn. */
  lemma ProjectionBeforeTearStrandsCheckpoint(tenant: string, e: Event, now: Instant)
    requires tenant != "" && e.tenant == tenant && e.id.OtherId?
    ensures exists states: seq<State>, steps: seq<Step> ::
              && Run(states, steps) && Stranded(states[|states| - 1])
              && forall i | 0 <= i < |steps| && steps[i].Project? :: Harmless(states[i], steps[i])
  {
    var states, steps, cp := ProjectedAgain(tenant, e, now);
    var n := |steps|;
    var last := Apply(states[n], Tear(1));
    assert Run(states + [last], steps + [Tear(1)]) by {
      RunExtends(states, steps, Tear(1));
    }
    states, steps := states + [last], steps + [Tear(1)];
    assert Stranded(last) by {
      assert cp.boundarySeq in last.saved && last.saved[cp.boundarySeq] == cp;
    }
    forall i | 0 <= i < |steps| && steps[i].Project?
      ensures Harmless(states[i], steps[i])
    {
      assert i == n - 1;
    }
  }

  lemma ProjectedAgain(tenant: string, e: Event, now: Instant)
    returns (states: seq<State>, steps: seq<Step>, cp: Checkpoint)
    requires tenant != "" && e.tenant == tenant && e.id.OtherId?
    ensures Run(states, steps) && 0 < |steps|
    ensures forall i | 0 <= i < |steps| && steps[i].Project? :: i == |steps| - 1 && Harmless(states[i], steps[i])
    ensures
      var s := states[|steps|];
      && cp.boundarySeq in s.saved && s.saved[cp.boundarySeq] == cp
      && CanCut(s, 1) && Cut(s, 1).1 == cp
  {
    states, steps, cp := ReadAgain(tenant, e, now);
    var n := |steps|;
    var s := states[n];
    assert CheckpointOf(s.log[1]) == cp;
    assert Harmless(s, Project(1)) by {
      UntornIsHarmless(states, steps, n);
      BackedIsHarmless(s, Project(1));
    }
    assert Run(states + [Apply(s, Project(1))], steps + [Project(1)]) by {
      RunExtends(states, steps, Project(1));
    }
    states, steps := states + [Apply(s, Project(1))], steps + [Project(1)];
  }

  function FirstEntry(e: Event): Entry {
    Entry(Core(1, e.id, e.tenant, e.time, e.data), 1)
  }

  /** The only record's checkpoint. */
  function FirstCheckpoint(e: Event): Checkpoint {
    Checkpoint(e.tenant, 1, Link(Genesis, FirstEntry(e).core), 1, Uri(e.tenant, 1))
  }

  /** Archived and announced, then a crash, and in the next round the records read again. */
  lemma ReadAgain(tenant: string, e: Event, now: Instant)
    returns (states: seq<State>, steps: seq<Step>, cp: Checkpoint)
    requires tenant != "" && e.tenant == tenant && e.id.OtherId?
    ensures Run(states, steps) && (forall i | 0 <= i < |steps| :: !steps[i].Tear? && !steps[i].Project?)
    ensures cp == FirstCheckpoint(e)
    ensures
      var s := states[|steps|];
      && s.tenant == tenant && s.saved == map[] && |s.log| == 2 && s.log[1] == Event(tenant, IdOf(cp), now, PayloadOf(cp))
      && CanCut(s, 1) && Cut(s, 1).1 == cp
  {
    states, steps := AnnouncedThenCrashed(tenant, e, now);
    cp := FirstCheckpoint(e);
    var s4 := states[|steps|];
    RunExtends(states, steps, Check(now));
    var s5 := s4.(phase := Checked);
    states, steps := states + [s5], steps + [Check(now)];
    RunExtends(states, steps, Read(2));
    FirstRead(s5, 2, e);
    states, steps := states + [ReadState(s5, 2)], steps + [Read(2)];
  }

  lemma AnnouncedThenCrashed(tenant: string, e: Event, now: Instant) returns (states: seq<State>, steps: seq<Step>)
    requires tenant != "" && e.tenant == tenant && e.id.OtherId?
    ensures Run(states, steps) && forall i | 0 <= i < |steps| :: !steps[i].Tear? && !steps[i].Project?
    ensures
      var s, cp := states[|steps|], FirstCheckpoint(e);
      && s.tenant == tenant && s.saved == map[] && s.phase.Resting?
      && s.log == [e, Event(tenant, IdOf(cp), now, PayloadOf(cp))]
  {
    var cp := FirstCheckpoint(e);
    var s2 := State(tenant, [e], map[], map[], Resting);
    states, steps := [s2], [];
    RunExtends(states, steps, Check(now));
    s2 := s2.(phase := Checked);
    states, steps := states + [s2], steps + [Check(now)];
    RunExtends(states, steps, Read(1));
    FirstRead(s2, 1, e);
    s2 := ReadState(s2, 1);
    states, steps := states + [s2], steps + [Read(1)];
    RunExtends(states, steps, Archive(1, true));
    s2 := ArchivedState(s2, 1, true);
    states, steps := states + [s2], steps + [Archive(1, true)];
    assert !Found([e], IdOf(cp)) && !Conflicting([e], cp);
    RunExtends(states, steps, Announce(now));
    s2 := AnnouncedState(s2, now);
    states, steps := states + [s2], steps + [Announce(now)];
    RunExtends(states, steps, Crash);
    states, steps := states + [s2.(phase := Resting)], steps + [Crash];
  }

  lemma FirstRead(s: State, head: nat, e: Event)
    requires s.saved == map[] && 0 < head <= |s.log| && s.log[0] == e && e.tenant == s.tenant
    ensures CanCut(ReadState(s, head), 1) && Cut(ReadState(s, head), 1).1 == FirstCheckpoint(e)
  {
    var entry := FirstEntry(e);
    assert [e][..0] == [];
    assert History([e], s.tenant) == [entry];
    HistoryPrefix([e], s.log[..head], s.tenant);
    var recs := ReadState(s, head).phase.recs;
    assert recs == History(s.log[..head], s.tenant) && recs[0] == entry;
    assert recs[..1] == [entry];
    assert [entry][..0 + 1] == [entry] && [entry][..0] == [];
    assert Chain(Genesis, [entry]) == Link(Genesis, entry.core);
    assert Sealed(Genesis, [entry])[0] == Record(entry.core, 1, Link(Genesis, entry.core));
  }
}
