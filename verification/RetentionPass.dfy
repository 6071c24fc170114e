/**
 One retention pass for a tenant: find the leading due run, search for the largest prefix that
 fits the signer, seal it, and repeat until nothing due is left.
 */
module RetentionPass {
  import opened Clock
  import opened AuditChain
  import opened Retention
  import opened RetentionSafety
  import RetentionTheorems
  import opened Options

  const MAX_PAYLOAD := 524_288

  // ---- the leading due run ----

  predicate DueRun(recs: seq<Entry>, k: nat, cutoff: Instant) {
    && k <= |recs|
    && (forall i | 0 <= i < k :: recs[i].core.time <= cutoff)
    && (k < |recs| ==> cutoff < recs[k].core.time)
  }

  method LeadingDue(recs: seq<Entry>, cutoff: Instant) returns (k: nat)
    ensures DueRun(recs, k, cutoff)
  {
    k := 0;
    while k < |recs| && recs[k].core.time <= cutoff
      invariant 0 <= k <= |recs|
      invariant forall i | 0 <= i < k :: recs[i].core.time <= cutoff
    {
      k := k + 1;
    }
  }

  // ---- the largest prefix that fits ----

  /** The marshalled size of a prefix, or nothing when marshalling it fails. */
  type Sizes = nat -> Option<nat>

  predicate Fits(size: Sizes, m: nat) {
    size(m).Some? && size(m).value <= MAX_PAYLOAD
  }

  predicate TooBig(size: Sizes, m: nat) {
    size(m).Some? && MAX_PAYLOAD < size(m).value
  }

  ghost predicate Monotone(size: Sizes, k: nat) {
    forall a, b | 1 <= a <= b <= k :: size(a).Some? && size(b).Some? && size(a).value <= size(b).value
  }

  datatype Fit = Fit(count: nat) | NoFit | MarshalFailed

  /** Of `k` due records, the leading `n` fit the signer and one more would not: or, when sizes grow with the prefix,
      no longer prefix would. */
  ghost predicate BestFit(size: Sizes, k: nat, n: nat) {
    && 0 < n <= k && Fits(size, n) && (n < k ==> TooBig(size, n + 1))
    && (Monotone(size, k) ==> forall m | n < m <= k :: !Fits(size, m))
  }

  /** The leading `n` records are due and are the best fit among those that are. */
  ghost predicate BestDue(recs: seq<Entry>, cutoff: Instant, size: Sizes, n: nat) {
    exists k :: DueRun(recs, k, cutoff) && BestFit(size, k, n)
  }

  /** No prefix of the due run can be signed: the first record alone is too big, or a prefix cannot be marshalled. */
  ghost predicate NoneFits(recs: seq<Entry>, cutoff: Instant, size: Sizes) {
    exists k :: 0 < k && DueRun(recs, k, cutoff) && (TooBig(size, 1) || exists m :: 1 <= m <= k && size(m).None?)
  }

  /** Whatever the sizes, the prefix chosen fits and the next longer one does not; if none is chosen the
      first record alone is too big. When sizes grow with the prefix the choice is the largest that fits. */
  method LargestFit(k: nat, size: Sizes) returns (r: Fit)
    requires k > 0
    ensures r.Fit? ==> 0 < r.count <= k && Fits(size, r.count) && (r.count < k ==> TooBig(size, r.count + 1))
    ensures r.NoFit? ==> TooBig(size, 1)
    ensures r.MarshalFailed? ==> exists m :: 1 <= m <= k && size(m).None?
    ensures r.Fit? && Monotone(size, k) ==> forall m | r.count < m <= k :: !Fits(size, m)
    ensures r.NoFit? && Monotone(size, k) ==> forall m | 1 <= m <= k :: !Fits(size, m)
  {
    var low, high, fit := 1, k, 0;
    while low <= high
      invariant 1 <= low && low == fit + 1 && low <= high + 1 && high <= k
      invariant fit > 0 ==> Fits(size, fit)
      invariant high < k ==> TooBig(size, high + 1)
      decreases high + 1 - low
    {
      var middle := low + (high - low) / 2;
      var n := size(middle);
      if n.None? {
        return MarshalFailed;
      }
      if n.value <= MAX_PAYLOAD {
        fit := middle;
        low := middle + 1;
      } else {
        high := middle - 1;
      }
    }
    if fit == 0 {
      return NoFit;
    }
    return Fit.Fit(fit);
  }

  datatype Choice = CutAt(count: nat) | NothingDue | NoneSignable

  /** What a round takes of the records read: the best fit of the due run; nothing when no leading record is due; and
      nothing, refused, when none can be signed. */
  method ChooseCut(recs: seq<Entry>, cutoff: Instant, size: Sizes) returns (c: Choice)
    ensures c.CutAt? ==>
              && BestDue(recs, cutoff, size, c.count) && 0 < c.count <= |recs|
              && (forall i | 0 <= i < c.count :: recs[i].core.time <= cutoff)
              && size(c.count).Some? && size(c.count).value <= 524_288
    ensures c.NoneSignable? ==> NoneFits(recs, cutoff, size)
    ensures c.NothingDue? <==> recs == [] || cutoff < recs[0].core.time
    ensures c.NothingDue? <==> DueRun(recs, 0, cutoff)
  {
    var k := LeadingDue(recs, cutoff);
    if k == 0 {
      return NothingDue;
    }
    var fit := LargestFit(k, size);
    if !fit.Fit? {
      return NoneSignable;
    }
    assert BestFit(size, k, fit.count);
    return CutAt(fit.count);
  }

  // ---- counting what is due ----

  /** How many entries from position `a` on are at or before the cutoff. */
  function Due(h: seq<Entry>, a: nat, cutoff: Instant): nat
    requires a <= |h|
    decreases |h| - a
  {
    if a == |h| then 0 else (if h[a].core.time <= cutoff then 1 else 0) + Due(h, a + 1, cutoff)
  }

  lemma {:induction false} DueAfterRun(h: seq<Entry>, a: nat, n: nat, cutoff: Instant)
    requires a + n <= |h| && forall i | a <= i < a + n :: h[i].core.time <= cutoff
    ensures Due(h, a, cutoff) == n + Due(h, a + n, cutoff)
    decreases n
  {
    if n > 0 {
      DueAfterRun(h, a + 1, n - 1, cutoff);
    }
  }

  lemma {:induction false} DueIgnoresLater(h: seq<Entry>, late: seq<Entry>, a: nat, cutoff: Instant)
    requires a <= |h| && forall i | 0 <= i < |late| :: cutoff < late[i].core.time
    ensures Due(h + late, a, cutoff) == Due(h, a, cutoff)
    decreases |h + late| - a
  {
    if a < |h| {
      DueIgnoresLater(h, late, a + 1, cutoff);
    } else if late != [] {
      NoneDue(h + late, a, cutoff);
    }
  }

  lemma {:induction false} NoneDue(h: seq<Entry>, a: nat, cutoff: Instant)
    requires a <= |h| && forall i | a <= i < |h| :: cutoff < h[i].core.time
    ensures Due(h, a, cutoff) == 0
    decreases |h| - a
  {
    if a < |h| {
      NoneDue(h, a + 1, cutoff);
    }
  }

  // ---- one round, as state ----

  ghost function DueNow(s: State, cutoff: Instant): nat
    requires SavedOk(s)
  {
    SurvivorsAreSuffix(s);
    Due(History(s.log, s.tenant), Start(s), cutoff)
  }

  /** What was read is still all there is to archive. */
  ghost predicate Current(s: State) {
    s.phase.Loaded? && Survivors(s) == (s.phase.recs, s.phase.seed)
  }

  lemma CurrentFromStart(s: State)
    requires SavedOk(s) && Current(s)
    ensures LoadedAt(s, Start(s))
  {
    SurvivorsAreSuffix(s);
    StretchFrom(s, s, s.log, Start(s));
  }

  /** The state after a round that seals the leading `fit` records read. */
  function Round(s: State, fit: nat, overwrite: bool, now: Instant): State
    requires CanCut(s, fit) && ArchivedState(s, fit, overwrite).phase.Held?
  {
    var told := AnnouncedState(ArchivedState(s, fit, overwrite), now);
    if told.phase.Announced? then SavedState(told) else told
  }

  /** Before a round, the machine's own steps: check, and read all there is. */
  lemma CheckThenRead(s: State, now: Instant, l: State)
    requires EventsOk(s.log, s.tenant) && SavedOk(s) && s.phase.Resting? && l == s.(phase := Loaded(Survivors(s).0, Survivors(s).1))
    ensures Leads(s, Check(now), s.(phase := Checked)) && Leads(s.(phase := Checked), Read(|s.log|), l)
  {
    CheckIsQuiet(s, now);
    ReadIsAll(s.(phase := Checked), l);
  }

  /** And a round whose announcement is not refused is the machine's own steps: archive, announce, save. */
  lemma RoundIsPath(l: State, fit: nat, overwrite: bool, now: Instant)
    requires CanCut(l, fit) && ArchivedState(l, fit, overwrite).phase.Held?
    requires AnnouncedState(ArchivedState(l, fit, overwrite), now).phase.Announced?
    ensures
      var c := ArchivedState(l, fit, overwrite);
      var d := AnnouncedState(c, now);
      Leads(l, Archive(fit, overwrite), c) && Leads(c, Announce(now), d) && Leads(d, Save, Round(l, fit, overwrite, now))
  {
  }

  ghost predicate Leads(s: State, step: Step, s': State) {
    Enabled(s, step) && Apply(s, step) == s'
  }

  lemma ReadIsAll(s: State, l: State)
    requires l == s.(phase := Loaded(Survivors(s).0, Survivors(s).1))
    ensures ReadState(s, |s.log|) == l
  {
    assert s.(log := s.log[..|s.log|]) == s;
  }

  lemma NewestWins(saved: map<nat, Checkpoint>, cp: Checkpoint)
    requires forall k | k in saved :: k < cp.boundarySeq
    ensures Latest(saved[cp.boundarySeq := cp]) == Some(cp)
    ensures |saved[cp.boundarySeq := cp]| == |saved| + 1
  {
    var saved' := saved[cp.boundarySeq := cp];
    assert IsLatest(saved', cp.boundarySeq);
    assert forall k | IsLatest(saved', k) :: k == cp.boundarySeq;
  }

  lemma CutIsBeyond(s: State, fit: nat)
    requires SavedOk(s) && Current(s) && CanCut(s, fit)
    ensures forall k | k in s.saved :: k < Cut(s, fit).1.boundarySeq
  {
    var latest := Latest(s.saved);
    if latest.Some? {
      var cp := latest.value;
      SoundCuts(cp, s.log, s.tenant);
      EntriesNumbered(s.log[cp.boundarySeq..], s.tenant, cp.count, cp.boundarySeq);
      assert Survivors(s).0[fit - 1].stream > cp.boundarySeq;
    }
  }

  lemma HeldIsCut(s: State, fit: nat, overwrite: bool)
    requires CanCut(s, fit) && ArchivedState(s, fit, overwrite).phase.Held?
    ensures
      var held := ArchivedState(s, fit, overwrite);
      held.phase.cp == Cut(s, fit).1 && held.saved == s.saved && held.log == s.log && held.tenant == s.tenant
  {
  }

  /** A round is the archive, announce and save steps in order, so it keeps the invariant. */
  lemma RoundIsSafe(s: State, fit: nat, overwrite: bool, now: Instant)
    requires Safe(s) && CanCut(s, fit) && ArchivedState(s, fit, overwrite).phase.Held?
    ensures Safe(Round(s, fit, overwrite, now))
  {
    var held := ArchivedState(s, fit, overwrite);
    SafeArchive(s, fit, overwrite);
    SafeAnnounce(held, now);
    RetentionTheorems.SafeSaveStep(AnnouncedState(held, now));
  }

  /** It adds at most its own announcement to the log, and exactly its checkpoint to those saved. */
  lemma RoundAdds(s: State, fit: nat, overwrite: bool, now: Instant)
    requires Safe(s) && CanCut(s, fit) && ArchivedState(s, fit, overwrite).phase.Held?
    ensures
      var s' := Round(s, fit, overwrite, now);
      var cp := Cut(s, fit).1;
      && s'.saved == s.saved[cp.boundarySeq := cp] && s'.tenant == s.tenant && s'.phase.Resting?
      && (s'.log == s.log || exists e: Event :: s'.log == s.log + [e] && e.time == now)
  {
    SafeArchive(s, fit, overwrite);
    HeldIsCut(s, fit, overwrite);
    AnnounceAdds(ArchivedState(s, fit, overwrite), now);
  }

  lemma AnnounceAdds(s: State, now: Instant)
    requires Safe(s) && s.phase.Held?
    ensures
      var told := AnnouncedState(s, now);
      && told.phase == Announced(s.phase.cp) && told.saved == s.saved && told.tenant == s.tenant
      && (told.log == s.log || exists e: Event :: told.log == s.log + [e] && e.time == now)
  {
    NoConflict(s.log, s.phase.cp, s.tenant);
  }

  /** The served view now starts exactly `fit` records later. */
  lemma RoundMoves(s: State, fit: nat, overwrite: bool, now: Instant)
    requires Safe(s) && Current(s) && CanCut(s, fit) && ArchivedState(s, fit, overwrite).phase.Held?
    ensures Start(Round(s, fit, overwrite, now)) == Start(s) + fit
    ensures |Round(s, fit, overwrite, now).saved| == |s.saved| + 1
  {
    RoundAdds(s, fit, overwrite, now);
    CutIsBeyond(s, fit);
    NewestWins(s.saved, Cut(s, fit).1);
    StartFromLatest(Round(s, fit, overwrite, now), Cut(s, fit).1);
    CurrentFromStart(s);
    CutIsSegment(s, fit, Start(s));
  }

  lemma StartFromLatest(s: State, cp: Checkpoint)
    requires Latest(s.saved) == Some(cp)
    ensures Start(s) == cp.count
  {
  }

  lemma DueMoved(s: State, s': State, fit: nat, now: Instant, cutoff: Instant)
    requires SavedOk(s) && SavedOk(s') && s'.tenant == s.tenant && fit <= |Survivors(s).0| && Start(s') == Start(s) + fit
    requires s'.log == s.log || exists e: Event :: s'.log == s.log + [e] && e.time == now
    requires cutoff < now && forall i | 0 <= i < fit :: Survivors(s).0[i].core.time <= cutoff
    ensures DueNow(s', cutoff) + fit == DueNow(s, cutoff)
  {
    SurvivorsAreSuffix(s);
    SurvivorsAreSuffix(s');
    DueLead(History(s.log, s.tenant), Start(s), Survivors(s).0, fit, cutoff);
    DueLogged(s.log, s'.log, s.tenant, Start(s'), now, cutoff);
  }

  lemma DueLead(h: seq<Entry>, a: nat, live: seq<Entry>, fit: nat, cutoff: Instant)
    requires a <= |h| && live == h[a..] && fit <= |live| && forall i | 0 <= i < fit :: live[i].core.time <= cutoff
    ensures Due(h, a + fit, cutoff) + fit == Due(h, a, cutoff)
  {
    forall i | a <= i < a + fit
      ensures h[i].core.time <= cutoff
    {
      assert h[i] == live[i - a];
    }
    DueAfterRun(h, a, fit, cutoff);
  }

  lemma DueLogged(log: Log, log': Log, tenant: string, a: nat, now: Instant, cutoff: Instant)
    requires log' == log || exists e: Event :: log' == log + [e] && e.time == now
    requires cutoff < now && a <= |History(log, tenant)|
    ensures a <= |History(log', tenant)| && Due(History(log', tenant), a, cutoff) == Due(History(log, tenant), a, cutoff)
  {
    if log' != log {
      var e: Event :| log' == log + [e] && e.time == now;
      DueAfterAppend(log, e, tenant, a, cutoff);
    }
  }

  /** The announcement is newer than the cutoff, so the due count falls by exactly what moved. */
  lemma RoundReducesDue(s: State, fit: nat, overwrite: bool, now: Instant, cutoff: Instant)
    requires Safe(s) && Current(s) && CanCut(s, fit) && ArchivedState(s, fit, overwrite).phase.Held?
    requires cutoff < now && forall i | 0 <= i < fit :: s.phase.recs[i].core.time <= cutoff
    ensures Safe(Round(s, fit, overwrite, now))
    ensures DueNow(Round(s, fit, overwrite, now), cutoff) + fit == DueNow(s, cutoff)
  {
    RoundIsSafe(s, fit, overwrite, now);
    RoundAdds(s, fit, overwrite, now);
    RoundMoves(s, fit, overwrite, now);
    DueMoved(s, Round(s, fit, overwrite, now), fit, now, cutoff);
  }

  lemma DueAfterAppend(log: Log, e: Event, tenant: string, a: nat, cutoff: Instant)
    requires a <= |History(log, tenant)| && (e.tenant == tenant ==> cutoff < e.time)
    ensures History(log, tenant) <= History(log + [e], tenant)
    ensures Due(History(log + [e], tenant), a, cutoff) == Due(History(log, tenant), a, cutoff)
  {
    HistoryGrows(log, tenant, e);
    var h := History(log, tenant);
    var late := if e.tenant == tenant then [Entry(Core(|h| + 1, e.id, tenant, e.time, e.data), |log| + 1)] else [];
    DueIgnoresLater(h, late, a, cutoff);
  }
}
