/**
 One tenant's audit retention as a crash-tolerant protocol over the shared event log:
 archive a segment, announce it in the log, save the checkpoint.

 Other writers append to the log at any time, a crash may fall between any two effects, and
 a projection may rebuild checkpoint rows from announced events: also between reading the records
 to archive and writing them.
 */
module Retention {
  import opened Clock
  import opened AuditChain
  import opened Options

  datatype Checkpoint = Checkpoint(tenant: string, boundarySeq: nat, boundaryHash: Hash, count: nat, uri: Uri)

  /** A signed archive segment: the records and the chain heads before and after them. */
  datatype Bundle = Bundle(tenant: string, prevHash: Hash, head: Hash, records: seq<Record>, count: nat)

  /** What the archive holds at a boundary: a whole bundle, or the remains of an interrupted overwrite. */
  datatype Stored = Whole(bundle: Bundle) | Torn

  datatype Phase = Resting | Checked | Loaded(recs: seq<Entry>, seed: Hash) | Held(cp: Checkpoint) | Announced(cp: Checkpoint)

  datatype State = State(
    tenant: string,
    log: Log,
    saved: map<nat, Checkpoint>,
    archive: map<nat, Stored>,
    phase: Phase)

  // ---- checkpoints and segments ----

  ghost predicate IsLatest(saved: map<nat, Checkpoint>, k: nat) {
    k in saved && forall j | j in saved :: j <= k
  }

  lemma {:induction false} GreatestExists(s: set<nat>) returns (k: nat)
    requires s != {}
    ensures k in s && forall j | j in s :: j <= k
    decreases |s|
  {
    var x :| x in s;
    if s == {x} {
      k := x;
    } else {
      var rest := s - {x};
      assert s == rest + {x};
      var m := GreatestExists(rest);
      k := if m < x then x else m;
      assert forall j | j in s :: j == x || j in rest;
    }
  }

  /** The saved checkpoint with the highest boundary. */
  ghost function Latest(saved: map<nat, Checkpoint>): (r: Option<Checkpoint>)
    ensures r.None? <==> saved == map[]
    ensures r.Some? ==> exists k :: IsLatest(saved, k) && saved[k] == r.value
  {
    if saved == map[] then None
    else
      assert exists k :: IsLatest(saved, k) by {
        assert saved.Keys != {};
        var k := GreatestExists(saved.Keys);
        assert IsLatest(saved, k);
      }
      var k :| IsLatest(saved, k);
      Some(saved[k])
  }

  function IdOf(cp: Checkpoint): EventId {
    ArchiveId(cp.tenant, cp.boundarySeq, cp.boundaryHash, cp.uri)
  }

  function PayloadOf(cp: Checkpoint): Payload {
    Archived(cp.count, cp.boundarySeq, cp.boundaryHash, cp.uri, true)
  }

  /** The checkpoint an archive event describes. */
  function CheckpointOf(e: Event): Checkpoint
    requires e.data.Archived?
  {
    Checkpoint(e.tenant, e.data.boundarySeq, e.data.boundaryHash, e.data.count, e.data.uri)
  }

  /** The boundary is a cut of the log whose head and count the checkpoint states. */
  ghost predicate Sound(cp: Checkpoint, log: Log, tenant: string) {
    && cp.tenant == tenant && 0 < cp.boundarySeq <= |log|
    && cp.count == |History(log[..cp.boundarySeq], tenant)| > 0
    && cp.boundaryHash == Chain(Genesis, History(log[..cp.boundarySeq], tenant))
    && cp.uri == Uri(tenant, cp.count)
  }

  /** The check made before retention advances: the source through the boundary is still complete. */
  predicate SourceRetained(cp: Checkpoint, log: Log, tenant: string) {
    cp.boundarySeq != 0 && 0 < cp.count && cp.boundarySeq <= |log| && |History(log[..cp.boundarySeq], tenant)| == cp.count
  }

  function SegmentBundle(tenant: string, h: seq<Entry>, a: nat, b: nat): Bundle
    requires a <= b <= |h|
  {
    Bundle(tenant, Chain(Genesis, h[..a]), Chain(Genesis, h[..b]), Sealed(Chain(Genesis, h[..a]), h[a..b]), b - a)
  }

  /** What the verifier of archived bundles accepts. */
  predicate Verifies(b: Bundle) {
    && b.tenant != "" && b.count == |b.records| > 0
    && ChainIntact(b.prevHash, b.records) && b.head == ChainHead(b.prevHash, b.records)
    && (forall i | 0 <= i < |b.records| :: b.records[i].core.tenant == b.tenant && 0 < b.records[i].core.sequence)
    && (forall i | 0 < i < |b.records| :: b.records[i].core.sequence == b.records[i - 1].core.sequence + 1)
  }

  // ---- the steps ----

  datatype Step =
    | Append(e: Event)
    | Check(now: Instant)
    | Read(head: nat)
    | Archive(fit: nat, overwrite: bool)
    | Tear(fit: nat)
    | Announce(now: Instant)
    | Save
    | Crash
    | Project(index: nat)

  predicate Found(log: Log, id: EventId) {
    exists i :: 0 <= i < |log| && log[i].id == id
  }

  predicate Conflicting(log: Log, cp: Checkpoint) {
    exists i :: 0 <= i < |log| && log[i].id == IdOf(cp) && (log[i].tenant != cp.tenant || log[i].data != PayloadOf(cp))
  }

  /** Append the announcement unless the exact one is already there; refuse one that conflicts. */
  function EnsureArchivedEvent(log: Log, cp: Checkpoint, now: Instant): Option<Log> {
    if Conflicting(log, cp) then None
    else if Found(log, IdOf(cp)) then Some(log)
    else Some(log + [Event(cp.tenant, IdOf(cp), now, PayloadOf(cp))])
  }

  /** The records past the latest checkpoint and the seed they are linked from. */
  ghost function Survivors(s: State): (seq<Entry>, Hash) {
    match Latest(s.saved)
    case None => (Entries(s.log, s.tenant, 0, 0), Genesis)
    case Some(cp) =>
      if cp.boundarySeq <= |s.log| then (Entries(s.log[cp.boundarySeq..], s.tenant, cp.count, cp.boundarySeq), cp.boundaryHash)
      else ([], cp.boundaryHash)
  }

  /** The worker has read at least `fit` records. */
  predicate CanCut(s: State, fit: nat) {
    s.phase.Loaded? && 0 < fit <= |s.phase.recs|
  }

  /** Read the records past the latest checkpoint, of the log as it was when its head was looked up. */
  ghost function ReadState(s: State, head: nat): State
    requires head <= |s.log|
  {
    var (recs, seed) := Survivors(s.(log := s.log[..head]));
    s.(phase := Loaded(recs, seed))
  }

  /** Only this tenant's retention worker announces this tenant's archives. */
  predicate Foreign(e: Event, tenant: string) {
    e.id.ArchiveId? ==> e.tenant != tenant && e.id.tenant != tenant
  }

  ghost predicate Enabled(s: State, step: Step) {
    match step
    case Append(e) => Foreign(e, s.tenant)
    case Check(_) => s.phase.Resting?
    case Read(head) => s.phase.Checked? && head <= |s.log|
    case Archive(fit, _) => CanCut(s, fit)
    case Tear(fit) => CanCut(s, fit)
    case Announce(_) => s.phase.Held?
    case Save => s.phase.Announced?
    case Crash => true
    case Project(i) => i < |s.log| && s.log[i].tenant == s.tenant && s.log[i].id.ArchiveId? && s.log[i].data.Archived?
  }

  /** The bundle and checkpoint for the leading `fit` of `recs`, linked from `seed`. */
  function CutOf(tenant: string, recs: seq<Entry>, seed: Hash, fit: nat): (Bundle, Checkpoint)
    requires 0 < fit <= |recs|
  {
    var segment := Sealed(seed, recs[..fit]);
    var boundary := segment[fit - 1];
    (Bundle(tenant, seed, boundary.hash, segment, fit),
     Checkpoint(tenant, boundary.stream, boundary.hash, boundary.core.sequence, Uri(tenant, boundary.core.sequence)))
  }

  function Cut(s: State, fit: nat): (Bundle, Checkpoint)
    requires CanCut(s, fit)
  {
    CutOf(s.tenant, s.phase.recs, s.phase.seed, fit)
  }

  /** Create-once storage keeps what is there, and accepts it only if it verifies and covers the same segment. */
  predicate SameSegment(stored: Stored, want: Bundle) {
    stored.Whole? && Verifies(stored.bundle) && stored.bundle.tenant == want.tenant
    && stored.bundle.prevHash == want.prevHash && stored.bundle.head == want.head && stored.bundle.count == want.count
  }

  function ArchivedState(s: State, fit: nat, overwrite: bool): State
    requires CanCut(s, fit)
  {
    StoredState(s, Cut(s, fit).0, Cut(s, fit).1, overwrite)
  }

  function StoredState(s: State, bundle: Bundle, cp: Checkpoint, overwrite: bool): State {
    if overwrite || cp.count !in s.archive then s.(archive := s.archive[cp.count := Whole(bundle)], phase := Held(cp))
    else if SameSegment(s.archive[cp.count], bundle) then s.(phase := Held(cp))
    else s.(phase := Resting)
  }

  ghost function CheckedState(s: State, now: Instant): State {
    match Latest(s.saved)
    case None => s.(phase := Checked)
    case Some(cp) =>
      if !SourceRetained(cp, s.log, s.tenant) then s
      else match EnsureArchivedEvent(s.log, cp, now)
        case None => s
        case Some(log) => s.(log := log, phase := Checked)
  }

  function AnnouncedState(s: State, now: Instant): State
    requires s.phase.Held?
  {
    match EnsureArchivedEvent(s.log, s.phase.cp, now)
    case None => s.(phase := Resting)
    case Some(log) => s.(log := log, phase := Announced(s.phase.cp))
  }

  function SavedState(s: State): State
    requires s.phase.Announced?
  {
    s.(saved := s.saved[s.phase.cp.boundarySeq := s.phase.cp], phase := Resting)
  }

  ghost function Apply(s: State, step: Step): State
    requires Enabled(s, step)
  {
    match step
    case Append(e) => s.(log := s.log + [e])
    case Check(now) => CheckedState(s, now)
    case Read(head) => ReadState(s, head)
    case Archive(fit, overwrite) => ArchivedState(s, fit, overwrite)
    case Tear(fit) => s.(archive := s.archive[Cut(s, fit).1.count := Torn], phase := Resting)
    case Announce(now) => AnnouncedState(s, now)
    case Save => SavedState(s)
    case Crash => s.(phase := Resting)
    case Project(i) => var cp := CheckpointOf(s.log[i]); s.(saved := s.saved[cp.boundarySeq := cp])
  }

  ghost predicate Run(states: seq<State>, steps: seq<Step>) {
    && |states| == |steps| + 1
    && states[0].saved == map[] && states[0].archive == map[] && states[0].phase == Resting && states[0].tenant != ""
    && (forall i | 0 <= i < |states[0].log| :: Foreign(states[0].log[i], states[0].tenant))
    && forall i | 0 <= i < |steps| :: Enabled(states[i], steps[i]) && states[i + 1] == Apply(states[i], steps[i])
  }
}
