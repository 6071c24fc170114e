/**
 The edge issuance journal and its resumable upload, as a machine of single effects: the issuing process
 appends, the agent looks, reads, sends one part, records it, and a crash may fall between any two.
 */
module Journal {
  import opened Options

  type Entry = seq<bv8>

  const MAX_CERTIFICATES := 500
  const MAX_CERTIFICATE_BYTES := 16384

  /** What the file system says of one version of the journal. */
  datatype Stamp = Stamp(size: nat, modified: int)

  /** The journal file: replaced whole, and longer with every entry. */
  datatype File = Missing | Present(entries: seq<Entry>, stamp: Stamp)

  /** The acknowledged prefix, as recorded beside the journal. */
  datatype Record = Record(count: nat, last: string)

  /** Where one upload stands. `seen` is the stamp taken before the journal was read. */
  datatype Phase =
    | Idle
    | Looked(seen: Option<Stamp>)
    | Uploading(seen: Option<Stamp>, entries: seq<Entry>, start: nat)
    | Answered(seen: Option<Stamp>, entries: seq<Entry>, start: nat)

  datatype World = World(
    file: File, record: Option<Record>, acked: set<Entry>, parts: seq<seq<Entry>>,
    pending: bool, last: Stamp, phase: Phase)

  const NEVER := Stamp(0, 0)
  const INITIAL := World(Missing, None, {}, [], false, NEVER, Idle)

  function Entries(f: File): seq<Entry> {
    if f.Missing? then [] else f.entries
  }

  predicate Small(e: Entry) {
    |e| <= MAX_CERTIFICATE_BYTES
  }

  function SmallOnes(s: seq<Entry>): seq<Entry> {
    if s == [] then []
    else SmallOnes(s[..|s| - 1]) + if Small(s[|s| - 1]) then [s[|s| - 1]] else []
  }

  function PartEnd(entries: seq<Entry>, start: nat): nat {
    if start + MAX_CERTIFICATES < |entries| then start + MAX_CERTIFICATES else |entries|
  }

  function Part(entries: seq<Entry>, start: nat): seq<Entry>
    requires start <= |entries|
  {
    SmallOnes(entries[start..PartEnd(entries, start)])
  }

  /** Where an upload of `entries` begins: after the recorded prefix, if its last entry is still there. */
  function Resume(sha: Entry -> string, record: Option<Record>, entries: seq<Entry>): (start: nat)
    ensures start <= |entries|
  {
    if record.Some? && 0 < record.value.count <= |entries| && record.value.last == sha(entries[record.value.count - 1])
    then record.value.count else 0
  }

  // ---- steps ----

  datatype Disk = Done | Failed(landed: bool)

  datatype Step =
    | Append(entry: Entry, stamp: Stamp)
    | Heartbeat(reconnected: bool, statOk: bool)
    | Read(ok: bool, recordOk: bool)
    | Send(ok: bool)
    | Save(disk: Disk)
    | Finish
    | Crash

  predicate Enabled(w: World, s: Step) {
    match s
    case Append(_, stamp) => stamp.size > if w.file.Present? then w.file.stamp.size else 0
    case Heartbeat(_, _) => w.phase.Idle?
    case Read(_, _) => w.phase.Looked?
    case Send(_) => w.phase.Uploading? && w.phase.start < |w.phase.entries|
    case Save(_) => w.phase.Answered? && w.phase.start < |w.phase.entries|
    case Finish => w.phase.Uploading? && |w.phase.entries| <= w.phase.start
    case Crash => true
  }

  /** After a heartbeat: nothing without a journal; otherwise upload on reconnection, after a failure, or when
      the journal's stamp has changed. */
  function Heard(w: World, reconnected: bool, statOk: bool): World {
    if w.file.Missing? then w
    else
      var changed := statOk && w.file.stamp != w.last;
      if !reconnected && !w.pending && !changed then w
      else w.(phase := Looked(if statOk then Some(w.file.stamp) else None))
  }

  function GaveUp(w: World): World {
    w.(pending := true, phase := Idle)
  }

  function ReadIn(sha: Entry -> string, w: World, ok: bool, recordOk: bool): World
    requires w.phase.Looked?
  {
    var entries := Entries(w.file);
    if !ok then GaveUp(w)
    else w.(phase := Uploading(w.phase.seen, entries, Resume(sha, if recordOk then w.record else None, entries)))
  }

  function SentPart(w: World, ok: bool): World
    requires Enabled(w, Send(ok))
  {
    var part := Part(w.phase.entries, w.phase.start);
    var answered := Answered(w.phase.seen, w.phase.entries, w.phase.start);
    if part == [] then w.(phase := answered)
    else if !ok then GaveUp(w).(parts := w.parts + [part])
    else w.(acked := w.acked + Members(part), parts := w.parts + [part], phase := answered)
  }

  function Members(part: seq<Entry>): set<Entry> {
    set e | e in part
  }

  function Saved(sha: Entry -> string, w: World, disk: Disk): World
    requires Enabled(w, Save(disk))
  {
    var end := PartEnd(w.phase.entries, w.phase.start);
    var record := Some(Record(end, sha(w.phase.entries[end - 1])));
    if disk.Done? then w.(record := record, phase := Uploading(w.phase.seen, w.phase.entries, end))
    else GaveUp(w).(record := if disk.landed then record else w.record)
  }

  function Finished(w: World): World
    requires w.phase.Uploading?
  {
    w.(pending := false, phase := Idle, last := if w.phase.seen.Some? then w.phase.seen.value else w.last)
  }

  function Next(sha: Entry -> string, w: World, s: Step): World
    requires Enabled(w, s)
  {
    match s
    case Append(entry, stamp) => w.(file := Present(Entries(w.file) + [entry], stamp))
    case Heartbeat(reconnected, statOk) => Heard(w, reconnected, statOk)
    case Read(ok, recordOk) => ReadIn(sha, w, ok, recordOk)
    case Send(ok) => SentPart(w, ok)
    case Save(disk) => Saved(sha, w, disk)
    case Finish => Finished(w)
    case Crash => w.(pending := false, last := NEVER, phase := Idle)
  }

  ghost predicate Run(sha: Entry -> string, worlds: seq<World>, steps: seq<Step>) {
    && |worlds| == |steps| + 1 && worlds[0] == INITIAL
    && forall i | 0 <= i < |steps| :: Enabled(worlds[i], steps[i]) && worlds[i + 1] == Next(sha, worlds[i], steps[i])
  }

  // ---- what every step keeps ----

  /** Each of the first `n` entries is acknowledged, or too large to send. */
  ghost predicate Handled(entries: seq<Entry>, n: nat, acked: set<Entry>)
    requires n <= |entries|
  {
    forall i | 0 <= i < n :: Small(entries[i]) ==> entries[i] in acked
  }

  ghost predicate AllHandled(w: World) {
    Handled(Entries(w.file), |Entries(w.file)|, w.acked)
  }

  /** The record names a handled prefix of the journal and its last entry. */
  ghost predicate RecordOk(sha: Entry -> string, record: Option<Record>, entries: seq<Entry>, acked: set<Entry>) {
    record.Some? ==>
      && 0 < record.value.count <= |entries| && record.value.last == sha(entries[record.value.count - 1])
      && Handled(entries, record.value.count, acked)
  }

  /** A stamp that is still the journal's was taken of this version: its entries are the ones uploaded. */
  ghost predicate SeenOk(f: File, seen: Option<Stamp>) {
    seen.Some? ==> f.Present? && seen.value.size <= f.stamp.size
  }

  ghost predicate Current(f: File, seen: Option<Stamp>) {
    seen.Some? && f.Present? && seen.value.size == f.stamp.size
  }

  ghost predicate PhaseOk(f: File, phase: Phase, acked: set<Entry>) {
    match phase
    case Idle => true
    case Looked(seen) => SeenOk(f, seen)
    case Uploading(seen, entries, start) => UploadOk(f, seen, entries, start, acked)
    case Answered(seen, entries, start) =>
      start < |entries| && UploadOk(f, seen, entries, start, acked) && Handled(entries, PartEnd(entries, start), acked)
  }

  ghost predicate UploadOk(f: File, seen: Option<Stamp>, entries: seq<Entry>, start: nat, acked: set<Entry>) {
    && SeenOk(f, seen) && entries <= Entries(f) && (Current(f, seen) ==> entries == Entries(f))
    && start <= |entries| && Handled(entries, start, acked)
  }

  ghost predicate LastOk(w: World) {
    w.file.Present? ==> w.last.size <= w.file.stamp.size && (w.last.size == w.file.stamp.size ==> AllHandled(w))
  }

  ghost predicate PartsOk(parts: seq<seq<Entry>>) {
    forall i | 0 <= i < |parts| :: 0 < |parts[i]| <= MAX_CERTIFICATES && forall k | 0 <= k < |parts[i]| :: Small(parts[i][k])
  }

  ghost predicate Good(sha: Entry -> string, w: World) {
    && (w.file.Present? ==> 0 < w.file.stamp.size)
    && RecordOk(sha, w.record, Entries(w.file), w.acked)
    && PhaseOk(w.file, w.phase, w.acked)
    && LastOk(w) && (w.file.Missing? ==> w.last == NEVER)
    && PartsOk(w.parts)
  }

  lemma {:induction false} SmallOnesHold(s: seq<Entry>)
    ensures |SmallOnes(s)| <= |s|
    ensures forall e :: e in SmallOnes(s) <==> e in s && Small(e)
  {
    if s != [] {
      SmallOnesHold(s[..|s| - 1]);
      assert s == s[..|s| - 1] + [s[|s| - 1]];
    }
  }

  /** Once a part is acknowledged, everything before its end is handled. */
  lemma PartHandles(entries: seq<Entry>, start: nat, acked: set<Entry>)
    requires start <= |entries| && Handled(entries, start, acked)
    ensures Handled(entries, PartEnd(entries, start), acked + Members(Part(entries, start)))
  {
    var end := PartEnd(entries, start);
    SmallOnesHold(entries[start..end]);
    forall i | 0 <= i < end && Small(entries[i])
      ensures entries[i] in acked + Members(Part(entries, start))
    {
      if i >= start { assert entries[i] == entries[start..end][i - start]; }
    }
  }

  lemma PartsStay(parts: seq<seq<Entry>>, entries: seq<Entry>, start: nat)
    requires PartsOk(parts) && start < |entries| && Part(entries, start) != []
    ensures PartsOk(parts + [Part(entries, start)])
  {
    var part := Part(entries, start);
    SmallOnesHold(entries[start..PartEnd(entries, start)]);
    assert forall k | 0 <= k < |part| :: part[k] in part;
  }

  lemma GoodAppend(sha: Entry -> string, w: World, entry: Entry, stamp: Stamp)
    requires Good(sha, w) && Enabled(w, Append(entry, stamp))
    ensures Good(sha, Next(sha, w, Append(entry, stamp)))
  {
    var entries := Entries(w.file);
    assert entries <= entries + [entry];
  }

  lemma GoodSend(sha: Entry -> string, w: World, ok: bool)
    requires Good(sha, w) && Enabled(w, Send(ok))
    ensures Good(sha, SentPart(w, ok))
  {
    var entries, start := w.phase.entries, w.phase.start;
    var part := Part(entries, start);
    PartHandles(entries, start, w.acked);
    if part == [] {
      assert w.acked + Members(part) == w.acked;
    } else {
      PartsStay(w.parts, entries, start);
    }
  }

  lemma GoodSave(sha: Entry -> string, w: World, disk: Disk)
    requires Good(sha, w) && Enabled(w, Save(disk))
    ensures Good(sha, Saved(sha, w, disk))
  {
    var end := PartEnd(w.phase.entries, w.phase.start);
    assert Entries(w.file)[end - 1] == w.phase.entries[end - 1];
    assert Handled(Entries(w.file), end, w.acked);
  }

  lemma GoodStep(sha: Entry -> string, w: World, s: Step)
    requires Good(sha, w) && Enabled(w, s)
    ensures Good(sha, Next(sha, w, s))
  {
    match s
    case Append(entry, stamp) => GoodAppend(sha, w, entry, stamp);
    case Heartbeat(_, _) =>
    case Read(_, _) =>
    case Send(ok) => GoodSend(sha, w, ok);
    case Save(disk) => GoodSave(sha, w, disk);
    case Finish =>
    case Crash =>
  }

  lemma {:induction false} GoodThroughout(sha: Entry -> string, worlds: seq<World>, steps: seq<Step>, n: nat)
    requires Run(sha, worlds, steps) && n < |worlds|
    ensures Good(sha, worlds[n])
    decreases n
  {
    if n > 0 {
      GoodThroughout(sha, worlds, steps, n - 1);
      GoodStep(sha, worlds[n - 1], steps[n - 1]);
    }
  }

  // ---- the promises ----

  /** Whatever the appends, uploads and crashes: every entry before the recorded position that fits in a request
      has been acknowledged, the next upload resumes exactly there, and every request kept the size limits. */
  lemma RecordedPrefixIsAcknowledged(sha: Entry -> string, worlds: seq<World>, steps: seq<Step>, n: nat)
    requires Run(sha, worlds, steps) && n < |worlds|
    ensures forall part | part in worlds[n].parts :: |part| <= 500 && forall e | e in part :: |e| <= 16_384
    ensures
      var w := worlds[n];
      w.record.Some? ==>
        && Resume(sha, w.record, Entries(w.file)) == w.record.value.count <= |Entries(w.file)|
        && forall i | 0 <= i < w.record.value.count && |Entries(w.file)[i]| <= 16_384 :: Entries(w.file)[i] in w.acked
  {
    GoodThroughout(sha, worlds, steps, n);
  }

  /** An upload that finishes has handled the whole journal as it was read, and the whole journal as it stands
      if the stamp taken is still the journal's. */
  lemma FinishedUploadHandledAll(sha: Entry -> string, worlds: seq<World>, steps: seq<Step>, n: nat)
    requires Run(sha, worlds, steps) && n < |steps| && steps[n].Finish?
    ensures
      var w := worlds[n];
      && Handled(w.phase.entries, |w.phase.entries|, w.acked) && w.phase.entries <= Entries(w.file)
      && (Current(w.file, w.phase.seen) ==> AllHandled(worlds[n + 1]))
  {
    GoodThroughout(sha, worlds, steps, n);
  }

  /** Growth is noticed: a heartbeat that can read the journal's stamp and starts no upload leaves nothing behind. */
  lemma GrowthIsNoticed(sha: Entry -> string, worlds: seq<World>, steps: seq<Step>, n: nat)
    requires Run(sha, worlds, steps) && n < |steps| && steps[n].Heartbeat? && steps[n].statOk
    ensures worlds[n + 1].phase.Looked? || AllHandled(worlds[n])
  {
    GoodThroughout(sha, worlds, steps, n);
  }

  // ---- when an upload starts ----

  /** A heartbeat starts an upload exactly when there is a journal and the connection is new, an upload has failed, or
      the journal's stamp can be read and is not that of the last upload. */
  lemma HeartbeatStartsIff(sha: Entry -> string, worlds: seq<World>, steps: seq<Step>, n: nat)
    requires Run(sha, worlds, steps) && n < |steps| && steps[n].Heartbeat?
    ensures
      var w, s := worlds[n], steps[n];
      && (worlds[n + 1].phase.Looked? <==>
            w.file.Present? && (s.reconnected || w.pending || (s.statOk && w.file.stamp != w.last)))
      && (worlds[n + 1].phase.Looked? ==> worlds[n + 1].phase.seen == if s.statOk then Some(w.file.stamp) else None)
      && worlds[n + 1] == w.(phase := worlds[n + 1].phase)
  {
  }

  /** After an upload that finished, with nothing appended since and no crash, a heartbeat on the same connection starts
      nothing. */
  lemma {:induction false} QuietAfterSuccess(sha: Entry -> string, worlds: seq<World>, steps: seq<Step>, n: nat, m: nat)
    requires Run(sha, worlds, steps) && n < m < |worlds| && steps[n].Finish?
    requires worlds[n].file.Present? && worlds[n].phase.seen == Some(worlds[n].file.stamp)
    requires forall i | n < i < m :: steps[i].Heartbeat? && !steps[i].reconnected
    ensures worlds[m] == worlds[n + 1] && worlds[m].phase.Idle?
    decreases m
  {
    assert worlds[n + 1] == Finished(worlds[n]);
    if n + 1 < m {
      QuietAfterSuccess(sha, worlds, steps, n, m - 1);
      assert steps[m - 1].Heartbeat? && worlds[m] == Heard(worlds[n + 1], false, steps[m - 1].statOk);
    }
  }

  lemma {:induction false} StampsPositive(sha: Entry -> string, worlds: seq<World>, steps: seq<Step>, n: nat)
    requires Run(sha, worlds, steps) && n < |worlds|
    ensures worlds[n].file.Present? ==> worlds[n].file.stamp.size > 0
    decreases n
  {
    if n > 0 {
      StampsPositive(sha, worlds, steps, n - 1);
    }
  }

  /** A restarted agent uploads again at its first heartbeat that can read the journal's stamp. */
  lemma RestartUploads(sha: Entry -> string, worlds: seq<World>, steps: seq<Step>, n: nat)
    requires Run(sha, worlds, steps) && n + 1 < |steps| && steps[n].Crash? && steps[n + 1].Heartbeat? && steps[n + 1].statOk
    ensures worlds[n + 2].phase.Looked? <==> worlds[n].file.Present?
  {
    StampsPositive(sha, worlds, steps, n);
  }

  /** Where an upload begins: at the recorded place if the record can be read and its last entry is still there, and at
      the start otherwise; or not at all if the journal cannot be read. */
  lemma ReadBegins(sha: Entry -> string, w: World, ok: bool, recordOk: bool)
    requires Enabled(w, Read(ok, recordOk))
    ensures
      var w' := Next(sha, w, Read(ok, recordOk));
      && (!ok ==> w'.phase.Idle? && w'.pending)
      && (ok ==> w'.phase.Uploading? && w'.phase.entries == Entries(w.file) && w'.phase.seen == w.phase.seen)
      && (ok ==>
            var c := if recordOk && w.record.Some? then w.record.value.count else 0;
            w'.phase.start == if 0 < c <= |Entries(w.file)| && sha(Entries(w.file)[c - 1]) == w.record.value.last then c else 0)
      && w'.record == w.record && w'.acked == w.acked
  {
  }

  // ---- a failed upload ----

  /** The step gives an upload up. */
  predicate Fails(sha: Entry -> string, w: World, s: Step) {
    Enabled(w, s) && (s.Read? || s.Send? || s.Save?) && Next(sha, w, s).phase.Idle?
  }

  /** An upload is under way, or to be tried again, only of a journal that is there. */
  predicate HasFile(w: World) {
    !w.phase.Idle? || w.pending ==> w.file.Present?
  }

  lemma {:induction false} HasFileThroughout(sha: Entry -> string, worlds: seq<World>, steps: seq<Step>, n: nat)
    requires Run(sha, worlds, steps) && n < |worlds|
    ensures HasFile(worlds[n])
    decreases n
  {
    if n > 0 {
      HasFileThroughout(sha, worlds, steps, n - 1);
    }
  }

  lemma {:induction false} PendingUntilFinished(sha: Entry -> string, worlds: seq<World>, steps: seq<Step>, n: nat, m: nat)
    requires Run(sha, worlds, steps) && n < m < |worlds| && Fails(sha, worlds[n], steps[n])
    requires forall i | n < i < m :: !steps[i].Crash? && !steps[i].Finish?
    ensures worlds[m].pending
    decreases m
  {
    if n < m - 1 {
      PendingUntilFinished(sha, worlds, steps, n, m - 1);
    }
  }

  /** After a failed upload, whatever is appended and however often it fails again: until one finishes or the process
      crashes, every heartbeat starts an upload. */
  lemma FailureIsRetried(sha: Entry -> string, worlds: seq<World>, steps: seq<Step>, n: nat, m: nat)
    requires Run(sha, worlds, steps) && n < m < |steps| && Fails(sha, worlds[n], steps[n]) && steps[m].Heartbeat?
    requires forall i | n < i < m :: !steps[i].Crash? && !steps[i].Finish?
    ensures worlds[m + 1].phase.Looked?
  {
    PendingUntilFinished(sha, worlds, steps, n, m);
    HasFileThroughout(sha, worlds, steps, m);
  }
}
