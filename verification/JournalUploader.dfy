/**
 The journal uploader itself, following the machine's steps, and what a journal rewritten under the same
 path can lose.
 */
module JournalUploader {
  import opened Journal
  import opened Options

  // ---- one upload as a path of the machine ----

  /** How the effects of one upload turn out; the part that starts at entry `i` meets `replies(i)` and `writes(i)`. */
  datatype Fortune = Fortune(statOk: bool, readOk: bool, recordOk: bool, replies: nat -> bool, writes: nat -> Disk)

  ghost predicate AllWell(f: Fortune) {
    f.readOk && (forall i: nat :: f.replies(i)) && forall i: nat :: f.writes(i).Done?
  }

  /** The step an upload takes next, as its effects turn out. */
  ghost function StepFor(w: World, f: Fortune): Step
    requires !w.phase.Idle?
  {
    match w.phase
    case Looked(_) => Read(f.readOk, f.recordOk)
    case Uploading(_, entries, start) => if start < |entries| then Send(f.replies(start)) else Finish
    case Answered(_, _, start) => Save(f.writes(start))
  }

  /** Where an upload gets by the given steps, each the one its effects call for; it is over once idle. */
  ghost function PathEnd(sha: Entry -> string, f: Fortune, w: World, steps: seq<Step>): Option<World>
    decreases |steps|
  {
    if steps == [] then Some(w)
    else if w.phase.Idle? || steps[0] != StepFor(w, f) || !Enabled(w, steps[0]) then None
    else PathEnd(sha, f, Next(sha, w, steps[0]), steps[1..])
  }

  lemma {:induction false} PathThen(sha: Entry -> string, f: Fortune, a: World, steps: seq<Step>, b: World, s: Step)
    requires PathEnd(sha, f, a, steps) == Some(b) && !b.phase.Idle? && s == StepFor(b, f) && Enabled(b, s)
    ensures PathEnd(sha, f, a, steps + [s]) == Some(Next(sha, b, s))
    decreases |steps|
  {
    if steps == [] {
      assert (steps + [s])[1..] == [];
    } else {
      PathThen(sha, f, Next(sha, a, steps[0]), steps[1..], b, s);
      assert (steps + [s])[1..] == steps[1..] + [s];
    }
  }

  lemma {:induction false} PathJoin(sha: Entry -> string, f: Fortune, a: World, steps: seq<Step>, b: World, more: seq<Step>)
    requires PathEnd(sha, f, a, steps) == Some(b)
    ensures PathEnd(sha, f, a, steps + more) == PathEnd(sha, f, b, more)
    decreases |steps|
  {
    if steps == [] {
      assert steps + more == more;
    } else {
      PathJoin(sha, f, Next(sha, a, steps[0]), steps[1..], b, more);
      assert (steps + more)[1..] == steps[1..] + more;
    }
  }

  lemma {:induction false} GoodAlongPath(sha: Entry -> string, f: Fortune, a: World, steps: seq<Step>)
    requires Good(sha, a) && PathEnd(sha, f, a, steps).Some?
    ensures Good(sha, PathEnd(sha, f, a, steps).value)
    decreases |steps|
  {
    if steps != [] {
      GoodStep(sha, a, steps[0]);
      GoodAlongPath(sha, f, Next(sha, a, steps[0]), steps[1..]);
    }
  }

  /** The effects settle the outcome: two uploads from the same state that both come to rest agree. */
  lemma {:induction false} OutcomeIsSettled(sha: Entry -> string, f: Fortune, w: World, steps: seq<Step>, others: seq<Step>)
    requires PathEnd(sha, f, w, steps).Some? && PathEnd(sha, f, w, steps).value.phase.Idle?
    requires PathEnd(sha, f, w, others).Some? && PathEnd(sha, f, w, others).value.phase.Idle?
    ensures steps == others
    decreases |steps|
  {
    if steps != [] && others != [] {
      OutcomeIsSettled(sha, f, Next(sha, w, steps[0]), steps[1..], others[1..]);
      assert steps == [steps[0]] + steps[1..] && others == [others[0]] + others[1..];
    }
  }

  // ---- the uploader ----

  lemma {:induction false} SmallOnesJoin(s: seq<Entry>, t: seq<Entry>)
    ensures SmallOnes(s + t) == SmallOnes(s) + SmallOnes(t)
    decreases |t|
  {
    if t == [] {
      assert s + t == s;
    } else {
      assert (s + t)[..|s + t| - 1] == s + t[..|t| - 1];
      SmallOnesJoin(s, t[..|t| - 1]);
    }
  }

  ghost function Sendable(entries: seq<Entry>, first: nat, end: nat): set<Entry>
    requires first <= end <= |entries|
  {
    Members(SmallOnes(entries[first..end]))
  }

  lemma AckedUpTo(entries: seq<Entry>, first: nat, start: nat)
    requires first <= start < |entries|
    ensures Sendable(entries, first, PartEnd(entries, start)) == Sendable(entries, first, start) + Members(Part(entries, start))
  {
    var end := PartEnd(entries, start);
    assert entries[first..end] == entries[first..start] + entries[start..end];
    SmallOnesJoin(entries[first..start], entries[start..end]);
  }

  /** The entries of one part that fit in a request. */
  method CollectPart(entries: seq<Entry>, start: nat, end: nat) returns (part: seq<Entry>)
    requires start <= end <= |entries|
    ensures part == SmallOnes(entries[start..end])
  {
    part := [];
    var i := start;
    while i < end
      invariant start <= i <= end && part == SmallOnes(entries[start..i])
    {
      assert entries[start..i + 1][..i - start] == entries[start..i];
      if |entries[i]| <= MAX_CERTIFICATE_BYTES {
        part := part + [entries[i]];
      }
      i := i + 1;
    }
  }

  class Uploader {
    const sha: Entry -> string
    var file: File
    var record: Option<Record>
    var pending: bool
    var last: Stamp
    ghost var acked: set<Entry>
    ghost var parts: seq<seq<Entry>>

    ghost function Value(phase: Phase): World
      reads this
    {
      World(file, record, acked, parts, pending, last, phase)
    }

    constructor (sha: Entry -> string)
      ensures this.sha == sha && Value(Idle) == INITIAL
    {
      this.sha := sha;
      file, record, pending, last, acked, parts := Missing, None, false, NEVER, {}, [];
    }

    /** Send one part, unless nothing in it can be sent. */
    method SendPart(ghost seen: Option<Stamp>, entries: seq<Entry>, start: nat, ok: bool) returns (answered: bool)
      requires start < |entries|
      modifies this`acked, this`parts, this`pending
      ensures Value(if answered then Answered(seen, entries, start) else Idle)
              == SentPart(old(Value(Uploading(seen, entries, start))), ok)
      ensures ok ==> answered
      ensures answered ==> acked == old(acked) + Members(Part(entries, start))
    {
      var part := CollectPart(entries, start, PartEnd(entries, start));
      if part == [] {
        return true;
      }
      parts := parts + [part];
      if !ok {
        pending := true;
        return false;
      }
      acked := acked + Members(part);
      return true;
    }

    /** Record the part just acknowledged. */
    method SaveRecord(ghost seen: Option<Stamp>, entries: seq<Entry>, start: nat, disk: Disk) returns (saved: bool)
      requires start < |entries|
      modifies this`record, this`pending
      ensures Value(if saved then Uploading(seen, entries, PartEnd(entries, start)) else Idle)
              == Saved(sha, old(Value(Answered(seen, entries, start))), disk)
      ensures saved <==> disk.Done?
    {
      var end := PartEnd(entries, start);
      if disk.Done? || disk.landed {
        record := Some(Record(end, sha(entries[end - 1])));
      }
      if !disk.Done? {
        pending := true;
      }
      saved := disk.Done?;
    }

    /** Upload from the resume point, recording each acknowledged part before the next is sent. */
    method UploadFrom(ghost seen: Option<Stamp>, entries: seq<Entry>, first: nat, f: Fortune)
      returns (ok: bool, ghost steps: seq<Step>)
      requires first <= |entries|
      modifies this`acked, this`parts, this`pending, this`record
      ensures PathEnd(sha, f, old(Value(Uploading(seen, entries, first))), steps)
              == Some(Value(if ok then Uploading(seen, entries, |entries|) else Idle))
      ensures ok ==> acked == old(acked) + Sendable(entries, first, |entries|)
      ensures AllWell(f) ==> ok
    {
      ghost var a := Value(Uploading(seen, entries, first));
      steps := [];
      var start := first;
      assert entries[first..start] == [];
      while start < |entries|
        invariant first <= start <= |entries|
        invariant PathEnd(sha, f, a, steps) == Some(Value(Uploading(seen, entries, start)))
        invariant acked == old(acked) + Sendable(entries, first, start)
      {
        ghost var b := Value(Uploading(seen, entries, start));
        AckedUpTo(entries, first, start);
        var answered := SendPart(seen, entries, start, f.replies(start));
        PathThen(sha, f, a, steps, b, Send(f.replies(start)));
        steps := steps + [Send(f.replies(start))];
        if !answered {
          return false, steps;
        }
        ghost var c := Value(Answered(seen, entries, start));
        var saved := SaveRecord(seen, entries, start, f.writes(start));
        PathThen(sha, f, a, steps, c, Save(f.writes(start)));
        steps := steps + [Save(f.writes(start))];
        if !saved {
          return false, steps;
        }
        start := PartEnd(entries, start);
      }
      ok := true;
    }

    /** Read the journal and its record, and upload what the record does not cover. */
    method UploadEdgeJournal(ghost seen: Option<Stamp>, f: Fortune) returns (ok: bool, ghost steps: seq<Step>)
      requires file.Present?
      modifies this`acked, this`parts, this`pending, this`record
      ensures PathEnd(sha, f, old(Value(Looked(seen))), steps)
              == Some(Value(if ok then Uploading(seen, file.entries, |file.entries|) else Idle))
      ensures ok ==> acked == AfterSuccess(sha, if f.recordOk then old(record) else None, file.entries, old(acked))
      ensures AllWell(f) ==> ok
    {
      ghost var a := Value(Looked(seen));
      ghost var read := Read(f.readOk, f.recordOk);
      PathThen(sha, f, a, [], a, read);
      steps := [] + [read];
      if !f.readOk {
        pending := true;
        return false, steps;
      }
      var start := Resume(sha, if f.recordOk then record else None, file.entries);
      ghost var before := Value(Uploading(seen, file.entries, start));
      ghost var rest: seq<Step>;
      ok, rest := UploadFrom(seen, file.entries, start, f);
      PathJoin(sha, f, a, steps, before, rest);
      steps := steps + rest;
    }

    /** After a heartbeat. When the stamp can be read and nothing fails, the whole journal is handled. */
    method AfterHeartbeat(reconnected: bool, f: Fortune) returns (ghost steps: seq<Step>)
      requires Good(sha, Value(Idle))
      modifies this`acked, this`parts, this`pending, this`record, this`last
      ensures PathEnd(sha, f, Heard(old(Value(Idle)), reconnected, f.statOk), steps) == Some(Value(Idle)) && Good(sha, Value(Idle))
      ensures AllWell(f) && f.statOk ==> AllHandled(Value(Idle))
    {
      ghost var a := Heard(Value(Idle), reconnected, f.statOk);
      GoodStep(sha, Value(Idle), Heartbeat(reconnected, f.statOk));
      steps := [];
      if file.Missing? {
        return;
      }
      var changed := f.statOk && file.stamp != last;
      if !reconnected && !pending && !changed {
        return;
      }
      var seen := if f.statOk then Some(file.stamp) else None;
      var ok;
      ok, steps := UploadEdgeJournal(seen, f);
      GoodAlongPath(sha, f, a, steps);
      if ok {
        ghost var done := Value(Uploading(seen, file.entries, |file.entries|));
        PathThen(sha, f, a, steps, done, Finish);
        steps := steps + [Finish];
        pending := false;
        if seen.Some? {
          last := seen.value;
        }
        GoodStep(sha, done, Finish);
      }
    }
  }

  // ---- a journal rewritten under the same path ----

  /** The entries acknowledged once an upload of `entries` has succeeded. */
  ghost function AfterSuccess(sha: Entry -> string, record: Option<Record>, entries: seq<Entry>, acked: set<Entry>): set<Entry> {
    acked + Sendable(entries, Resume(sha, record, entries), |entries|)
  }

  ghost predicate Injective(sha: Entry -> string) {
    forall a: Entry, b: Entry :: sha(a) == sha(b) ==> a == b
  }

  /** A journal rewritten under the same path is meant to be sent again from the start. That is so if and only if it
      has become shorter than the recorded prefix, or the prefix's last entry has changed: the record pins that
      entry, not the prefix. */
  lemma RewriteIsResentIff(sha: Entry -> string, worlds: seq<World>, steps: seq<Step>, n: nat, rewritten: seq<Entry>)
    requires Run(sha, worlds, steps) && n < |worlds| && worlds[n].record.Some? && Injective(sha)
    ensures
      var c, journal := worlds[n].record.value.count, Entries(worlds[n].file);
      && 0 < c <= |journal|
      && (Resume(sha, worlds[n].record, rewritten) == 0 <==> |rewritten| < c || rewritten[c - 1] != journal[c - 1])
  {
    GoodThroughout(sha, worlds, steps, n);
  }

  /** The family for which it fails: exchange any entry of the recorded prefix but its last for a new one. The upload
      succeeds and the new entry is never sent. */
  lemma RewriteCanSkip(sha: Entry -> string, worlds: seq<World>, steps: seq<Step>, n: nat, i: nat, added: Entry)
    requires Run(sha, worlds, steps) && n < |worlds| && worlds[n].record.Some? && i + 1 < worlds[n].record.value.count
    requires added !in worlds[n].acked && added !in Entries(worlds[n].file)
    ensures
      var w := worlds[n];
      && i < |Entries(w.file)|
      && var rewritten := Entries(w.file)[i := added];
         Resume(sha, w.record, rewritten) == w.record.value.count && added !in AfterSuccess(sha, w.record, rewritten, w.acked)
  {
    GoodThroughout(sha, worlds, steps, n);
    var w := worlds[n];
    var journal, c := Entries(w.file), w.record.value.count;
    var rest := journal[i := added][c..|journal|];
    assert rest == journal[c..];
    SmallOnesHold(rest);
    assert added !in rest by {
      assert forall k | 0 <= k < |rest| :: rest[k] == journal[c + k];
    }
  }

  // ---- such a record is reached ----

  ghost predicate Reached(sha: Entry -> string, w: World) {
    exists worlds: seq<World>, steps: seq<Step> :: EndsIn(sha, worlds, steps, w)
  }

  ghost predicate EndsIn(sha: Entry -> string, worlds: seq<World>, steps: seq<Step>, w: World) {
    Run(sha, worlds, steps) && worlds[|steps|] == w
  }

  lemma ReachedStep(sha: Entry -> string, w: World, s: Step)
    requires Reached(sha, w) && Enabled(w, s)
    ensures Reached(sha, Next(sha, w, s))
  {
    var worlds, steps :| EndsIn(sha, worlds, steps, w);
    var worlds', steps' := worlds + [Next(sha, w, s)], steps + [s];
    forall i | 0 <= i < |steps'|
      ensures Enabled(worlds'[i], steps'[i]) && worlds'[i + 1] == Next(sha, worlds'[i], steps'[i])
    {
      if i < |steps| { assert steps'[i] == steps[i] && worlds'[i] == worlds[i] && worlds'[i + 1] == worlds[i + 1]; }
    }
    assert EndsIn(sha, worlds', steps', Next(sha, w, s));
  }

  lemma TwoAppended(sha: Entry -> string, a: Entry, b: Entry) returns (w: World)
    ensures Reached(sha, w) && w == INITIAL.(file := Present([a, b], Stamp(2, 0)))
  {
    assert EndsIn(sha, [INITIAL], [], INITIAL);
    ReachedStep(sha, INITIAL, Append(a, Stamp(1, 0)));
    var w1 := Next(sha, INITIAL, Append(a, Stamp(1, 0)));
    assert [] + [a] == [a] && [a] + [b] == [a, b];
    ReachedStep(sha, w1, Append(b, Stamp(2, 0)));
    w := Next(sha, w1, Append(b, Stamp(2, 0)));
  }

  /** Two entries appended, sent and recorded. */
  lemma TwoRecorded(sha: Entry -> string, a: Entry, b: Entry)
    requires Small(a) && Small(b)
    ensures exists w: World :: Reached(sha, w) && w.record == Some(Record(2, sha(b))) && Entries(w.file) == [a, b] && w.acked == {a, b}
  {
    var w2 := TwoAppended(sha, a, b);
    ReachedStep(sha, w2, Heartbeat(true, true));
    var w3 := w2.(phase := Looked(Some(w2.file.stamp)));
    ReachedStep(sha, w3, Read(true, true));
    var w4 := w2.(phase := Uploading(Some(w2.file.stamp), [a, b], 0));
    assert [a, b][0..2] == [a, b] && [a, b][..1] == [a] && [a][..0] == [];
    assert SmallOnes([a]) == [a] && SmallOnes([a, b]) == [a, b];
    assert Members([a, b]) == {a, b};
    ReachedStep(sha, w4, Send(true));
    var w5 := Next(sha, w4, Send(true));
    ReachedStep(sha, w5, Save(Done));
    var w6 := Next(sha, w5, Save(Done));
    assert w6.record == Some(Record(2, sha(b))) && w6.acked == {} + {a, b};
    assert {} + {a, b} == {a, b};
  }
}
