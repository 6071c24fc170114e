/**
 The shared event log, one tenant's view of it, and the hash chain over that view.

 A hash is its own preimage: `Link` is injective, so chains are equal exactly when the
 records they cover are.
 */
module AuditChain {
  import opened Clock

  datatype EventId = ArchiveId(tenant: string, boundarySeq: nat, boundaryHash: Hash, uri: Uri) | OtherId(text: string)

  datatype Uri = Uri(tenant: string, boundary: nat)

  datatype Payload =
    | Archived(count: nat, boundarySeq: nat, boundaryHash: Hash, uri: Uri, sourceRetained: bool)
    | OtherData(text: string)

  datatype Event = Event(tenant: string, id: EventId, time: Instant, data: Payload)

  /** The hash-covered content of a record. */
  datatype Core = Core(sequence: nat, id: EventId, tenant: string, time: Instant, data: Payload)

  datatype Hash = Genesis | Link(prev: Hash, core: Core)

  /** A tenant's event at its ordinal, with its position in the shared stream. */
  datatype Entry = Entry(core: Core, stream: nat)

  datatype Record = Record(core: Core, stream: nat, hash: Hash)

  type Log = seq<Event>

  // ---- a tenant's entries ----

  /** The tenant's events of `log`, numbered after `base`, in a stream that starts after `offset`. */
  function Entries(log: Log, tenant: string, base: nat, offset: nat): (r: seq<Entry>)
    ensures |r| <= |log|
  {
    if log == [] then []
    else
      var front := Entries(log[..|log| - 1], tenant, base, offset);
      var e := log[|log| - 1];
      if e.tenant == tenant then front + [Entry(Core(base + |front| + 1, e.id, tenant, e.time, e.data), offset + |log|)] else front
  }

  function History(log: Log, tenant: string): seq<Entry> {
    Entries(log, tenant, 0, 0)
  }

  lemma {:induction false} EntriesNumbered(log: Log, tenant: string, base: nat, offset: nat)
    ensures forall i | 0 <= i < |Entries(log, tenant, base, offset)| ::
              var x := Entries(log, tenant, base, offset)[i];
              x.core.sequence == base + i + 1 && x.core.tenant == tenant && offset < x.stream
  {
    if log != [] {
      EntriesNumbered(log[..|log| - 1], tenant, base, offset);
    }
  }

  /** What one more event adds to a tenant's history. */
  function NewEntry(e: Event, tenant: string, ordinal: nat, stream: nat): seq<Entry> {
    if e.tenant == tenant then [Entry(Core(ordinal, e.id, tenant, e.time, e.data), stream)] else []
  }

  lemma EntriesAppend(log: Log, e: Event, tenant: string, base: nat, offset: nat)
    ensures
      var front := Entries(log, tenant, base, offset);
      Entries(log + [e], tenant, base, offset) == front + NewEntry(e, tenant, base + |front| + 1, offset + |log| + 1)
  {
    assert (log + [e])[..|log|] == log;
  }

  lemma JoinLast(all: seq<Entry>, h: seq<Entry>, r: seq<Entry>, x: seq<Entry>)
    requires all == h + r
    ensures all + x == h + (r + x)
  {
  }

  lemma EntriesJoinStep(front: Log, t: Log, e: Event, tenant: string)
    requires History(front + t, tenant) == History(front, tenant) + Entries(t, tenant, |History(front, tenant)|, |front|)
    ensures History((front + t) + [e], tenant)
            == History(front, tenant) + Entries(t + [e], tenant, |History(front, tenant)|, |front|)
  {
    var h, r := History(front, tenant), Entries(t, tenant, |History(front, tenant)|, |front|);
    EntriesAppend(front + t, e, tenant, 0, 0);
    EntriesAppend(t, e, tenant, |h|, |front|);
    JoinLast(History(front + t, tenant), h, r, NewEntry(e, tenant, |h| + |r| + 1, |front| + |t| + 1));
  }

  lemma {:induction false} EntriesJoin(front: Log, tail: Log, tenant: string)
    ensures History(front + tail, tenant) == History(front, tenant) + Entries(tail, tenant, |History(front, tenant)|, |front|)
    decreases |tail|
  {
    if tail == [] {
      assert front + tail == front;
    } else {
      var t, e := tail[..|tail| - 1], tail[|tail| - 1];
      EntriesJoin(front, t, tenant);
      EntriesJoinStep(front, t, e, tenant);
      assert tail == t + [e] && front + tail == (front + t) + [e];
    }
  }

  /** A tenant's history splits at any stream position; the tail numbers on from the head's count. */
  lemma HistorySplits(log: Log, tenant: string, k: nat)
    requires k <= |log|
    ensures History(log, tenant) == History(log[..k], tenant) + Entries(log[k..], tenant, |History(log[..k], tenant)|, k)
  {
    assert log == log[..k] + log[k..];
    EntriesJoin(log[..k], log[k..], tenant);
  }

  lemma HistoryGrows(log: Log, tenant: string, e: Event)
    ensures History(log + [e], tenant) ==
            History(log, tenant) +
            if e.tenant == tenant then [Entry(Core(|History(log, tenant)| + 1, e.id, tenant, e.time, e.data), |log| + 1)] else []
  {
    assert (log + [e])[..|log|] == log;
  }

  /** An entry's stream position cuts the log exactly after that entry. */
  lemma {:induction false} StreamCuts(log: Log, tenant: string, j: nat)
    requires j < |History(log, tenant)|
    ensures 0 < History(log, tenant)[j].stream <= |log|
    ensures History(log[..History(log, tenant)[j].stream], tenant) == History(log, tenant)[..j + 1]
  {
    var front := log[..|log| - 1];
    var h := History(front, tenant);
    if j < |h| {
      StreamCuts(front, tenant, j);
      var s := h[j].stream;
      assert front[..s] == log[..s];
      assert History(log, tenant)[..j + 1] == h[..j + 1];
    } else {
      assert log[..|log|] == log;
      assert History(log, tenant)[..j + 1] == History(log, tenant);
    }
  }

  // ---- the chain ----

  function Chain(seed: Hash, entries: seq<Entry>): Hash {
    if entries == [] then seed else Link(Chain(seed, entries[..|entries| - 1]), entries[|entries| - 1].core)
  }

  lemma {:induction false} ChainConcat(seed: Hash, a: seq<Entry>, b: seq<Entry>)
    ensures Chain(seed, a + b) == Chain(Chain(seed, a), b)
  {
    if b == [] {
      assert a + b == a;
    } else {
      ChainConcat(seed, a, b[..|b| - 1]);
      assert (a + b)[..|a + b| - 1] == a + b[..|b| - 1];
    }
  }

  function Cores(records: seq<Record>): seq<Core> {
    seq(|records|, i requires 0 <= i < |records| => records[i].core)
  }

  function EntryCores(entries: seq<Entry>): seq<Core> {
    seq(|entries|, i requires 0 <= i < |entries| => entries[i].core)
  }

  /** Entries linked from a seed: each record carries the chain head up to and including it. */
  function Sealed(seed: Hash, entries: seq<Entry>): (r: seq<Record>)
    ensures |r| == |entries|
    ensures forall i | 0 <= i < |entries| :: r[i] == Record(entries[i].core, entries[i].stream, Chain(seed, entries[..i + 1]))
  {
    seq(|entries|, i requires 0 <= i < |entries| => Record(entries[i].core, entries[i].stream, Chain(seed, entries[..i + 1])))
  }

  lemma SealedNext(seed: Hash, entries: seq<Entry>, i: nat)
    requires i < |entries|
    ensures Chain(seed, entries[..i + 1]) == Link(Chain(seed, entries[..i]), entries[i].core)
    ensures Sealed(seed, entries[..i + 1])
            == Sealed(seed, entries[..i]) + [Record(entries[i].core, entries[i].stream, Chain(seed, entries[..i + 1]))]
  {
    assert entries[..i + 1][..i] == entries[..i];
    forall j | 0 <= j < i
      ensures Sealed(seed, entries[..i + 1])[j] == Sealed(seed, entries[..i])[j]
    {
      assert entries[..i][..j + 1] == entries[..i + 1][..j + 1];
    }
    assert entries[..i + 1][..i + 1] == entries[..i + 1];
  }

  /** Fill in each record's hash in order and return the head. */
  method SealFrom(seed: Hash, entries: seq<Entry>) returns (records: seq<Record>, head: Hash)
    ensures records == Sealed(seed, entries) && head == Chain(seed, entries)
  {
    records := [];
    head := seed;
    for i := 0 to |entries|
      invariant records == Sealed(seed, entries[..i]) && head == Chain(seed, entries[..i])
    {
      SealedNext(seed, entries, i);
      head := Link(head, entries[i].core);
      records := records + [Record(entries[i].core, entries[i].stream, head)];
    }
    assert entries[..|entries|] == entries;
  }

  /** The recomputed head, if every stored hash matches its recomputed link. */
  function ChainHead(seed: Hash, records: seq<Record>): Hash {
    if records == [] then seed else Link(ChainHead(seed, records[..|records| - 1]), records[|records| - 1].core)
  }

  predicate ChainIntact(seed: Hash, records: seq<Record>) {
    forall i | 0 <= i < |records| :: records[i].hash == ChainHead(seed, records[..i + 1])
  }

  datatype Verification = Verified(head: Hash) | Tampered(index: nat)

  method VerifyChainFrom(seed: Hash, records: seq<Record>) returns (v: Verification)
    ensures v.Verified? <==> ChainIntact(seed, records)
    ensures v.Verified? ==> v.head == ChainHead(seed, records)
    ensures v.Tampered? ==> v.index < |records| && ChainIntact(seed, records[..v.index])
                            && records[v.index].hash != ChainHead(seed, records[..v.index + 1])
  {
    var prev := seed;
    for i := 0 to |records|
      invariant prev == ChainHead(seed, records[..i])
      invariant forall j | 0 <= j < i :: records[j].hash == ChainHead(seed, records[..j + 1])
    {
      assert records[..i + 1][..i] == records[..i];
      var want := Link(prev, records[i].core);
      if records[i].hash != want {
        forall j | 0 <= j < i
          ensures records[..i][j].hash == ChainHead(seed, records[..i][..j + 1])
        {
          assert records[..i][..j + 1] == records[..j + 1];
        }
        return Tampered(i);
      }
      prev := want;
    }
    assert records[..|records|] == records;
    return Verified(prev);
  }

  lemma {:induction false} SealedHead(seed: Hash, entries: seq<Entry>, records: seq<Record>)
    requires |records| == |entries| && forall i | 0 <= i < |entries| :: records[i].core == entries[i].core
    ensures ChainHead(seed, records) == Chain(seed, entries)
  {
    if entries != [] {
      SealedHead(seed, entries[..|entries| - 1], records[..|records| - 1]);
    }
  }

  /** What sealing produces, verification accepts with the same head. */
  lemma SealedVerifies(seed: Hash, entries: seq<Entry>)
    ensures ChainIntact(seed, Sealed(seed, entries)) && ChainHead(seed, Sealed(seed, entries)) == Chain(seed, entries)
  {
    var records := Sealed(seed, entries);
    forall i | 0 <= i < |records|
      ensures records[i].hash == ChainHead(seed, records[..i + 1])
    {
      SealedHead(seed, entries[..i + 1], records[..i + 1]);
    }
    SealedHead(seed, entries, records);
  }

  /** Equal seed, head and length mean equal records: the four fields an archiver compares settle the content. */
  lemma {:induction false} HeadSettlesCores(seed: Hash, a: seq<Record>, b: seq<Record>)
    requires |a| == |b| && ChainHead(seed, a) == ChainHead(seed, b)
    ensures Cores(a) == Cores(b)
  {
    if a != [] {
      HeadSettlesCores(seed, a[..|a| - 1], b[..|b| - 1]);
      assert Cores(a) == Cores(a[..|a| - 1]) + [a[|a| - 1].core];
      assert Cores(b) == Cores(b[..|b| - 1]) + [b[|b| - 1].core];
    }
  }

  /** Sealing a suffix from its predecessor's head gives every record the hash it has in the full chain. */
  lemma SurvivingHashesUnchanged(entries: seq<Entry>, n: nat, j: nat)
    requires n <= |entries| && j < |entries| - n
    ensures Sealed(Chain(Genesis, entries[..n]), entries[n..])[j] == Sealed(Genesis, entries)[n + j]
  {
    ChainConcat(Genesis, entries[..n], entries[n..][..j + 1]);
    assert entries[n..][..j + 1] == entries[n..n + j + 1];
    assert entries[..n] + entries[n..n + j + 1] == entries[..n + j + 1];
  }
}
