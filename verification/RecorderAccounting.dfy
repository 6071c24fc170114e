/**
 Conservation of usage: what each queue, batch and table row holds is exactly the sum of the
 accepted calls that are there, so no delta is ever lost, duplicated or moved between tenants.
 */
module RecorderAccounting {
  import opened Clock
  import opened RecorderMemory
  import opened RecorderWorld

  function Share(c: Call, k: Key, p: Place): nat {
    if c.state == Accepted(k, p) then c.delta else 0
  }

  /** The usage accepted under key `k` that is at place `p`, recomputed from the calls themselves. */
  function Total(calls: seq<Call>, k: Key, p: Place): nat {
    if calls == [] then 0
    else Total(calls[..|calls| - 1], k, p) + Share(calls[|calls| - 1], k, p)
  }

  lemma TotalAppend(calls: seq<Call>, c: Call, k: Key, p: Place)
    ensures Total(calls + [c], k, p) == Total(calls, k, p) + Share(c, k, p)
  {
    assert (calls + [c])[..|calls|] == calls;
  }

  lemma {:induction false} TotalUpdate(calls: seq<Call>, i: nat, c: Call, k: Key, p: Place)
    requires i < |calls|
    ensures Total(calls[i := c], k, p) + Share(calls[i], k, p) == Total(calls, k, p) + Share(c, k, p)
  {
    var n := |calls| - 1;
    if i == n {
      assert calls[i := c][..n] == calls[..n];
    } else {
      assert calls[i := c][..n] == calls[..n][i := c];
      TotalUpdate(calls[..n], i, c, k, p);
    }
  }

  /** Moving calls between places moves exactly their usage, and only within the scope. */
  lemma {:induction false} MovedTotal(calls: seq<Call>, moved: seq<Call>, s: Scope, src: Place, dst: Place, k: Key, p: Place)
    requires src != dst
    requires |moved| == |calls| && forall i | 0 <= i < |calls| :: moved[i] == Rehomed(calls[i], s, src, dst)
    ensures Total(moved, k, p) == AfterMove(s, src, dst, k, p, Total(calls, k, src), Total(calls, k, dst), Total(calls, k, p))
  {
    if calls != [] {
      var n := |calls| - 1;
      MovedTotal(calls[..n], moved[..n], s, src, dst, k, p);
      MovedShare(calls[n], s, src, dst, k, p);
      assert moved[n] == Rehomed(calls[n], s, src, dst);
      AfterMoveAdds(s, src, dst, k, p, Total(calls[..n], k, src), Total(calls[..n], k, dst), Total(calls[..n], k, p),
                    Share(calls[n], k, src), Share(calls[n], k, dst), Share(calls[n], k, p));
    }
  }

  lemma AfterMoveAdds(s: Scope, src: Place, dst: Place, k: Key, p: Place, a: nat, b: nat, c: nat, x: nat, y: nat, z: nat)
    ensures AfterMove(s, src, dst, k, p, a + x, b + y, c + z) == AfterMove(s, src, dst, k, p, a, b, c) + AfterMove(s, src, dst, k, p, x, y, z)
  {
  }

  function AfterMove(s: Scope, src: Place, dst: Place, k: Key, p: Place, atSrc: nat, atDst: nat, atP: nat): nat {
    if !Within(s, k) then atP else if p == src then 0 else if p == dst then atSrc + atDst else atP
  }

  lemma MovedShare(c: Call, s: Scope, src: Place, dst: Place, k: Key, p: Place)
    requires src != dst
    ensures Share(Rehomed(c, s, src, dst), k, p) == AfterMove(s, src, dst, k, p, Share(c, k, src), Share(c, k, dst), Share(c, k, p))
  {
  }

  lemma MovedTotals(calls: seq<Call>, s: Scope, src: Place, dst: Place, k: Key)
    requires src != dst
    ensures Within(s, k) ==> Total(Moved(calls, s, src, dst), k, src) == 0
    ensures Within(s, k) ==> Total(Moved(calls, s, src, dst), k, dst) == Total(calls, k, src) + Total(calls, k, dst)
    ensures forall p: Place | !Within(s, k) || (p != src && p != dst) ::
              Total(Moved(calls, s, src, dst), k, p) == Total(calls, k, p)
  {
    forall p: Place {
      MovedTotal(calls, Moved(calls, s, src, dst), s, src, dst, k, p);
    }
  }

  lemma {:induction false} DiedTotals(calls: seq<Call>, dead: seq<Call>, k: Key, p: Place)
    requires |dead| == |calls| && forall i | 0 <= i < |calls| :: dead[i] == Died(calls[i])
    ensures Total(dead, k, p) == Total(calls, k, p)
  {
    if calls != [] {
      var n := |calls| - 1;
      DiedTotals(calls[..n], dead[..n], k, p);
    }
  }

  lemma {:induction false} TotalOfAbsentKey(calls: seq<Call>, k: Key, p: Place)
    requires forall i | 0 <= i < |calls| :: calls[i].state != Accepted(k, p)
    ensures Total(calls, k, p) == 0
  {
    if calls != [] {
      TotalOfAbsentKey(calls[..|calls| - 1], k, p);
    }
  }

  lemma {:induction false} TotalCounts(calls: seq<Call>, i: nat, k: Key, p: Place)
    requires i < |calls| && calls[i].state == Accepted(k, p)
    ensures calls[i].delta <= Total(calls, k, p)
  {
    if i < |calls| - 1 {
      TotalCounts(calls[..|calls| - 1], i, k, p);
    }
  }

  // ---- the ledger ----

  /** What the running flush still holds of a key: its batch, until the group's transaction commits or its deltas are settled. */
  function InHand(f: FlushState, k: Key): nat {
    if f.Flushing? && ObserverOf(k) in f.groups && (f.groups[ObserverOf(k)].Ready? || f.groups[ObserverOf(k)].Refused?)
    then Amount(f.batch, k) else 0
  }

  function StoredUnderLive(db: Database, calls: seq<Call>, r: Row): nat {
    if r.tenant in db.live then Total(calls, KeyOf(r, db.live[r.tenant]), Stored) else 0
  }

  ghost predicate PendingExact(m: Memory, calls: seq<Call>, echo: Counts) {
    forall k: Key :: Amount(m.pending, k) == Total(calls, k, InPending) + Amount(echo, k)
  }

  ghost predicate BatchExact(f: FlushState, calls: seq<Call>, echo: Counts) {
    forall k: Key :: InHand(f, k) == Total(calls, k, InBatch) + Amount(echo, k)
  }

  /** A row holds what this process and the others have stored, what was stored twice, and nothing else. */
  ghost predicate RowsExact(db: Database, calls: seq<Call>, others: map<Row, nat>, echo: map<Row, nat>) {
    forall r: Row :: RowAmount(db.rows, r) == StoredUnderLive(db, calls, r) + RowAmount(others, r) + RowAmount(echo, r)
  }

  ghost predicate Accounted(w: World) {
    && PendingExact(w.memory, w.calls, w.echo.pending) && BatchExact(w.flush, w.calls, w.echo.batch)
    && RowsExact(w.db, w.calls, w.others, w.echo.rows)
  }

  /** Accepted keys belong to registrations the database has issued; a flush has a group for all it took. */
  ghost predicate KeysIssued(db: Database, calls: seq<Call>) {
    && (forall t | t in db.live :: Observer(t, db.live[t]) in db.registered)
    && forall i | 0 <= i < |calls| && calls[i].state.Accepted? :: ObserverOf(calls[i].state.key) in db.registered
  }

  ghost predicate GroupsCover(f: FlushState) {
    f.Flushing? ==> forall k | k in f.batch :: ObserverOf(k) in f.groups
  }

  lemma AccountedBegin(w: World, tenant: string, meter: string, delta: nat, at: Instant)
    requires Accounted(w)
    ensures Accounted(Begun(w, tenant, meter, delta, at))
  {
    var w' := Begun(w, tenant, meter, delta, at);
    forall k: Key, p: Place
      ensures Total(w'.calls, k, p) == Total(w.calls, k, p)
    {
      TotalAppend(w.calls, w'.calls[|w.calls|], k, p);
    }
  }

  lemma AccountedLookup(w: World, i: nat, answered: bool)
    requires Accounted(w) && i < |w.calls| && w.calls[i].state.Waiting?
    ensures Accounted(LookedUp(w, i, answered))
  {
    var w' := LookedUp(w, i, answered);
    forall k: Key, p: Place
      ensures Total(w'.calls, k, p) == Total(w.calls, k, p)
    {
      TotalUpdate(w.calls, i, w'.calls[i], k, p);
    }
  }

  lemma AccountedFinish(w: World, i: nat)
    requires Accounted(w) && Enabled(w, Finish(i))
    ensures Accounted(Finished(w, i))
  {
    var w' := Finished(w, i);
    forall k: Key, p: Place
      ensures Total(w'.calls, k, p) == Total(w.calls, k, p) + Share(w'.calls[i], k, p)
    {
      TotalUpdate(w.calls, i, w'.calls[i], k, p);
    }
  }

  lemma AccountedSnapshot(w: World)
    requires Accounted(w) && w.flush.Idle?
    ensures Accounted(Snapped(w)) && GroupsCover(Snapped(w).flush)
  {
    var w' := Snapped(w);
    forall k: Key
      ensures InHand(w'.flush, k) == Amount(w.memory.pending, k)
      ensures Total(w'.calls, k, InPending) == 0 && Total(w'.calls, k, InBatch) == Total(w.calls, k, InPending)
      ensures Total(w'.calls, k, Stored) == Total(w.calls, k, Stored)
    {
      MovedTotals(w.calls, Everyone, InPending, InBatch, k);
      assert InHand(w.flush, k) == 0 && Total(w.calls, k, InBatch) == 0;
      if k in w.memory.pending { assert ObserverOf(k) in ObserversOf(w.memory.pending); }
    }
  }

  lemma AddedRowsAmount(rows: map<Row, nat>, group: Counts, registration: string, r: Row)
    ensures RowAmount(AddedRows(rows, group, registration), r) ==
            RowAmount(rows, r) + Amount(group, KeyOf(r, registration))
  {
    var k := KeyOf(r, registration);
    if k in group {
      assert RowOf(k) == r;
      assert r in set j | j in group :: RowOf(j);
    }
  }

  /** What becomes of a group's usage when its transaction commits: its own is stored, and its echoes are stored. */
  lemma BatchToStore(f: FlushState, calls: seq<Call>, echo: Counts, o: Observer, g: GroupState, k: Key)
    requires f.Flushing? && o in f.groups && f.groups[o].Ready? && InHand(f, k) == Total(calls, k, InBatch) + Amount(echo, k)
    requires g == Done || g == Refused(false)
    ensures
      var calls' := Moved(calls, Only(o), InBatch, Stored);
      var echo' := if g == Done then Without(echo, o) else Merged(Without(echo, o), GroupOf(f.batch, o));
      && Total(calls', k, InPending) == Total(calls, k, InPending)
      && InHand(f.(groups := f.groups[o := g]), k) == Total(calls', k, InBatch) + Amount(echo', k)
      && Total(calls', k, Stored) + Amount(GroupOf(echo, o), k) == Total(calls, k, Stored) + Amount(GroupOf(f.batch, o), k)
  {
    MovedTotals(calls, Only(o), InBatch, Stored, k);
  }

  /** A committed group adds to a row what it adds to the stored usage and to the stored echoes. */
  lemma CommittedRow(w: World, o: Observer, w': World, r: Row)
    requires RowAmount(w.db.rows, r) == StoredUnderLive(w.db, w.calls, r) + RowAmount(w.others, r) + RowAmount(w.echo.rows, r)
    requires w.flush.Flushing? && Live(w.db, o) && w'.others == w.others && w'.db.live == w.db.live
    requires w'.db.rows == AddedRows(w.db.rows, GroupOf(w.flush.batch, o), o.registration)
    requires w'.echo.rows == AddedRows(w.echo.rows, GroupOf(w.echo.batch, o), o.registration)
    requires forall k: Key :: Total(w'.calls, k, Stored) + Amount(GroupOf(w.echo.batch, o), k) ==
                              Total(w.calls, k, Stored) + Amount(GroupOf(w.flush.batch, o), k)
    ensures RowAmount(w'.db.rows, r) == StoredUnderLive(w'.db, w'.calls, r) + RowAmount(w'.others, r) + RowAmount(w'.echo.rows, r)
  {
    AddedRowsAmount(w.db.rows, GroupOf(w.flush.batch, o), o.registration, r);
    AddedRowsAmount(w.echo.rows, GroupOf(w.echo.batch, o), o.registration, r);
  }

  lemma AccountedCommit(w: World, o: Observer, g: GroupState, w': World)
    requires Accounted(w) && w.flush.Flushing? && o in w.flush.groups && w.flush.groups[o].Ready? && Live(w.db, o)
    requires g == Done || g == Refused(false)
    requires w'.memory == w.memory && w'.calls == Moved(w.calls, Only(o), InBatch, Stored)
    requires w'.flush == w.flush.(groups := w.flush.groups[o := g])
    requires w'.echo.pending == w.echo.pending
    requires w'.echo.batch == if g == Done then Without(w.echo.batch, o) else Merged(Without(w.echo.batch, o), GroupOf(w.flush.batch, o))
    requires w'.echo.rows == AddedRows(w.echo.rows, GroupOf(w.echo.batch, o), o.registration)
    requires w'.others == w.others && w'.db.live == w.db.live && w'.db.rows == AddedRows(w.db.rows, GroupOf(w.flush.batch, o), o.registration)
    ensures Accounted(w')
  {
    forall k: Key
      ensures Total(w'.calls, k, InPending) == Total(w.calls, k, InPending)
      ensures InHand(w'.flush, k) == Total(w'.calls, k, InBatch) + Amount(w'.echo.batch, k)
      ensures Total(w'.calls, k, Stored) + Amount(GroupOf(w.echo.batch, o), k) ==
              Total(w.calls, k, Stored) + Amount(GroupOf(w.flush.batch, o), k)
    {
      BatchToStore(w.flush, w.calls, w.echo.batch, o, g, k);
    }
    forall r: Row
      ensures RowAmount(w'.db.rows, r) == StoredUnderLive(w'.db, w'.calls, r) + RowAmount(w'.others, r) + RowAmount(w'.echo.rows, r)
    {
      CommittedRow(w, o, w', r);
    }
  }

  lemma AccountedTransaction(w: World, o: Observer, reached: bool)
    requires Accounted(w) && Enabled(w, Transaction(o, reached)) && GroupsCover(w.flush)
    ensures Accounted(Transacted(w, o, reached)) && GroupsCover(Transacted(w, o, reached).flush)
  {
    var w' := Transacted(w, o, reached);
    if w'.flush.groups[o] == Done {
      AccountedCommit(w, o, Done, w');
    } else {
      forall k: Key
        ensures InHand(w'.flush, k) == InHand(w.flush, k)
      {
      }
    }
  }

  lemma AccountedUnheard(w: World, o: Observer)
    requires Accounted(w) && Enabled(w, Unheard(o)) && GroupsCover(w.flush)
    ensures Accounted(Landed(w, o)) && GroupsCover(Landed(w, o).flush)
  {
    AccountedCommit(w, o, Refused(false), Landed(w, o));
  }

  lemma BatchToPending(f: FlushState, pending: Counts, calls: seq<Call>, echo: Echo, o: Observer, k: Key)
    requires f.Flushing? && o in f.groups && f.groups[o].Refused?
    requires InHand(f, k) == Total(calls, k, InBatch) + Amount(echo.batch, k)
    requires Amount(pending, k) == Total(calls, k, InPending) + Amount(echo.pending, k)
    ensures
      var calls' := Moved(calls, Only(o), InBatch, InPending);
      && Amount(Merged(pending, GroupOf(f.batch, o)), k) ==
         Total(calls', k, InPending) + Amount(Merged(echo.pending, GroupOf(echo.batch, o)), k)
      && InHand(f.(groups := f.groups[o := Settled]), k) == Total(calls', k, InBatch) + Amount(Without(echo.batch, o), k)
      && Total(calls', k, Stored) == Total(calls, k, Stored)
  {
    MovedTotals(calls, Only(o), InBatch, InPending, k);
  }

  lemma AccountedReturn(w: World, o: Observer)
    requires Accounted(w) && Enabled(w, Settle(o)) && w.flush.groups[o] == Refused(false)
    ensures Accounted(SettledGroup(w, o))
  {
    var w' := SettledGroup(w, o);
    forall k: Key
      ensures Amount(w'.memory.pending, k) == Total(w'.calls, k, InPending) + Amount(w'.echo.pending, k)
      ensures InHand(w'.flush, k) == Total(w'.calls, k, InBatch) + Amount(w'.echo.batch, k)
      ensures Total(w'.calls, k, Stored) == Total(w.calls, k, Stored)
    {
      BatchToPending(w.flush, w.memory.pending, w.calls, w.echo, o, k);
    }
  }

  lemma VoidedTotals(calls: seq<Call>, o: Observer, k: Key, p: Place)
    requires p != Voided
    ensures Total(Moved(Moved(calls, Only(o), InBatch, Voided), Only(o), InPending, Voided), k, p) ==
            if ObserverOf(k) == o && (p.InBatch? || p.InPending?) then 0 else Total(calls, k, p)
  {
    var mid := Moved(calls, Only(o), InBatch, Voided);
    MovedTotal(calls, mid, Only(o), InBatch, Voided, k, p);
    MovedTotal(mid, Moved(mid, Only(o), InPending, Voided), Only(o), InPending, Voided, k, p);
  }

  lemma AccountedDiscard(w: World, o: Observer)
    requires Accounted(w) && Enabled(w, Settle(o)) && w.flush.groups[o] == Refused(true)
    ensures Accounted(SettledGroup(w, o))
  {
    var w' := SettledGroup(w, o);
    forall k: Key
      ensures Amount(w'.memory.pending, k) == Total(w'.calls, k, InPending) + Amount(w'.echo.pending, k)
      ensures InHand(w'.flush, k) == Total(w'.calls, k, InBatch) + Amount(w'.echo.batch, k)
      ensures Total(w'.calls, k, Stored) == Total(w.calls, k, Stored)
    {
      DiscardedKey(w, o, k);
    }
  }

  lemma DiscardedKey(w: World, o: Observer, k: Key)
    requires Enabled(w, Settle(o)) && w.flush.groups[o] == Refused(true)
    requires InHand(w.flush, k) == Total(w.calls, k, InBatch) + Amount(w.echo.batch, k)
    requires Amount(w.memory.pending, k) == Total(w.calls, k, InPending) + Amount(w.echo.pending, k)
    ensures
      var w' := SettledGroup(w, o);
      && Amount(w'.memory.pending, k) == Total(w'.calls, k, InPending) + Amount(w'.echo.pending, k)
      && InHand(w'.flush, k) == Total(w'.calls, k, InBatch) + Amount(w'.echo.batch, k)
      && Total(w'.calls, k, Stored) == Total(w.calls, k, Stored)
  {
    VoidedTotals(w.calls, o, k, InPending);
    VoidedTotals(w.calls, o, k, InBatch);
    VoidedTotals(w.calls, o, k, Stored);
    DiscardedAmounts(w, o, k);
  }

  lemma DiscardedAmounts(w: World, o: Observer, k: Key)
    requires Enabled(w, Settle(o)) && w.flush.groups[o] == Refused(true)
    ensures
      var w' := SettledGroup(w, o);
      && w'.calls == Moved(Moved(w.calls, Only(o), InBatch, Voided), Only(o), InPending, Voided)
      && Amount(w'.memory.pending, k) == (if ObserverOf(k) == o then 0 else Amount(w.memory.pending, k))
      && Amount(w'.echo.pending, k) == (if ObserverOf(k) == o then 0 else Amount(w.echo.pending, k))
      && Amount(w'.echo.batch, k) == (if ObserverOf(k) == o then 0 else Amount(w.echo.batch, k))
      && InHand(w'.flush, k) == (if ObserverOf(k) == o then 0 else InHand(w.flush, k))
  {
  }

  lemma AccountedSettle(w: World, o: Observer)
    requires Accounted(w) && Enabled(w, Settle(o)) && GroupsCover(w.flush)
    ensures Accounted(SettledGroup(w, o)) && GroupsCover(SettledGroup(w, o).flush)
  {
    if w.flush.groups[o].Done? {
      var w' := SettledGroup(w, o);
      assert w'.memory.pending == w.memory.pending;
      assert forall k: Key :: InHand(w'.flush, k) == InHand(w.flush, k);
    } else if w.flush.groups[o].erased {
      AccountedDiscard(w, o);
    } else {
      AccountedReturn(w, o);
    }
  }

  lemma AccountedEndFlush(w: World)
    requires Accounted(w) && Enabled(w, EndFlush)
    ensures Accounted(w.(flush := Idle))
  {
    assert forall k: Key :: InHand(w.flush, k) == 0;
  }

  lemma AccountedRegister(w: World, t: string, r: string)
    requires Accounted(w) && KeysIssued(w.db, w.calls) && Enabled(w, Register(t, r))
    ensures Accounted(Apply(w, Register(t, r)))
  {
    var w' := Apply(w, Register(t, r));
    forall row: Row
      ensures RowAmount(w'.db.rows, row) == StoredUnderLive(w'.db, w'.calls, row) + RowAmount(w'.others, row) + RowAmount(w'.echo.rows, row)
    {
      assert RowAmount(w.db.rows, row) == StoredUnderLive(w.db, w.calls, row) + RowAmount(w.others, row) + RowAmount(w.echo.rows, row);
      if row.tenant == t {
        TotalOfAbsentKey(w.calls, KeyOf(row, r), Stored);
      }
    }
  }

  lemma AccountedOffboard(w: World, t: string)
    requires Accounted(w) && Enabled(w, Offboard(t))
    ensures Accounted(Apply(w, Offboard(t)))
  {
    var w' := Apply(w, Offboard(t));
    forall k: Key
      ensures Total(w'.calls, k, InPending) == Total(w.calls, k, InPending)
      ensures Total(w'.calls, k, InBatch) == Total(w.calls, k, InBatch)
      ensures k.tenant != t ==> Total(w'.calls, k, Stored) == Total(w.calls, k, Stored)
    {
      MovedTotals(w.calls, OfTenant(t), Stored, Erased, k);
    }
    forall row: Row
      ensures RowAmount(w'.db.rows, row) == StoredUnderLive(w'.db, w'.calls, row) + RowAmount(w'.others, row) + RowAmount(w'.echo.rows, row)
    {
      assert RowAmount(w.db.rows, row) == StoredUnderLive(w.db, w.calls, row) + RowAmount(w.others, row) + RowAmount(w.echo.rows, row);
    }
  }

  lemma AccountedCrash(w: World)
    requires Accounted(w)
    ensures Accounted(Crashed(w))
  {
    var w' := Crashed(w);
    var first := Moved(w.calls, Everyone, InPending, Lost);
    var second := Moved(first, Everyone, InBatch, Lost);
    forall k: Key
      ensures Total(w'.calls, k, InPending) == 0 && Total(w'.calls, k, InBatch) == 0
      ensures Total(w'.calls, k, Stored) == Total(w.calls, k, Stored)
    {
      MovedTotals(w.calls, Everyone, InPending, Lost, k);
      MovedTotals(first, Everyone, InBatch, Lost, k);
      DiedTotals(second, w'.calls, k, InPending);
      DiedTotals(second, w'.calls, k, InBatch);
      DiedTotals(second, w'.calls, k, Stored);
    }
  }

  lemma AccountedElsewhere(w: World, group: Counts, interval: Interval)
    requires Accounted(w) && Enabled(w, Elsewhere(group, interval))
    ensures Accounted(FlushedElsewhere(w, group, interval))
  {
    var w' := FlushedElsewhere(w, group, interval);
    forall r: Row
      ensures RowAmount(w'.db.rows, r) == StoredUnderLive(w'.db, w'.calls, r) + RowAmount(w'.others, r) + RowAmount(w'.echo.rows, r)
    {
      AddedRowsAmount(w.db.rows, group, interval.registration, r);
      AddedRowsAmount(w.others, group, interval.registration, r);
      assert RowAmount(w.db.rows, r) == StoredUnderLive(w.db, w.calls, r) + RowAmount(w.others, r) + RowAmount(w.echo.rows, r);
    }
  }

  // ---- the conservation law ----

  function Everywhere(calls: seq<Call>, k: Key): nat {
    Total(calls, k, InPending) + Total(calls, k, InBatch) + Total(calls, k, Stored)
    + Total(calls, k, Erased) + Total(calls, k, Voided) + Total(calls, k, Lost)
  }

  /** A call accepted under the registration, of the tenant and meter, made in the hour. */
  predicate BelongsTo(c: Call, k: Key) {
    c.state.Accepted? && Names(k, c) && c.state.key.registration == k.registration
  }

  /** The usage of the calls that belong to a key, wherever it is now. */
  function AcceptedTotal(calls: seq<Call>, k: Key): nat {
    if calls == [] then 0
    else
      var last := calls[|calls| - 1];
      AcceptedTotal(calls[..|calls| - 1], k) + if BelongsTo(last, k) then last.delta else 0
  }

  /** Every accepted call is queued, flushed and stored under a key that names it. */
  ghost predicate AllNamed(calls: seq<Call>) {
    forall i | 0 <= i < |calls| && calls[i].state.Accepted? :: Names(calls[i].state.key, calls[i])
  }

  /** A key that names a call is settled by the call and its registration. */
  lemma NamedOnce(a: Key, b: Key, c: Call)
    requires Names(a, c) && Names(b, c) && a.registration == b.registration
    ensures a == b
  {
    assert a.period / HOUR * HOUR == a.period && b.period / HOUR * HOUR == b.period;
    assert a.period / HOUR == b.period / HOUR;
  }

  lemma {:induction false} AcceptedIsEverywhere(calls: seq<Call>, k: Key)
    requires AllNamed(calls)
    ensures AcceptedTotal(calls, k) == Everywhere(calls, k)
  {
    if calls != [] {
      AcceptedIsEverywhere(calls[..|calls| - 1], k);
      var last := calls[|calls| - 1];
      assert last.state.Accepted? ==> Names(last.state.key, last);
      if BelongsTo(last, k) {
        NamedOnce(last.state.key, k, last);
      }
      if last.state.Accepted? && last.state.key == k {
        assert forall p: Place :: Share(last, k, p) == if p == last.state.place then last.delta else 0;
      }
    }
  }

  /** What is counted beyond a key's own usage, wherever it is now. */
  function Echoed(w: World, k: Key): nat {
    Amount(w.echo.pending, k) + Amount(w.echo.batch, k)
    + if Live(w.db, ObserverOf(k)) then RowAmount(w.echo.rows, RowOf(k)) else 0
  }

  /** Accepted + counted twice = queued + in the running flush + stored + erased with the tenant + voided for an
      erased registration + lost to a crash, where queue, flush and rows are the real structures and
      the row is less what other processes added to it. */
  lemma Conservation(w: World, k: Key)
    requires Accounted(w) && AllNamed(w.calls) && Live(w.db, ObserverOf(k))
    ensures RowAmount(w.others, RowOf(k)) <= RowAmount(w.db.rows, RowOf(k))
    ensures AcceptedTotal(w.calls, k) + Echoed(w, k) ==
            Amount(w.memory.pending, k) + InHand(w.flush, k)
            + (RowAmount(w.db.rows, RowOf(k)) - RowAmount(w.others, RowOf(k)))
            + Total(w.calls, k, Erased) + Total(w.calls, k, Voided) + Total(w.calls, k, Lost)
  {
    var r := RowOf(k);
    AcceptedIsEverywhere(w.calls, k);
    assert KeyOf(r, w.db.live[k.tenant]) == k;
    assert Amount(w.memory.pending, k) == Total(w.calls, k, InPending) + Amount(w.echo.pending, k);
    assert InHand(w.flush, k) == Total(w.calls, k, InBatch) + Amount(w.echo.batch, k);
    assert RowAmount(w.db.rows, r) == StoredUnderLive(w.db, w.calls, r) + RowAmount(w.others, r) + RowAmount(w.echo.rows, r);
  }
}
