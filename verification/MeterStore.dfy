/**
 The metering tables of the durable store, updated in place by one flush transaction.
 */
module MeterStore {
  import opened Clock
  import opened RecorderMemory
  import opened RecorderWorld

  class PgStore {
    var live: map<string, string>
    var registered: set<Observer>
    var rows: map<Row, nat>
    var coverage: seq<Interval>

    ghost function Value(): Database
      reads this
    {
      Database(live, registered, rows, coverage)
    }

    constructor ()
      ensures Value() == NEW_DATABASE
    {
      live, registered, rows, coverage := map[], {}, map[], [];
    }

    /** Upsert every counter of one tenant's group, adding to the row already there. */
    method AddCounterRows(group: Counts, registration: string)
      requires forall k | k in group :: k.registration == registration
      modifies this`rows
      ensures rows == AddedRows(old(rows), group, registration)
    {
      rows := Upserted(rows, group, registration);
    }

    /** Commit one observer's counters and its observed interval together, or nothing at all. */
    method FlushObservedCounters(group: Counts, interval: Interval) returns (r: TxResult)
      requires forall k | k in group :: k.registration == interval.registration
      modifies this
      ensures (Value(), r) == Transact(old(Value()), group, interval)
    {
      if interval.tenant == "" || interval.registration == "" || interval.until < interval.from {
        return OtherError;
      }
      var foreign := HasForeign(group, interval.tenant);
      if foreign {
        return OtherError;
      }
      if interval.tenant !in live || live[interval.tenant] != interval.registration {
        return ErasedRegistration;
      }
      AddCounterRows(group, interval.registration);
      if interval.from == ZERO_TIME || interval.until == interval.from {
        return Committed;
      }
      coverage := coverage + [interval];
      return Committed;
    }
  }

  method HasForeign(group: Counts, tenant: string) returns (foreign: bool)
    ensures foreign == ForeignCounter(group, tenant)
  {
    foreign := false;
    var left := group.Keys;
    while left != {}
      invariant left <= group.Keys
      invariant forall k | k in group && k !in left :: k.tenant == tenant
      decreases |left|
    {
      var k :| k in left;
      if k.tenant != tenant {
        return true;
      }
      left := left - {k};
    }
  }

  method Upserted(before: map<Row, nat>, group: Counts, registration: string) returns (rows: map<Row, nat>)
    requires forall k | k in group :: k.registration == registration
    ensures rows == AddedRows(before, group, registration)
  {
    rows := before;
    var left := group.Keys;
    NothingAdded(before, group, registration);
    while left != {}
      invariant left <= group.Keys
      invariant rows == AddedRows(before, Except(group, left), registration)
      decreases |left|
    {
      var k :| k in left;
      AddOneRow(before, group, left, k, registration);
      rows := rows[RowOf(k) := RowAmount(rows, RowOf(k)) + group[k]];
      left := left - {k};
    }
    AllAdded(group, left);
  }

  lemma NothingAdded(before: map<Row, nat>, group: Counts, registration: string)
    ensures AddedRows(before, Except(group, group.Keys), registration) == before
  {
  }

  lemma AllAdded(group: Counts, left: set<Key>)
    requires left == {}
    ensures Except(group, left) == group
  {
  }

  lemma AddOneRow(before: map<Row, nat>, group: Counts, left: set<Key>, k: Key, registration: string)
    requires k in group && k in left && forall j | j in group :: j.registration == registration
    ensures
      var now := AddedRows(before, Except(group, left), registration);
      AddedRows(before, Except(group, left - {k}), registration) == now[RowOf(k) := RowAmount(now, RowOf(k)) + group[k]]
  {
    var a, b := Except(group, left), Except(group, left - {k});
    var x, y := AddedRows(before, a, registration), AddedRows(before, b, registration);
    assert b == a[k := group[k]];
    assert RowAmount(x, RowOf(k)) == RowAmount(before, RowOf(k));
    forall r: Row
      ensures r in y <==> r in x || r == RowOf(k)
      ensures r in y && r != RowOf(k) ==> y[r] == x[r]
    {
      OtherRow(before, a, k, group[k], registration, r);
    }
  }

  lemma OtherRow(before: map<Row, nat>, a: Counts, k: Key, amount: nat, registration: string, r: Row)
    requires k.registration == registration && k !in a
    ensures
      var x, y := AddedRows(before, a, registration), AddedRows(before, a[k := amount], registration);
      (r in y <==> r in x || r == RowOf(k)) && (r in y && r != RowOf(k) ==> y[r] == x[r])
  {
    var b := a[k := amount];
    if exists j :: j in a && RowOf(j) == r {
      var j :| j in a && RowOf(j) == r;
      assert j in b;
    }
    assert k in b;
    assert r != RowOf(k) ==> Amount(b, KeyOf(r, registration)) == Amount(a, KeyOf(r, registration));
  }
}
