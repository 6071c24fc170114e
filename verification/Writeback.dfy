/**
 Directory role groups: bring one member's entry into line with every mapped group, through a directory
 that may refuse a request or lose its answer.
 */
module Writeback {
  import opened GroupNames
  import opened Sorting
  import opened Text

  // ---- the directory ----

  /** Member values by directory entry. Below, `denote` says which entry a group name is read as, `key` how the
      writeback compares member values (normalized, in lower case), and `same` how the directory itself does. */
  type Members = map<string, seq<string>>

  predicate Holds(key: string -> string, values: seq<string>, member: string) {
    exists i :: 0 <= i < |values| && key(values[i]) == key(member)
  }

  /** The values that are not the member's. */
  function Others(key: string -> string, values: seq<string>, member: string): seq<string> {
    if values == [] then []
    else
      var rest := Others(key, values[..|values| - 1], member);
      var v := values[|values| - 1];
      if key(v) == key(member) then rest else rest + [v]
  }

  lemma {:induction false} OthersLacks(key: string -> string, values: seq<string>, member: string)
    ensures !Holds(key, Others(key, values, member), member)
    ensures Others(key, Others(key, values, member), member) == Others(key, values, member)
  {
    if values != [] {
      var rest := Others(key, values[..|values| - 1], member);
      var v := values[|values| - 1];
      OthersLacks(key, values[..|values| - 1], member);
      if key(v) != key(member) {
        assert (rest + [v])[..|rest|] == rest;
      }
    }
  }

  lemma {:induction false} OthersAmong(key: string -> string, values: seq<string>, member: string)
    ensures forall v | v in Others(key, values, member) :: v in values
  {
    if values != [] {
      OthersAmong(key, values[..|values| - 1], member);
    }
  }

  lemma OthersOfAdded(key: string -> string, values: seq<string>, member: string)
    ensures Holds(key, values + [member], member)
    ensures Others(key, values + [member], member) == Others(key, values, member)
  {
    assert (values + [member])[..|values|] == values;
    assert (values + [member])[|values|] == member;
  }

  // ---- the groups ----

  /** The groups an active member's roles ask for. */
  function Wanted(active: bool, roles: seq<string>, roleGroups: map<string, string>): set<string> {
    if active then set role | role in roles && role in roleGroups :: Normalized(roleGroups[role]) else {}
  }

  ghost predicate Distinct(s: seq<string>) {
    forall i, j | 0 <= i < j < |s| :: s[i] != s[j]
  }

  lemma OrderTotal()
    ensures TotalPreorder(AtMost)
  {
    forall a, b
      ensures AtMost(a, b) || AtMost(b, a)
    {
      AtMostTotal(a, b);
    }
    forall a, b, c | AtMost(a, b) && AtMost(b, c)
      ensures AtMost(a, c)
    {
      AtMostTransitive(a, b, c);
    }
  }

  lemma DistinctCount(s: seq<string>, r: seq<string>)
    requires Distinct(s) && multiset(r) == multiset(s)
    ensures Distinct(r)
  {
    forall i, j | 0 <= i < j < |r|
      ensures r[i] != r[j]
    {
      if r[i] == r[j] {
        assert r == r[..i] + [r[i]] + r[i + 1..j] + [r[j]] + r[j + 1..];
        assert multiset(r)[r[i]] >= 2;
        OnceOnly(s, r[i]);
      }
    }
  }

  lemma {:induction false} OnceOnly(s: seq<string>, x: string)
    requires Distinct(s)
    ensures multiset(s)[x] <= 1
  {
    if s != [] {
      var n := |s| - 1;
      assert s == s[..n] + [s[n]];
      OnceOnly(s[..n], x);
      if x == s[n] {
        assert x !in s[..n];
        assert multiset(s[..n])[x] == 0;
      }
    }
  }

  /** The first `n` mapped groups, each once, by its normalized name. */
  ghost predicate Collected(mapped: seq<string>, n: nat, groups: seq<string>)
    requires n <= |mapped|
  {
    Distinct(groups) && forall g :: g in groups <==> exists i :: 0 <= i < n && Normalized(mapped[i]) == g
  }

  lemma CollectsNext(mapped: seq<string>, n: nat, groups: seq<string>)
    requires n < |mapped| && Collected(mapped, n, groups)
    ensures
      var dn := Normalized(mapped[n]);
      Collected(mapped, n + 1, if dn in groups then groups else groups + [dn])
  {
    var dn := Normalized(mapped[n]);
    var next := if dn in groups then groups else groups + [dn];
    forall g
      ensures g in next <==> exists i :: 0 <= i < n + 1 && Normalized(mapped[i]) == g
    {
      assert g in next <==> g in groups || g == dn;
    }
  }

  lemma SameElements(groups: seq<string>, sorted: seq<string>)
    requires multiset(groups) == multiset(sorted)
    ensures forall g :: g in groups <==> g in sorted
  {
    forall g
      ensures g in groups <==> g in sorted
    {
      assert g in groups <==> g in multiset(groups);
    }
  }

  /** Every mapped group once, by its normalized name, in order. The map is walked in any order. */
  method GroupList(mapped: seq<string>) returns (groups: seq<string>)
    ensures Distinct(groups) && SortedBy(groups, AtMost)
    ensures forall g :: g in groups <==> exists i :: 0 <= i < |mapped| && Normalized(mapped[i]) == g
  {
    groups := [];
    var i := 0;
    while i < |mapped|
      invariant 0 <= i <= |mapped| && Collected(mapped, i, groups)
    {
      CollectsNext(mapped, i, groups);
      var dn := NormalizeGroupDN(mapped[i]);
      if dn !in groups {
        groups := groups + [dn];
      }
      i := i + 1;
    }
    OrderTotal();
    var sorted := Sorted(groups, AtMost);
    DistinctCount(groups, sorted);
    SameElements(groups, sorted);
    groups := sorted;
  }

  /** The order of the walk leaves no trace: the list is settled by the set of names. */
  lemma {:induction false} GroupListUnique(a: seq<string>, b: seq<string>)
    requires Distinct(a) && Distinct(b) && SortedBy(a, AtMost) && SortedBy(b, AtMost)
    requires forall g :: g in a <==> g in b
    ensures a == b
    decreases |a|
  {
    SameEmptiness(a, b);
    if a != [] {
      assert a[0] in b && b[0] in a;
      FirstIsLeast(a, b[0]);
      FirstIsLeast(b, a[0]);
      AtMostAntisymmetric(a[0], b[0]);
      forall g
        ensures g in a[1..] <==> g in b[1..]
      {
        InTail(a, g);
        InTail(b, g);
      }
      GroupListUnique(a[1..], b[1..]);
      assert a == [a[0]] + a[1..] && b == [b[0]] + b[1..];
    }
  }

  lemma SameEmptiness(a: seq<string>, b: seq<string>)
    requires forall g :: g in a <==> g in b
    ensures a == [] <==> b == []
  {
    if a != [] { assert a[0] in b; }
    if b != [] { assert b[0] in a; }
  }

  lemma FirstIsLeast(s: seq<string>, x: string)
    requires SortedBy(s, AtMost) && x in s
    ensures AtMost(s[0], x)
  {
    AtMostTotal(x, x);
  }

  lemma InTail(s: seq<string>, x: string)
    requires s != [] && Distinct(s)
    ensures x in s[1..] <==> x in s && x != s[0]
  {
    if x in s && x != s[0] {
      var i :| 0 <= i < |s| && s[i] == x;
      assert s[1..][i - 1] == x;
    }
  }

  // ---- one run ----

  /** Why a run stopped: a refusal is recorded and not retried, anything else is retried. */
  datatype Status = Going | Refused | Retry

  datatype Reply = Fine | Refusal | Lost(landed: bool)

  /** How the directory meets the requests for one group. */
  datatype Meeting = Meeting(search: Reply, change: Reply)

  /** `doubt` is the group, if any, whose change was made although its answer was lost. */
  datatype Progress = Progress(members: Members, added: seq<string>, removed: seq<string>, status: Status, doubt: seq<string>)

  datatype Job = Job(
    denote: string -> string, key: string -> string, same: string -> string, member: string, wanted: set<string>)

  predicate Present(j: Job, members: Members, entry: string) {
    entry in members && Holds(j.key, members[entry], j.member)
  }

  /** The directory finds the member's own value in the entry. */
  predicate Matched(j: Job, members: Members, entry: string) {
    entry in members && Holds(j.same, members[entry], j.member)
  }

  function With(j: Job, members: Members, entry: string): Members
    requires entry in members
  {
    members[entry := members[entry] + [j.member]]
  }

  function Without(j: Job, members: Members, entry: string): Members
    requires entry in members
  {
    members[entry := Others(j.same, members[entry], j.member)]
  }

  /** Apply one change and hear of it, be refused, or lose the answer. The directory refuses to add a value it already
      matches, and to remove one it does not. */
  function Changed(p: Progress, group: string, members: Members, adding: bool, possible: bool, reply: Reply): Progress {
    match reply
    case Fine =>
      if !possible then p.(status := Refused)
      else p.(members := members, added := p.added + (if adding then [group] else []),
         removed := p.removed + (if adding then [] else [group]))
    case Refusal => p.(status := Refused)
    case Lost(landed) => if landed && possible then p.(status := Retry, members := members, doubt := [group]) else p.(status := Retry)
  }

  function Reconciled(j: Job, p: Progress, group: string, m: Meeting): Progress {
    var entry := j.denote(group);
    if p.status != Going then p
    else if m.search.Lost? then p.(status := Retry)
    else if m.search.Refusal? || entry !in p.members then p.(status := Refused)
    else if group in j.wanted && !Present(j, p.members, entry) then
      Changed(p, group, With(j, p.members, entry), true, !Matched(j, p.members, entry), m.change)
    else if group !in j.wanted && Present(j, p.members, entry) then
      Changed(p, group, Without(j, p.members, entry), false, Matched(j, p.members, entry), m.change)
    else p
  }

  function After(j: Job, p: Progress, groups: seq<string>, meetings: nat -> Meeting, n: nat): Progress
    requires n <= |groups|
  {
    if n == 0 then p else Reconciled(j, After(j, p, groups, meetings, n - 1), groups[n - 1], meetings(n - 1))
  }

  function Begin(members: Members): Progress {
    Progress(members, [], [], Going, [])
  }

  class Directory {
    var members: Members

    /** Does the entry list the member? */
    method FindMember(key: string -> string, values: seq<string>, member: string) returns (present: bool)
      ensures present == Holds(key, values, member)
    {
      var memberKey := key(member);
      present := false;
      var i := 0;
      while i < |values|
        invariant 0 <= i <= |values| && forall k | 0 <= k < i :: key(values[k]) != memberKey
      {
        if key(values[i]) == memberKey {
          return true;
        }
        i := i + 1;
      }
    }

    /** The directory applies the change, unless it or the network refuses. */
    method Modify(changed: Members, possible: bool, reply: Reply) returns (status: Status)
      modifies this
      ensures members == if possible && (reply == Fine || reply == Lost(true)) then changed else old(members)
      ensures status == if reply.Lost? then Retry else if reply.Refusal? || !possible then Refused else Going
    {
      if possible && (reply.Fine? || (reply.Lost? && reply.landed)) {
        members := changed;
      }
      status := if reply.Lost? then Retry else if reply.Refusal? || !possible then Refused else Going;
    }

    /** Look one group up and make the change it needs, if any. */
    method ReconcileGroup(j: Job, ghost p: Progress, group: string, m: Meeting, added: seq<string>, removed: seq<string>)
      returns (added': seq<string>, removed': seq<string>, status: Status)
      requires Tracks(p, members, added, removed, Going)
      modifies this
      ensures Tracks(Reconciled(j, p, group, m), members, added', removed', status)
    {
      added', removed' := added, removed;
      var entry := j.denote(group);
      if m.search.Lost? {
        return added', removed', Retry;
      }
      if m.search.Refusal? || entry !in members {
        return added', removed', Refused;
      }
      var present := FindMember(j.key, members[entry], j.member);
      var adding := group in j.wanted;
      if adding == present {
        return added', removed', Going;
      }
      var matched := FindMember(j.same, members[entry], j.member);
      var changed := if adding then With(j, members, entry) else Without(j, members, entry);
      status := Modify(changed, adding != matched, m.change);
      if status == Going {
        added' := added + if adding then [group] else [];
        removed' := removed + if adding then [] else [group];
      }
    }

    method Apply(j: Job, groups: seq<string>, meetings: nat -> Meeting)
      returns (added: seq<string>, removed: seq<string>, status: Status)
      modifies this
      ensures Tracks(After(j, Begin(old(members)), groups, meetings, |groups|), members, added, removed, status)
    {
      added, removed, status := [], [], Going;
      ghost var start := Begin(members);
      var i := 0;
      while i < |groups|
        invariant 0 <= i <= |groups| && status == Going
        invariant Tracks(After(j, start, groups, meetings, i), members, added, removed, Going)
      {
        ghost var p := After(j, start, groups, meetings, i);
        added, removed, status := ReconcileGroup(j, p, groups[i], meetings(i), added, removed);
        i := i + 1;
        if status != Going {
          Stopped(j, start, groups, meetings, i);
          return;
        }
      }
    }
  }

  /** The running state is the directory and the lists at hand. */
  ghost predicate Tracks(p: Progress, members: Members, added: seq<string>, removed: seq<string>, status: Status) {
    p.members == members && p.added == added && p.removed == removed && p.status == status
  }

  /** Once stopped, the rest of the groups are not visited. */
  lemma {:induction false} Stopped(j: Job, p: Progress, groups: seq<string>, meetings: nat -> Meeting, n: nat)
    requires n <= |groups| && After(j, p, groups, meetings, n).status != Going
    ensures After(j, p, groups, meetings, |groups|) == After(j, p, groups, meetings, n)
    decreases |groups| - n
  {
    if n < |groups| {
      Stopped(j, p, groups, meetings, n + 1);
    }
  }
}
