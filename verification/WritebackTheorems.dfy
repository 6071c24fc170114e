/**
 What a writeback run leaves in the directory, whatever the directory answers.
 */
module WritebackTheorems {
  import opened GroupNames
  import opened Writeback

  // ---- nothing else is touched ----

  ghost predicate Named(j: Job, groups: seq<string>, n: nat, entry: string)
    requires n <= |groups|
  {
    exists i :: 0 <= i < n && j.denote(groups[i]) == entry
  }

  /** Values the writeback takes for the member's and the directory does not: no removal reaches them. */
  predicate Residue(j: Job, members: Members, entry: string) {
    entry in members && Holds(j.key, Others(j.same, members[entry], j.member), j.member)
  }

  lemma ChangeTakes(j: Job, members: Members, entry: string)
    requires entry in members
    ensures Present(j, With(j, members, entry), entry) && !Matched(j, Without(j, members, entry), entry)
    ensures Present(j, Without(j, members, entry), entry) <==> Residue(j, members, entry)
    ensures Residue(j, members, entry) ==> Present(j, members, entry)
    ensures Others(j.same, With(j, members, entry)[entry], j.member) == Others(j.same, members[entry], j.member)
    ensures Others(j.same, Without(j, members, entry)[entry], j.member) == Others(j.same, members[entry], j.member)
  {
    OthersLacks(j.same, members[entry], j.member);
    OthersOfAdded(j.key, members[entry], j.member);
    OthersOfAdded(j.same, members[entry], j.member);
    if Residue(j, members, entry) {
      ResidueIsPresent(j, members, entry);
    }
  }

  lemma ResidueIsPresent(j: Job, members: Members, entry: string)
    requires Residue(j, members, entry)
    ensures Present(j, members, entry)
  {
    var others := Others(j.same, members[entry], j.member);
    var k :| 0 <= k < |others| && j.key(others[k]) == j.key(j.member);
    OthersAmong(j.same, members[entry], j.member);
    assert others[k] in members[entry];
  }

  /** A visit leaves the directory alone, or adds or takes out the member in the one entry named. */
  lemma OneGroupMembers(j: Job, p: Progress, group: string, m: Meeting)
    ensures
      var after := Reconciled(j, p, group, m).members;
      || after == p.members
      || (j.denote(group) in p.members && after == With(j, p.members, j.denote(group)))
      || (j.denote(group) in p.members && after == Without(j, p.members, j.denote(group)))
  {
  }

  lemma OneGroupElsewhere(j: Job, p: Progress, group: string, m: Meeting, entry: string)
    requires entry in p.members && j.denote(group) != entry
    ensures entry in Reconciled(j, p, group, m).members && Reconciled(j, p, group, m).members[entry] == p.members[entry]
  {
  }

  lemma PresentElsewhere(j: Job, p: Progress, group: string, m: Meeting, entry: string)
    requires j.denote(group) != entry
    ensures Present(j, Reconciled(j, p, group, m).members, entry) <==> Present(j, p.members, entry)
  {
    OneGroupMembers(j, p, group, m);
  }

  lemma OneGroupDecides(j: Job, p: Progress, group: string, m: Meeting)
    requires Reconciled(j, p, group, m).status == Going
    ensures
      Present(j, Reconciled(j, p, group, m).members, j.denote(group)) <==>
      group in j.wanted || Residue(j, p.members, j.denote(group))
  {
    var entry := j.denote(group);
    OneGroupGoes(j, p, group, m);
    ChangeTakes(j, p.members, entry);
  }

  /** A visit the run survives. */
  lemma OneGroupGoes(j: Job, p: Progress, group: string, m: Meeting)
    requires Reconciled(j, p, group, m).status == Going
    ensures
      var entry := j.denote(group);
      var after := Reconciled(j, p, group, m).members;
      && entry in p.members
      && if group in j.wanted && !Present(j, p.members, entry) then after == With(j, p.members, entry)
         else if group !in j.wanted && Present(j, p.members, entry) then after == Without(j, p.members, entry)
         else after == p.members
  {
  }

  lemma OneGroupOthers(j: Job, p: Progress, group: string, m: Meeting)
    requires j.denote(group) in p.members
    ensures
      var entry := j.denote(group);
      && entry in Reconciled(j, p, group, m).members
      && Others(j.same, Reconciled(j, p, group, m).members[entry], j.member) == Others(j.same, p.members[entry], j.member)
  {
    OneGroupMembers(j, p, group, m);
    ChangeTakes(j, p.members, j.denote(group));
  }

  lemma OneGroupKeys(j: Job, p: Progress, group: string, m: Meeting)
    ensures Reconciled(j, p, group, m).members.Keys == p.members.Keys
  {
  }

  /** No entry appears or disappears, no other member's value is touched anywhere, and an entry no mapped group
      names is left exactly as it was. */
  lemma {:induction false} OthersUntouched(j: Job, members: Members, groups: seq<string>, meetings: nat -> Meeting, n: nat, entry: string)
    requires n <= |groups|
    ensures
      var after := After(j, Begin(members), groups, meetings, n).members;
      && (entry in after <==> entry in members)
      && (entry in members ==> Others(j.same, after[entry], j.member) == Others(j.same, members[entry], j.member))
      && (entry in members && !Named(j, groups, n, entry) ==> after[entry] == members[entry])
  {
    if n > 0 {
      OthersUntouched(j, members, groups, meetings, n - 1, entry);
      var p := After(j, Begin(members), groups, meetings, n - 1);
      OneGroupKeys(j, p, groups[n - 1], meetings(n - 1));
      if entry in members {
        if j.denote(groups[n - 1]) == entry {
          OneGroupOthers(j, p, groups[n - 1], meetings(n - 1));
        } else {
          OneGroupElsewhere(j, p, groups[n - 1], meetings(n - 1), entry);
        }
      }
    }
  }

  // ---- success ----

  ghost predicate LastNaming(j: Job, groups: seq<string>, n: nat, entry: string, i: int)
    requires n <= |groups|
  {
    0 <= i < n && j.denote(groups[i]) == entry && forall k | i < k < n :: j.denote(groups[k]) != entry
  }

  lemma {:induction false} LastNamingExists(j: Job, groups: seq<string>, n: nat, i: nat) returns (k: nat)
    requires i < n <= |groups|
    ensures LastNaming(j, groups, n, j.denote(groups[i]), k)
    decreases n - i
  {
    if later :| i < later < n && j.denote(groups[later]) == j.denote(groups[i]) {
      k := LastNamingExists(j, groups, n, later);
    } else {
      k := i;
    }
  }

  lemma {:induction false} StillGoing(j: Job, p: Progress, groups: seq<string>, meetings: nat -> Meeting, n: nat)
    requires 0 < n <= |groups| && After(j, p, groups, meetings, n).status == Going
    ensures
      var q := After(j, p, groups, meetings, n - 1);
      q.status == Going && j.denote(groups[n - 1]) in q.members
  {
  }

  /** One unwanted group the member is seen in, every request answered: the removal succeeds if and only if the
      directory matches the member's value, and then takes the member out if and only if nothing else there looks
      like it. */
  lemma RemovalTakesIff(j: Job, p: Progress, group: string, m: Meeting)
    requires p.status == Going && m == Meeting(Fine, Fine)
    requires group !in j.wanted && Present(j, p.members, j.denote(group))
    ensures Reconciled(j, p, group, m).status == Going <==> Matched(j, p.members, j.denote(group))
    ensures
      !Present(j, Reconciled(j, p, group, m).members, j.denote(group)) <==>
      Matched(j, p.members, j.denote(group)) && !Residue(j, p.members, j.denote(group))
  {
    ChangeTakes(j, p.members, j.denote(group));
  }

  /** One wanted group the member is not seen in, every request answered: the addition succeeds if and only if the entry
      is there and the directory does not match the value already; and then the member is in it, once more than
      before, and the group is listed as added. */
  lemma AdditionTakesIff(j: Job, p: Progress, group: string, m: Meeting)
    requires p.status == Going && m == Meeting(Fine, Fine)
    requires group in j.wanted && !Present(j, p.members, j.denote(group))
    ensures
      var entry := j.denote(group);
      var p' := Reconciled(j, p, group, m);
      if entry in p.members && !Matched(j, p.members, entry) then
        && p'.status == Going && p'.added == p.added + [group] && p'.removed == p.removed
        && p'.members.Keys == p.members.Keys && p'.members[entry] == p.members[entry] + [j.member]
        && Present(j, p'.members, entry) && Matched(j, p'.members, entry)
      else p' == p.(status := Refused)
  {
    if j.denote(group) in p.members {
      AddedThere(j, p.members, j.denote(group));
    }
  }

  lemma AddedThere(j: Job, members: Members, entry: string)
    requires entry in members
    ensures
      var after := With(j, members, entry);
      && after.Keys == members.Keys && after[entry] == members[entry] + [j.member]
      && Present(j, after, entry) && Matched(j, after, entry)
  {
    OthersOfAdded(j.key, members[entry], j.member);
    OthersOfAdded(j.same, members[entry], j.member);
  }

  /** The group needs a change, and the directory will make it. */
  predicate Needed(j: Job, members: Members, group: string) {
    group in j.wanted <==> !Present(j, members, j.denote(group))
  }

  predicate Possible(j: Job, members: Members, group: string) {
    group in j.wanted <==> !Matched(j, members, j.denote(group))
  }

  /** How any one visit ends, by the answers it gets: an unanswered request is tried again later; a refused one, a
      missing entry or an impossible change is not; and the change is made exactly when one is needed, possible, and
      not refused or lost on the way. */
  lemma VisitEnds(j: Job, p: Progress, group: string, m: Meeting)
    requires p.status == Going
    ensures
      var p' := Reconciled(j, p, group, m);
      var entry := j.denote(group);
      var found := m.search.Fine? && entry in p.members;
      var needed, possible := Needed(j, p.members, group), Possible(j, p.members, group);
      && (p'.status == Retry <==> m.search.Lost? || (found && needed && m.change.Lost?))
      && (p'.status == Refused <==>
            || m.search.Refusal? || (m.search.Fine? && entry !in p.members)
            || (found && needed && (m.change.Refusal? || (m.change.Fine? && !possible))))
      && (p'.members != p.members ==> found && needed && possible && (m.change == Fine || m.change == Lost(true)))
      && (found && needed && possible && (m.change == Fine || m.change == Lost(true)) ==>
            p'.members == if group in j.wanted then With(j, p.members, entry) else Without(j, p.members, entry))
  {
  }

  // ---- when every request is answered ----

  ghost predicate AllAnswered(meetings: nat -> Meeting, n: nat) {
    forall i: nat | i < n :: meetings(i) == Meeting(Fine, Fine)
  }

  ghost predicate NamedUnwanted(j: Job, groups: seq<string>, n: nat, entry: string)
    requires n <= |groups|
  {
    exists i :: 0 <= i < n && j.denote(groups[i]) == entry && groups[i] !in j.wanted
  }

  /** What the directory must hold at the start for group `i` to go through. A wanted group's entry may not hold a value
      that only the directory matches. From an unwanted one in which something looks like the member although the
      directory does not match it, the member can be taken out once, if the directory matches it at all. */
  ghost predicate Admits(j: Job, members: Members, groups: seq<string>, i: nat)
    requires i < |groups|
  {
    var entry := j.denote(groups[i]);
    && entry in members
    && if groups[i] in j.wanted then Present(j, members, entry) || !Matched(j, members, entry)
       else Residue(j, members, entry) ==> Matched(j, members, entry) && !NamedUnwanted(j, groups, i, entry)
  }

  /** How an entry stands after some visits that all went through, against how it stood at the start. */
  ghost predicate Stands(j: Job, before: Members, after: Members, groups: seq<string>, n: nat, entry: string)
    requires n <= |groups|
  {
    && (entry in after <==> entry in before)
    && (Residue(j, after, entry) <==> Residue(j, before, entry))
    && if Residue(j, before, entry) then
         Present(j, after, entry) && (Matched(j, after, entry) <==> Matched(j, before, entry) && !NamedUnwanted(j, groups, n, entry))
       else
         && (Present(j, after, entry) ==> Matched(j, after, entry))
         && (Matched(j, after, entry) && !Present(j, after, entry) <==> Matched(j, before, entry) && !Present(j, before, entry))
  }

  /** What is seen but leaves no residue is matched. */
  lemma SeenIsMatched(j: Job, members: Members, entry: string)
    requires Present(j, members, entry) && !Residue(j, members, entry)
    ensures Matched(j, members, entry)
  {
    var values := members[entry];
    var k :| 0 <= k < |values| && j.key(values[k]) == j.key(j.member);
    if j.same(values[k]) != j.same(j.member) {
      OthersKeep(j.same, values, j.member, k);
    }
  }

  lemma {:induction false} OthersKeep(key: string -> string, values: seq<string>, member: string, k: nat)
    requires k < |values| && key(values[k]) != key(member)
    ensures values[k] in Others(key, values, member)
  {
    var n := |values| - 1;
    if k < n {
      OthersKeep(key, values[..n], member, k);
    }
  }

  lemma StandsAtFirst(j: Job, members: Members, groups: seq<string>, entry: string)
    ensures Stands(j, members, members, groups, 0, entry)
  {
    if Residue(j, members, entry) {
      ResidueIsPresent(j, members, entry);
    } else if Present(j, members, entry) {
      SeenIsMatched(j, members, entry);
    }
  }

  /** One answered visit of an entry that stands as it should goes through exactly when the start admits it. */
  lemma VisitGoes(j: Job, before: Members, p: Progress, groups: seq<string>, i: nat)
    requires p.status == Going && i < |groups| && Stands(j, before, p.members, groups, i, j.denote(groups[i]))
    ensures Reconciled(j, p, groups[i], Meeting(Fine, Fine)).status == Going <==> Admits(j, before, groups, i)
  {
    var entry := j.denote(groups[i]);
    VisitEnds(j, p, groups[i], Meeting(Fine, Fine));
    if Residue(j, before, entry) {
      ResidueIsPresent(j, before, entry);
    } else if Present(j, before, entry) {
      SeenIsMatched(j, before, entry);
    }
  }

  lemma NamedOnce(j: Job, groups: seq<string>, i: nat, entry: string)
    requires i < |groups|
    ensures NamedUnwanted(j, groups, i + 1, entry) <==>
            NamedUnwanted(j, groups, i, entry) || (j.denote(groups[i]) == entry && groups[i] !in j.wanted)
  {
  }

  lemma ResidueStays(j: Job, a: Members, b: Members, entry: string)
    requires entry in a && entry in b && Others(j.same, a[entry], j.member) == Others(j.same, b[entry], j.member)
    ensures Residue(j, a, entry) <==> Residue(j, b, entry)
  {
  }

  lemma StandsVisited(j: Job, before: Members, p: Progress, groups: seq<string>, i: nat)
    requires i < |groups| && Stands(j, before, p.members, groups, i, j.denote(groups[i]))
    requires Reconciled(j, p, groups[i], Meeting(Fine, Fine)).status == Going
    ensures Stands(j, before, Reconciled(j, p, groups[i], Meeting(Fine, Fine)).members, groups, i + 1, j.denote(groups[i]))
  {
    var entry, m := j.denote(groups[i]), Meeting(Fine, Fine);
    var after := Reconciled(j, p, groups[i], m).members;
    OneGroupGoes(j, p, groups[i], m);
    OneGroupOthers(j, p, groups[i], m);
    ResidueStays(j, p.members, after, entry);
    NamedOnce(j, groups, i, entry);
    ChangeTakes(j, p.members, entry);
    OthersOfAdded(j.same, p.members[entry], j.member);
    VisitGoes(j, before, p, groups, i);
    VisitEnds(j, p, groups[i], m);
    MatchedAfter(j, p.members, entry);
  }

  lemma MatchedAfter(j: Job, members: Members, entry: string)
    requires entry in members
    ensures Matched(j, With(j, members, entry), entry) && !Matched(j, Without(j, members, entry), entry)
  {
    OthersOfAdded(j.same, members[entry], j.member);
    OthersLacks(j.same, members[entry], j.member);
  }

  lemma StandsElsewhere(j: Job, before: Members, p: Progress, groups: seq<string>, i: nat, m: Meeting, entry: string)
    requires i < |groups| && j.denote(groups[i]) != entry && Stands(j, before, p.members, groups, i, entry)
    ensures Stands(j, before, Reconciled(j, p, groups[i], m).members, groups, i + 1, entry)
  {
    OneGroupMembers(j, p, groups[i], m);
    NamedOnce(j, groups, i, entry);
  }

  lemma {:induction false} StandsThroughout(j: Job, members: Members, groups: seq<string>, meetings: nat -> Meeting, n: nat, entry: string)
    requires n <= |groups| && AllAnswered(meetings, n) && After(j, Begin(members), groups, meetings, n).status == Going
    ensures Stands(j, members, After(j, Begin(members), groups, meetings, n).members, groups, n, entry)
  {
    if n == 0 {
      StandsAtFirst(j, members, groups, entry);
    } else {
      StillGoing(j, Begin(members), groups, meetings, n);
      StandsThroughout(j, members, groups, meetings, n - 1, entry);
      var p := After(j, Begin(members), groups, meetings, n - 1);
      if j.denote(groups[n - 1]) == entry {
        StandsVisited(j, members, p, groups, n - 1);
      } else {
        StandsElsewhere(j, members, p, groups, n - 1, meetings(n - 1), entry);
      }
    }
  }

  /** When every request is answered, a run goes through if and only if the directory at the start admits each group.
      Nothing else makes it fail. */
  lemma {:induction false} AnsweredRunSucceedsIff(j: Job, members: Members, groups: seq<string>, meetings: nat -> Meeting, n: nat)
    requires n <= |groups| && AllAnswered(meetings, n)
    ensures After(j, Begin(members), groups, meetings, n).status == Going <==>
            forall i: nat | i < n :: Admits(j, members, groups, i)
  {
    if n > 0 {
      AnsweredRunSucceedsIff(j, members, groups, meetings, n - 1);
      var p := After(j, Begin(members), groups, meetings, n - 1);
      if p.status == Going {
        StandsThroughout(j, members, groups, meetings, n - 1, j.denote(groups[n - 1]));
        VisitGoes(j, members, p, groups, n - 1);
      }
    }
  }

  /** The member ends up in an entry exactly when the last mapped name for that entry is wanted, or the entry held a
      value the directory does not match. */
  lemma {:induction false} LastNameDecides(j: Job, members: Members, groups: seq<string>, meetings: nat -> Meeting, n: nat, entry: string, i: int)
    requires n <= |groups| && After(j, Begin(members), groups, meetings, n).status == Going
    requires LastNaming(j, groups, n, entry, i)
    ensures
      Present(j, After(j, Begin(members), groups, meetings, n).members, entry) <==>
      groups[i] in j.wanted || Residue(j, members, entry)
  {
    var p := After(j, Begin(members), groups, meetings, n - 1);
    StillGoing(j, Begin(members), groups, meetings, n);
    if i == n - 1 {
      OneGroupDecides(j, p, groups[i], meetings(i));
      OthersUntouched(j, members, groups, meetings, n - 1, entry);
    } else {
      LastNameDecides(j, members, groups, meetings, n - 1, entry, i);
      PresentElsewhere(j, p, groups[n - 1], meetings(n - 1), entry);
    }
  }

  /** Names for one entry agree on whether it is wanted. */
  ghost predicate Agree(j: Job, groups: seq<string>) {
    forall i, k | 0 <= i < |groups| && 0 <= k < |groups| && j.denote(groups[i]) == j.denote(groups[k]) ::
      groups[i] in j.wanted <==> groups[k] in j.wanted
  }

  /** The member is in exactly the wanted groups among those mapped. */
  ghost predicate InLine(j: Job, members: Members, groups: seq<string>) {
    forall i | 0 <= i < |groups| :: Present(j, members, j.denote(groups[i])) <==> groups[i] in j.wanted
  }

  /** No unwanted group's entry holds a value that looks like the member's and that the directory does not match. */
  ghost predicate NoResidue(j: Job, members: Members, groups: seq<string>) {
    forall i | 0 <= i < |groups| && groups[i] !in j.wanted :: !Residue(j, members, j.denote(groups[i]))
  }

  /** A directory that matches whatever the writeback takes for the member's value leaves none. */
  lemma LooserLeavesNone(j: Job, members: Members, groups: seq<string>)
    requires forall v | j.key(v) == j.key(j.member) :: j.same(v) == j.same(j.member)
    ensures NoResidue(j, members, groups)
  {
    forall i | 0 <= i < |groups|
      ensures !Residue(j, members, j.denote(groups[i]))
    {
      if j.denote(groups[i]) in members {
        OthersLacks(j.same, members[j.denote(groups[i])], j.member);
      }
    }
  }

  /** Presence in the entry of `groups[i]` follows the name `groups[k]` for the same entry. */
  ghost predicate Decides(j: Job, members: Members, after: Members, groups: seq<string>, i: int, k: int)
    requires 0 <= i < |groups|
  {
    && 0 <= k < |groups| && j.denote(groups[k]) == j.denote(groups[i])
    && (Present(j, after, j.denote(groups[i])) <==> groups[k] in j.wanted || Residue(j, members, j.denote(groups[i])))
  }

  ghost predicate Followed(j: Job, members: Members, after: Members, groups: seq<string>, i: int)
    requires 0 <= i < |groups|
  {
    exists k :: Decides(j, members, after, groups, i, k)
  }

  lemma InLineIffAgree(j: Job, members: Members, after: Members, groups: seq<string>)
    requires forall i | 0 <= i < |groups| :: Followed(j, members, after, groups, i)
    ensures InLine(j, after, groups) <==> Agree(j, groups) && NoResidue(j, members, groups)
  {
    if InLine(j, after, groups) {
      forall i | 0 <= i < |groups| && groups[i] !in j.wanted
        ensures !Residue(j, members, j.denote(groups[i]))
      {
        assert Followed(j, members, after, groups, i);
      }
    }
    if Agree(j, groups) && NoResidue(j, members, groups) {
      forall i | 0 <= i < |groups|
        ensures Present(j, after, j.denote(groups[i])) <==> groups[i] in j.wanted
      {
        assert Followed(j, members, after, groups, i);
        var k :| Decides(j, members, after, groups, i, k);
        assert groups[i] in j.wanted <==> groups[k] in j.wanted;
      }
    }
  }

  /** A run that succeeds leaves the member in exactly the wanted groups if and only if no two mapped names that
      differ on being wanted denote one entry, and no unwanted entry held a value the directory does not match. */
  lemma SuccessIsExactIff(j: Job, members: Members, groups: seq<string>, meetings: nat -> Meeting)
    requires After(j, Begin(members), groups, meetings, |groups|).status == Going
    ensures
      InLine(j, After(j, Begin(members), groups, meetings, |groups|).members, groups) <==>
      Agree(j, groups) && NoResidue(j, members, groups)
  {
    var after := After(j, Begin(members), groups, meetings, |groups|).members;
    forall i | 0 <= i < |groups|
      ensures Followed(j, members, after, groups, i)
    {
      var k := LastNamingExists(j, groups, |groups|, i);
      LastNameDecides(j, members, groups, meetings, |groups|, j.denote(groups[i]), k);
      assert Decides(j, members, after, groups, i, k);
    }
    InLineIffAgree(j, members, after, groups);
  }

  /** From roles to the directory: after a run that succeeds, the member is in a role's group exactly when they are
      active and hold a role mapped to a group of that name. */
  lemma RolesDecideMembership(
    j: Job, members: Members, groups: seq<string>, meetings: nat -> Meeting,
    active: bool, roles: seq<string>, roleGroups: map<string, string>, role: string)
    requires j.wanted == Wanted(active, roles, roleGroups) && role in roleGroups
    requires Agree(j, groups) && NoResidue(j, members, groups)
    requires forall r | r in roleGroups :: Normalized(roleGroups[r]) in groups
    requires After(j, Begin(members), groups, meetings, |groups|).status == Going
    ensures
      Present(j, After(j, Begin(members), groups, meetings, |groups|).members, j.denote(Normalized(roleGroups[role]))) <==>
      active && exists r :: r in roles && r in roleGroups && Normalized(roleGroups[r]) == Normalized(roleGroups[role])
  {
    SuccessIsExactIff(j, members, groups, meetings);
    var i :| 0 <= i < |groups| && groups[i] == Normalized(roleGroups[role]);
  }

  /** Two names for one entry, the first wanted and the last not: the run adds the member and takes it out again, all
      but what the directory does not match. */
  lemma AliasUndoes(j: Job, members: Members, first: string, last: string, meetings: nat -> Meeting)
    requires j.denote(first) == j.denote(last) && first in j.wanted && last !in j.wanted
    requires After(j, Begin(members), [first, last], meetings, 2).status == Going
    ensures
      Present(j, After(j, Begin(members), [first, last], meetings, 2).members, j.denote(first)) <==>
      Residue(j, members, j.denote(first))
  {
    LastNameDecides(j, members, [first, last], meetings, 2, j.denote(first), 1);
  }

  // ---- running again ----

  /** With the member already in line, no run changes anything, whatever the directory answers. */
  lemma {:induction false} InLineStays(j: Job, members: Members, groups: seq<string>, meetings: nat -> Meeting, n: nat)
    requires n <= |groups| && InLine(j, members, groups)
    ensures
      var p := After(j, Begin(members), groups, meetings, n);
      p.members == members && p.added == [] && p.removed == []
  {
    if n > 0 {
      InLineStays(j, members, groups, meetings, n - 1);
    }
  }

  /** So where the directory compares as the writeback does and every mapped group is there, a run whose requests are
      answered always goes through, and leaves the member in exactly the wanted groups if no two names for one entry
      disagree. */
  lemma AnsweredRunIsExact(j: Job, members: Members, groups: seq<string>, meetings: nat -> Meeting)
    requires AllAnswered(meetings, |groups|) && forall i | 0 <= i < |groups| :: j.denote(groups[i]) in members
    requires forall v :: j.key(v) == j.key(j.member) <==> j.same(v) == j.same(j.member)
    ensures After(j, Begin(members), groups, meetings, |groups|).status == Going
    ensures InLine(j, After(j, Begin(members), groups, meetings, |groups|).members, groups) <==> Agree(j, groups)
  {
    forall i: nat | i < |groups|
      ensures Admits(j, members, groups, i)
    {
      var entry := j.denote(groups[i]);
      OthersLacks(j.same, members[entry], j.member);
      assert Matched(j, members, entry) ==> Present(j, members, entry);
    }
    AnsweredRunSucceedsIff(j, members, groups, meetings, |groups|);
    LooserLeavesNone(j, members, groups);
    SuccessIsExactIff(j, members, groups, meetings);
  }

  lemma SecondRunChangesNothing(j: Job, members: Members, groups: seq<string>, meetings: nat -> Meeting, again: nat -> Meeting)
    requires Agree(j, groups) && NoResidue(j, members, groups)
    requires After(j, Begin(members), groups, meetings, |groups|).status == Going
    ensures
      var after := After(j, Begin(members), groups, meetings, |groups|).members;
      var p := After(j, Begin(after), groups, again, |groups|);
      p.members == after && p.added == [] && p.removed == []
  {
    SuccessIsExactIff(j, members, groups, meetings);
    InLineStays(j, After(j, Begin(members), groups, meetings, |groups|).members, groups, again, |groups|);
  }

  // ---- what is reported ----

  ghost predicate NamesApart(j: Job, groups: seq<string>) {
    forall i, k | 0 <= i < k < |groups| :: j.denote(groups[i]) != j.denote(groups[k])
  }

  predicate Mentioned(p: Progress, group: string) {
    group in p.added || group in p.removed || group in p.doubt
  }

  /** What the directory matches is gone, and the member with it unless something else there looks like it. */
  predicate Removed(j: Job, before: Members, after: Members, entry: string) {
    !Matched(j, after, entry) && (Present(j, after, entry) <==> Residue(j, before, entry))
  }

  /** The lists tell the truth about one group. */
  ghost predicate Told(j: Job, members: Members, p: Progress, group: string) {
    var entry := j.denote(group);
    && (group in p.added ==> group in j.wanted && !Present(j, members, entry) && Present(j, p.members, entry))
    && (group in p.removed ==> group !in j.wanted && Present(j, members, entry) && Removed(j, members, p.members, entry))
    && (group in p.doubt ==>
          p.status == Retry && (Present(j, p.members, entry) <==> group in j.wanted || Residue(j, members, entry)))
    && (!Mentioned(p, group) && entry in members ==> entry in p.members && p.members[entry] == members[entry])
  }

  /** What one visit can do: nothing but stop; or one change, reported or in doubt. */
  ghost predicate Visited(j: Job, p: Progress, group: string, p': Progress, adding: bool, members: Members) {
    && p'.members == members && (adding <==> group in j.wanted)
    && (|| p' == p.(members := members, added := p.added + if adding then [group] else [],
                    removed := p.removed + if adding then [] else [group])
        || p' == p.(members := members, status := Retry, doubt := [group]))
  }

  lemma OneVisit(j: Job, p: Progress, group: string, m: Meeting)
    ensures
      var p' := Reconciled(j, p, group, m);
      var entry := j.denote(group);
      || p' == p.(status := p'.status)
      || (entry in p.members && !Present(j, p.members, entry) && Visited(j, p, group, p', true, With(j, p.members, entry)))
      || (entry in p.members && Present(j, p.members, entry) && Visited(j, p, group, p', false, Without(j, p.members, entry)))
  {
  }

  lemma VisitTold(j: Job, p: Progress, group: string, p': Progress, adding: bool, members: Members)
    requires !Mentioned(p, group) && Visited(j, p, group, p', adding, members)
    requires Present(j, p.members, j.denote(group)) <==> !adding
    requires if adding then Present(j, members, j.denote(group)) else Removed(j, p.members, members, j.denote(group))
    ensures Told(j, p.members, p', group)
  {
    assert p.added + [] == p.added && p.removed + [] == p.removed;
  }

  lemma OneGroupTold(j: Job, p: Progress, group: string, m: Meeting)
    requires !Mentioned(p, group)
    ensures Told(j, p.members, Reconciled(j, p, group, m), group)
  {
    var entry := j.denote(group);
    var p' := Reconciled(j, p, group, m);
    OneVisit(j, p, group, m);
    if p' != p.(status := p'.status) {
      ChangeTakes(j, p.members, entry);
      if Present(j, p.members, entry) {
        VisitTold(j, p, group, p', false, Without(j, p.members, entry));
      } else {
        VisitTold(j, p, group, p', true, With(j, p.members, entry));
      }
    }
  }

  lemma OtherGroupMentions(j: Job, p: Progress, group: string, m: Meeting, other: string)
    requires other != group
    ensures
      var p' := Reconciled(j, p, group, m);
      && (other in p'.added <==> other in p.added) && (other in p'.removed <==> other in p.removed)
      && (p.doubt == [] ==> other !in p'.doubt)
  {
  }

  lemma {:induction false} DoubtStops(j: Job, members: Members, groups: seq<string>, meetings: nat -> Meeting, n: nat)
    requires n <= |groups|
    ensures
      var p := After(j, Begin(members), groups, meetings, n);
      |p.doubt| <= 1 && (p.doubt != [] ==> p.status == Retry)
  {
    if n > 0 {
      DoubtStops(j, members, groups, meetings, n - 1);
    }
  }

  /** After `n` visits the lists tell the truth about one group, and say nothing of one not yet visited. */
  ghost predicate ToldBy(j: Job, members: Members, groups: seq<string>, p: Progress, n: nat, i: nat)
    requires i < |groups|
  {
    Told(j, members, p, groups[i]) && (n <= i ==> !Mentioned(p, groups[i]))
  }

  /** For any run, finished or stopped: a group reported added was wanted, was without the member and has it now;
      one reported removed was unwanted, had it and no longer holds a value the directory matches; every other group
      is as it was, except at most one whose answer was lost. */
  lemma {:induction false} ReportIsExact(j: Job, members: Members, groups: seq<string>, meetings: nat -> Meeting, n: nat, i: nat)
    requires n <= |groups| && i < |groups| && NamesApart(j, groups)
    ensures ToldBy(j, members, groups, After(j, Begin(members), groups, meetings, n), n, i)
    ensures |After(j, Begin(members), groups, meetings, n).doubt| <= 1
    decreases n
  {
    DoubtStops(j, members, groups, meetings, n);
    if n == 0 {
      TellsNothing(j, members, groups, i);
    } else {
      ReportIsExact(j, members, groups, meetings, n - 1, i);
      TellsNext(j, members, groups, meetings, n, i);
    }
  }

  lemma TellsNothing(j: Job, members: Members, groups: seq<string>, i: nat)
    requires i < |groups|
    ensures ToldBy(j, members, groups, Begin(members), 0, i)
  {
  }

  lemma TellsNext(j: Job, members: Members, groups: seq<string>, meetings: nat -> Meeting, n: nat, i: nat)
    requires 0 < n <= |groups| && i < |groups| && NamesApart(j, groups)
    requires ToldBy(j, members, groups, After(j, Begin(members), groups, meetings, n - 1), n - 1, i)
    ensures ToldBy(j, members, groups, After(j, Begin(members), groups, meetings, n), n, i)
  {
    var k := n - 1;
    var p := After(j, Begin(members), groups, meetings, k);
    assert p.doubt != [] ==> p.status == Retry by {
      DoubtStops(j, members, groups, meetings, k);
    }
    assert j.denote(groups[i]) in p.members ==> j.denote(groups[i]) in members by {
      OthersUntouched(j, members, groups, meetings, k, j.denote(groups[i]));
    }
    if i == k {
      ToldAtVisit(j, members, p, groups[i], meetings(i));
    } else {
      assert groups[i] != groups[k];
      ToldElsewhere(j, members, p, groups[k], meetings(k), groups[i]);
    }
  }

  lemma ToldAtVisit(j: Job, members: Members, p: Progress, group: string, m: Meeting)
    requires Told(j, members, p, group) && !Mentioned(p, group)
    requires j.denote(group) in p.members ==> j.denote(group) in members
    ensures Told(j, members, Reconciled(j, p, group, m), group)
  {
    OneGroupTold(j, p, group, m);
  }

  lemma ToldElsewhere(j: Job, members: Members, p: Progress, group: string, m: Meeting, other: string)
    requires Told(j, members, p, other) && j.denote(other) != j.denote(group) && other != group
    requires p.doubt != [] ==> p.status == Retry
    ensures Told(j, members, Reconciled(j, p, group, m), other)
    ensures !Mentioned(p, other) ==> !Mentioned(Reconciled(j, p, group, m), other)
  {
    if p.status == Going {
      OtherGroupMentions(j, p, group, m, other);
      OneGroupKeys(j, p, group, m);
      if j.denote(other) in p.members {
        OneGroupElsewhere(j, p, group, m, j.denote(other));
      }
    }
  }
}
