/** The deployment of a file of monitors, and why running it brings the account to what the file says. */
module MonitorDeploy {
  import opened Text
  import opened Monitors
  import opened MonitorAccount
  import MonitorText
  import FindingPaths

  /** Everything a deployment decides before it changes anything. */
  ghost predicate Planned(
    a: Account, desired: seq<Monitor>, listing: seq<Entry>, kept: map<string, Entry>, duplicates: seq<Entry>)
  {
    IsListing(a.remote, listing) && IsIndex(OwnedOnly(listing, NamesOf(desired)), NamesOf(desired), kept, duplicates)
  }

  // ---- the plan fits the account ----

  lemma {:induction false} OwnedOnlyHolds(listing: seq<Entry>, names: set<string>)
    ensures forall e :: e in OwnedOnly(listing, names) <==> e in listing && Owned(e.monitor, names)
  {
    if listing != [] {
      OwnedOnlyHolds(listing[..|listing| - 1], names);
      assert listing == listing[..|listing| - 1] + [listing[|listing| - 1]];
    }
  }

  ghost predicate IdsDiffer(list: seq<Entry>) {
    forall i, j | 0 <= i < j < |list| :: list[i].id != list[j].id
  }

  lemma {:induction false} OwnedOnlyDiffers(listing: seq<Entry>, names: set<string>)
    requires IdsDiffer(listing)
    ensures IdsDiffer(OwnedOnly(listing, names))
  {
    if listing != [] {
      var front, last := listing[..|listing| - 1], listing[|listing| - 1];
      OwnedOnlyDiffers(front, names);
      OwnedOnlyHolds(front, names);
      var kept := OwnedOnly(front, names);
      forall i | 0 <= i < |kept| ensures kept[i].id != last.id {
        assert kept[i] in front;
      }
    }
  }

  lemma {:induction false} EachOnce(list: seq<Entry>, e: Entry)
    requires IdsDiffer(list)
    ensures multiset(list)[e] <= 1
  {
    if list != [] {
      var front, last := list[..|list| - 1], list[|list| - 1];
      EachOnce(front, e);
      assert list == front + [last];
      assert last !in front;
    }
  }

  /** The index as far as a deployment relies on it: the kept entries and the duplicates share out the existing ones. */
  ghost predicate SharedOut(existing: seq<Entry>, kept: map<string, Entry>, duplicates: seq<Entry>) {
    && IdsDiffer(existing)
    && (forall name | name in kept :: kept[name].monitor.name == name)
    && (forall i | 0 <= i < |existing| :: existing[i].monitor.name in kept)
    && multiset(existing) == multiset(duplicates) + multiset(kept.Values)
  }

  lemma PlanSharesOut(
    a: Account, desired: seq<Monitor>, listing: seq<Entry>, kept: map<string, Entry>, duplicates: seq<Entry>)
    requires Planned(a, desired, listing, kept, duplicates)
    ensures SharedOut(OwnedOnly(listing, NamesOf(desired)), kept, duplicates)
  {
    var existing := OwnedOnly(listing, NamesOf(desired));
    OwnedOnlyDiffers(listing, NamesOf(desired));
    forall name | name in kept ensures kept[name].monitor.name == name {
      assert KeptFor(existing, NamesOf(desired), name, kept[name]);
    }
  }

  predicate IsKept(kept: map<string, Entry>, e: Entry) {
    e.monitor.name in kept && kept[e.monitor.name] == e
  }

  /** An existing entry is kept for its name or is a duplicate, and not both; nothing else is either. */
  lemma KeptOrDuplicate(existing: seq<Entry>, kept: map<string, Entry>, duplicates: seq<Entry>, e: Entry)
    requires SharedOut(existing, kept, duplicates)
    ensures e in duplicates || IsKept(kept, e) <==> e in existing
    ensures e in duplicates ==> !IsKept(kept, e)
  {
    EachOnce(existing, e);
    assert multiset(existing)[e] == multiset(duplicates)[e] + multiset(kept.Values)[e];
    assert e in kept.Values <==> IsKept(kept, e);
    assert e in existing <==> multiset(existing)[e] > 0;
  }

  /** An orphan is an existing entry that is not kept for a desired name. */
  lemma OrphansAre(existing: seq<Entry>, kept: map<string, Entry>, duplicates: seq<Entry>, names: set<string>, id: nat)
    requires SharedOut(existing, kept, duplicates)
    ensures id in Orphans(existing, duplicates, names)
            <==> exists e :: e in existing && e.id == id && !(e.monitor.name in names && IsKept(kept, e))
  {
    if e: Entry :| e in duplicates && e.id == id {
      KeptOrDuplicate(existing, kept, duplicates, e);
    }
    if e :| e in existing && e.id == id && !(e.monitor.name in names && IsKept(kept, e)) {
      KeptOrDuplicate(existing, kept, duplicates, e);
    }
  }

  lemma ExistingAre(a: Account, listing: seq<Entry>, names: set<string>, e: Entry)
    requires IsListing(a.remote, listing)
    ensures e in OwnedOnly(listing, names)
            <==> e.id in a.remote && a.remote[e.id] == e.monitor && Owned(e.monitor, names)
  {
    OwnedOnlyHolds(listing, names);
    if e.id in a.remote && a.remote[e.id] == e.monitor {
      var i :| 0 <= i < |listing| && listing[i].id == e.id;
      assert listing[i] == e;
    }
  }

  predicate Chosen(kept: map<string, Entry>, desired: seq<Monitor>, id: nat) {
    exists i | 0 <= i < |desired| :: ChosenFor(id, kept, desired[i])
  }

  lemma PlanKeepsExisting(
    a: Account, desired: seq<Monitor>, listing: seq<Entry>, kept: map<string, Entry>, duplicates: seq<Entry>)
    requires Planned(a, desired, listing, kept, duplicates)
    ensures KeptIn(a.remote, kept)
  {
    var names := NamesOf(desired);
    PlanSharesOut(a, desired, listing, kept, duplicates);
    forall name | name in kept
      ensures kept[name].id in a.remote && a.remote[kept[name].id] == kept[name].monitor
      ensures kept[name].monitor.name == name
    {
      KeptOrDuplicate(OwnedOnly(listing, names), kept, duplicates, kept[name]);
      ExistingAre(a, listing, names, kept[name]);
    }
  }

  /** In terms of the account: an orphan is an owned monitor that was chosen for no desired one. */
  lemma OrphansInAccount(
    a: Account, desired: seq<Monitor>, listing: seq<Entry>, kept: map<string, Entry>, duplicates: seq<Entry>, id: nat)
    requires Planned(a, desired, listing, kept, duplicates)
    ensures id in Orphans(OwnedOnly(listing, NamesOf(desired)), duplicates, NamesOf(desired))
            <==> id in a.remote && Owned(a.remote[id], NamesOf(desired)) && !Chosen(kept, desired, id)
  {
    var names := NamesOf(desired);
    var existing := OwnedOnly(listing, names);
    PlanSharesOut(a, desired, listing, kept, duplicates);
    PlanKeepsExisting(a, desired, listing, kept, duplicates);
    OrphansAre(existing, kept, duplicates, names, id);
    forall e | e in existing && e.id == id
      ensures e.monitor.name in names && IsKept(kept, e) <==> Chosen(kept, desired, id)
    {
      ExistingAre(a, listing, names, e);
      ChosenIsKept(a, desired, kept, e);
    }
    if id in a.remote {
      ExistingAre(a, listing, names, Entry(id, a.remote[id]));
    }
    forall e | e in existing && e.id == id ensures id in a.remote && e == Entry(id, a.remote[id]) {
      ExistingAre(a, listing, names, e);
    }
  }

  lemma ChosenIsKept(a: Account, desired: seq<Monitor>, kept: map<string, Entry>, e: Entry)
    requires KeptIn(a.remote, kept) && e.id in a.remote && a.remote[e.id] == e.monitor
    ensures e.monitor.name in NamesOf(desired) && IsKept(kept, e) <==> Chosen(kept, desired, e.id)
  {
    if e.monitor.name in NamesOf(desired) && IsKept(kept, e) {
      var i :| 0 <= i < |desired| && desired[i].name == e.monitor.name;
      assert ChosenFor(e.id, kept, desired[i]);
    }
    if Chosen(kept, desired, e.id) {
      var i :| 0 <= i < |desired| && ChosenFor(e.id, kept, desired[i]);
      assert desired[i].name in NamesOf(desired);
    }
  }

  // ---- what a deployment achieves ----

  function Deployed(a: Account, kept: map<string, Entry>, desired: seq<Monitor>, order: seq<nat>): Option<Account> {
    var applied := ApplyAll(a, kept, desired);
    if applied.None? then None else DeleteAll(applied.value, order)
  }

  ghost predicate PlannedOrphans(
    desired: seq<Monitor>, listing: seq<Entry>, duplicates: seq<Entry>, order: seq<nat>)
  {
    IsOrder(order, Orphans(OwnedOnly(listing, NamesOf(desired)), duplicates, NamesOf(desired)))
  }

  /** The account after a whole deployment: the homes of the desired monitors and the monitors that are not ours. */
  ghost predicate LeavesOnly(a: Account, kept: map<string, Entry>, desired: seq<Monitor>, c: Account, homes: seq<nat>) {
    && |homes| == |desired|
    && (forall i | 0 <= i < |homes| ::
          homes[i] in c.remote && c.remote[homes[i]] == desired[i] && HomeOf(a, kept, desired[i], homes[i]))
    && (forall id | id in c.remote && id !in homes ::
          id in a.remote && c.remote[id] == a.remote[id] && !Owned(a.remote[id], NamesOf(desired)))
    && (forall id | id in a.remote && !Owned(a.remote[id], NamesOf(desired)) ::
          id in c.remote && c.remote[id] == a.remote[id])
  }

  lemma DeployLeavesOnly(
    a: Account, desired: seq<Monitor>, listing: seq<Entry>, kept: map<string, Entry>, duplicates: seq<Entry>,
    order: seq<nat>)
    returns (c: Account, homes: seq<nat>)
    requires AccountOk(a) && Compatible(kept, desired) && Planned(a, desired, listing, kept, duplicates)
    requires PlannedOrphans(desired, listing, duplicates, order)
    ensures Deployed(a, kept, desired, order) == Some(c) && LeavesOnly(a, kept, desired, c, homes)
    ensures AccountOk(c) && Evolves(a, c)
  {
    PlanKeepsExisting(a, desired, listing, kept, duplicates);
    var b;
    b, homes := ApplyAllApplies(a, kept, desired);
    forall id
      ensures id in order <==> id in a.remote && Owned(a.remote[id], NamesOf(desired)) && !Chosen(kept, desired, id)
    {
      OrphansInAccount(a, desired, listing, kept, duplicates, id);
    }
    forall i | 0 <= i < |order| ensures order[i] in b.remote && order[i] !in homes {
      assert order[i] in order;
      UnchosenStays(a, kept, desired, b, homes, order[i]);
    }
    c := DeleteAllDeletes(b, order);
    EvolvesOn(a, b, c);
    forall id | id in a.remote && !Owned(a.remote[id], NamesOf(desired))
      ensures id in c.remote && c.remote[id] == a.remote[id]
    {
      UnownedUnchosen(a, kept, desired, id);
      UnchosenStays(a, kept, desired, b, homes, id);
    }
    forall id | id in c.remote && id !in homes
      ensures id in a.remote && c.remote[id] == a.remote[id] && !Owned(a.remote[id], NamesOf(desired))
    {
      assert id in b.remote && id !in order;
      assert forall i | 0 <= i < |desired| :: !ChosenFor(id, kept, desired[i]);
      assert !Chosen(kept, desired, id);
    }
  }

  lemma UnchosenStays(a: Account, kept: map<string, Entry>, desired: seq<Monitor>, b: Account, homes: seq<nat>, id: nat)
    requires Applied(a, kept, desired, b, homes) && id in a.remote && !Chosen(kept, desired, id)
    ensures id in b.remote && id !in homes && b.remote[id] == a.remote[id]
  {
    assert forall i | 0 <= i < |desired| :: !ChosenFor(id, kept, desired[i]);
  }

  lemma UnownedUnchosen(a: Account, kept: map<string, Entry>, desired: seq<Monitor>, id: nat)
    requires KeptIn(a.remote, kept) && id in a.remote && !Owned(a.remote[id], NamesOf(desired))
    ensures !Chosen(kept, desired, id)
  {
    assert forall i | 0 <= i < |desired| :: desired[i].name in NamesOf(desired);
  }

  /** From any remote state, a deployment whose file repeats only updates converges; what is not ours is untouched. */
  lemma DeployConverges(
    a: Account, desired: seq<Monitor>, listing: seq<Entry>, kept: map<string, Entry>, duplicates: seq<Entry>,
    order: seq<nat>)
    returns (c: Account)
    requires AccountOk(a) && Compatible(kept, desired) && Planned(a, desired, listing, kept, duplicates)
    requires PlannedOrphans(desired, listing, duplicates, order)
    ensures Deployed(a, kept, desired, order) == Some(c) && AccountOk(c)
    ensures Converged(c.remote, desired)
    ensures forall id | id in a.remote && !Owned(a.remote[id], NamesOf(desired)) ::
              id in c.remote && c.remote[id] == a.remote[id]
    ensures forall id | id in c.remote && id !in a.remote :: c.remote[id] in desired
    ensures forall id | id in a.remote && id !in c.remote :: multiset(c.calls)[Deleted(id)] == 1
  {
    var homes;
    c, homes := DeployLeavesOnly(a, desired, listing, kept, duplicates, order);
    LeavesConverged(a, kept, desired, c, homes);
    forall id | id in a.remote && id !in c.remote ensures multiset(c.calls)[Deleted(id)] == 1 {
      assert Deleted(id) in c.calls;
    }
    forall id | id in c.remote && id !in a.remote ensures c.remote[id] in desired {
      assert id in homes;
      var i :| 0 <= i < |homes| && homes[i] == id;
    }
  }

  /** Of the monitors left, the ours are the homes of the desired ones. */
  lemma OursAreHomes(a: Account, kept: map<string, Entry>, desired: seq<Monitor>, c: Account, homes: seq<nat>, id: nat)
    returns (i: nat)
    requires LeavesOnly(a, kept, desired, c, homes) && id in c.remote && Owned(c.remote[id], NamesOf(desired))
    ensures i < |desired| && homes[i] == id && c.remote[id] == desired[i]
  {
    assert id in homes;
    i :| 0 <= i < |homes| && homes[i] == id;
  }

  /** Two of ours that share a name are one. */
  lemma OursDiffer(
    a: Account, kept: map<string, Entry>, desired: seq<Monitor>, c: Account, homes: seq<nat>, id: nat, jd: nat)
    requires Compatible(kept, desired) && LeavesOnly(a, kept, desired, c, homes)
    requires id in c.remote && jd in c.remote
    requires c.remote[id].name in NamesOf(desired) && c.remote[id].name == c.remote[jd].name
    ensures id == jd
  {
    var i := OursAreHomes(a, kept, desired, c, homes, id);
    var j := OursAreHomes(a, kept, desired, c, homes, jd);
    assert i < j ==> SameUpdate(kept, desired[i], desired[j]);
    assert j < i ==> SameUpdate(kept, desired[j], desired[i]);
    assert HomeOf(a, kept, desired[i], id) && HomeOf(a, kept, desired[j], jd);
  }

  lemma LeavesConverged(a: Account, kept: map<string, Entry>, desired: seq<Monitor>, c: Account, homes: seq<nat>)
    requires Compatible(kept, desired) && LeavesOnly(a, kept, desired, c, homes)
    ensures Converged(c.remote, desired)
  {
    var names := NamesOf(desired);
    forall i | 0 <= i < |desired| ensures desired[i] in c.remote.Values {
      assert c.remote[homes[i]] == desired[i];
    }
    forall id | id in c.remote && Owned(c.remote[id], names) ensures c.remote[id] in desired {
      var i := OursAreHomes(a, kept, desired, c, homes, id);
    }
    forall id, jd | id in c.remote && jd in c.remote
      && c.remote[id].name in names && c.remote[id].name == c.remote[jd].name
      ensures id == jd
    {
      OursDiffer(a, kept, desired, c, homes, id, jd);
    }
  }

  // ---- exactly when it converges ----

  lemma {:induction false} DeleteAllSpares(a: Account, ids: seq<nat>, id: nat)
    requires DeleteAll(a, ids).Some? && id in a.remote && id !in ids
    ensures id in DeleteAll(a, ids).value.remote && DeleteAll(a, ids).value.remote[id] == a.remote[id]
  {
    if ids != [] {
      DeleteAllSpares(a, ids[..|ids| - 1], id);
    }
  }

  /** What the apply phase created is still there at the end. */
  lemma CreatedStays(
    a: Account, desired: seq<Monitor>, listing: seq<Entry>, kept: map<string, Entry>, duplicates: seq<Entry>,
    order: seq<nat>, ids: seq<nat>, i: nat)
    requires AccountOk(a) && Planned(a, desired, listing, kept, duplicates)
    requires PlannedOrphans(desired, listing, duplicates, order) && Deployed(a, kept, desired, order).Some?
    requires Left(a, kept, desired, ApplyAll(a, kept, desired).value, ids)
    requires i < |desired| && Creates(kept, desired[i])
    ensures var c := Deployed(a, kept, desired, order).value;
            ids[i] in c.remote && c.remote[ids[i]] == desired[i]
  {
    assert ids[i] !in order by {
      OrphansInAccount(a, desired, listing, kept, duplicates, ids[i]);
    }
    DeleteAllSpares(ApplyAll(a, kept, desired).value, order, ids[i]);
  }

  /** Two entries of one name that do more than update are both created, or the second cannot be deleted again. */
  lemma ConvergedIsCompatible(
    a: Account, desired: seq<Monitor>, listing: seq<Entry>, kept: map<string, Entry>, duplicates: seq<Entry>,
    order: seq<nat>, i: nat, j: nat)
    requires AccountOk(a) && Planned(a, desired, listing, kept, duplicates)
    requires PlannedOrphans(desired, listing, duplicates, order) && Deployed(a, kept, desired, order).Some?
    requires Converged(Deployed(a, kept, desired, order).value.remote, desired)
    requires i < j < |desired| && desired[i].name == desired[j].name
    ensures SameUpdate(kept, desired[i], desired[j])
  {
    var c := Deployed(a, kept, desired, order).value;
    assert desired[i].name in NamesOf(desired);
    assert desired[i] in c.remote.Values && desired[j] in c.remote.Values;
    assert desired[i] == desired[j];
    if Creates(kept, desired[j]) {
      PlanKeepsExisting(a, desired, listing, kept, duplicates);
      var ids := ApplyAllLeaves(a, kept, desired);
      CreatedStays(a, desired, listing, kept, duplicates, order, ids, i);
      CreatedStays(a, desired, listing, kept, duplicates, order, ids, j);
      assert false;
    }
  }

  /**
   * A deployment goes through and converges exactly when the file repeats a name only to repeat an update, which
   * can be told from the file and the listing before anything is changed. Unique names are the usual case.
   */
  lemma DeployConvergesIff(
    a: Account, desired: seq<Monitor>, listing: seq<Entry>, kept: map<string, Entry>, duplicates: seq<Entry>,
    order: seq<nat>)
    requires AccountOk(a) && Planned(a, desired, listing, kept, duplicates)
    requires PlannedOrphans(desired, listing, duplicates, order)
    ensures Deployed(a, kept, desired, order).Some?
            && Converged(Deployed(a, kept, desired, order).value.remote, desired)
            <==> Compatible(kept, desired)
    ensures UniqueNames(desired) ==> Compatible(kept, desired)
  {
    if Compatible(kept, desired) {
      var c := DeployConverges(a, desired, listing, kept, duplicates, order);
    }
    if Deployed(a, kept, desired, order).Some? && Converged(Deployed(a, kept, desired, order).value.remote, desired) {
      forall i, j | 0 <= i < j < |desired| && desired[i].name == desired[j].name
        ensures SameUpdate(kept, desired[i], desired[j])
      {
        ConvergedIsCompatible(a, desired, listing, kept, duplicates, order, i, j);
      }
    }
  }

  // ---- a second run ----

  predicate OnlyUpdates(calls: seq<Call>) {
    forall i | 0 <= i < |calls| :: calls[i].Updated?
  }

  lemma {:induction false} ApplyToConverged(a: Account, kept: map<string, Entry>, desired: seq<Monitor>)
    requires KeptIn(a.remote, kept)
    requires forall i | 0 <= i < |desired| :: desired[i].name in kept && kept[desired[i].name].monitor == desired[i]
    ensures ApplyAll(a, kept, desired).Some? && ApplyAll(a, kept, desired).value.remote == a.remote
    ensures a.calls <= ApplyAll(a, kept, desired).value.calls
    ensures OnlyUpdates(ApplyAll(a, kept, desired).value.calls[|a.calls|..])
  {
    if desired != [] {
      var front, d := desired[..|desired| - 1], desired[|desired| - 1];
      ApplyToConverged(a, kept, front);
      assert d == desired[|desired| - 1] && kept[d.name].monitor == d;
      var b := ApplyAll(a, kept, front).value;
      var c := ApplyOne(b, kept, d).value;
      assert c.calls[|a.calls|..] == b.calls[|a.calls|..] + [Updated(kept[d.name].id)];
    }
  }

  /** An account that has converged is left exactly as it is: a second run creates nothing and deletes nothing. */
  lemma SecondRunOnlyUpdates(
    a: Account, desired: seq<Monitor>, listing: seq<Entry>, kept: map<string, Entry>, duplicates: seq<Entry>,
    order: seq<nat>)
    requires Converged(a.remote, desired) && Planned(a, desired, listing, kept, duplicates)
    requires PlannedOrphans(desired, listing, duplicates, order)
    ensures Deployed(a, kept, desired, order).Some? && Deployed(a, kept, desired, order).value.remote == a.remote
    ensures a.calls <= Deployed(a, kept, desired, order).value.calls
    ensures OnlyUpdates(Deployed(a, kept, desired, order).value.calls[|a.calls|..])
  {
    PlanKeepsExisting(a, desired, listing, kept, duplicates);
    forall i | 0 <= i < |desired| ensures desired[i].name in kept && kept[desired[i].name].monitor == desired[i] {
      ConvergedIsKept(a, desired, listing, kept, duplicates, i);
    }
    ApplyToConverged(a, kept, desired);
    assert order == [] by {
      if order != [] {
        OrphansInAccount(a, desired, listing, kept, duplicates, order[0]);
        assert order[0] in order;
        ConvergedIsChosen(a, kept, desired, order[0]);
        assert false;
      }
    }
  }

  lemma ConvergedIsKept(
    a: Account, desired: seq<Monitor>, listing: seq<Entry>, kept: map<string, Entry>, duplicates: seq<Entry>, i: nat)
    requires Converged(a.remote, desired) && Planned(a, desired, listing, kept, duplicates)
    requires i < |desired|
    ensures desired[i].name in kept && kept[desired[i].name].monitor == desired[i]
  {
    var names, name := NamesOf(desired), desired[i].name;
    assert desired[i] in a.remote.Values;
    var id :| id in a.remote && a.remote[id] == desired[i];
    var e := Entry(id, desired[i]);
    ExistingAre(a, listing, names, e);
    PlanSharesOut(a, desired, listing, kept, duplicates);
    PlanKeepsExisting(a, desired, listing, kept, duplicates);
    assert name in kept;
    assert kept[name].id == id;
  }

  lemma ConvergedIsChosen(a: Account, kept: map<string, Entry>, desired: seq<Monitor>, id: nat)
    requires Converged(a.remote, desired) && KeptIn(a.remote, kept)
    requires id in a.remote && Owned(a.remote[id], NamesOf(desired))
    requires forall i | 0 <= i < |desired| :: desired[i].name in kept
    ensures Chosen(kept, desired, id)
  {
    var i :| 0 <= i < |desired| && desired[i] == a.remote[id];
    assert desired[i].name in NamesOf(desired);
    assert ChosenFor(id, kept, desired[i]);
  }

  /** A call failed while entry `done` of the file was applied; those before it had been applied. */
  ghost predicate StoppedAt(a: Account, kept: map<string, Entry>, desired: seq<Monitor>, done: nat, b: Account) {
    done < |desired| && ApplyAll(a, kept, desired[..done]) == Some(b) && ApplyAll(a, kept, desired[..done + 1]).None?
  }

  /** Time only adds calls and ids, and what is not ours is as it was. */
  ghost predicate Safe(a: Account, desired: seq<Monitor>, b: Account) {
    AccountOk(b) && Evolves(a, b)
    && forall id | id in a.remote && !Owned(a.remote[id], NamesOf(desired)) ::
         id in b.remote && b.remote[id] == a.remote[id]
  }

  /** No name in the file, no tag of the team, and the old name nowhere. */
  ghost predicate NotOurs(m: Monitor, desired: seq<Monitor>) {
    (forall i | 0 <= i < |desired| :: desired[i].name != m.name)
    && "team:temperpaw" !in m.tags && !MonitorText.SaysOpenPaw(m)
  }

  ghost predicate OursAreDesired(remote: map<nat, Monitor>, desired: seq<Monitor>) {
    forall id | id in remote
      && ((exists i | 0 <= i < |desired| :: desired[i].name == remote[id].name)
          || "team:temperpaw" in remote[id].tags || MonitorText.SaysOpenPaw(remote[id])) ::
      remote[id] in desired
  }

  lemma OthersAreNotOwned(remote: map<nat, Monitor>, desired: seq<Monitor>)
    ensures forall id | id in remote && NotOurs(remote[id], desired) :: !Owned(remote[id], NamesOf(desired))
  {
    forall id | id in remote && NotOurs(remote[id], desired) ensures !Owned(remote[id], NamesOf(desired)) {
      MonitorText.OwnedMeans(remote[id], NamesOf(desired));
    }
  }

  lemma ChosenOneMore(kept: map<string, Entry>, desired: seq<Monitor>, d: Monitor, id: nat)
    ensures Chosen(kept, desired + [d], id) ==> Chosen(kept, desired, id) || ChosenFor(id, kept, d)
  {
    var more := desired + [d];
    if i :| 0 <= i < |more| && ChosenFor(id, kept, more[i]) {
      assert i < |desired| ==> more[i] == desired[i];
    }
  }

  /** After the apply phase a monitor is one of the file's, or was there before and was chosen for none. */
  lemma {:induction false} ApplyAllOnly(a: Account, kept: map<string, Entry>, desired: seq<Monitor>, id: nat)
    requires ApplyAll(a, kept, desired).Some? && id in ApplyAll(a, kept, desired).value.remote
    ensures var m := ApplyAll(a, kept, desired).value.remote[id];
            m in desired || (id in a.remote && m == a.remote[id] && !Chosen(kept, desired, id))
  {
    if desired != [] {
      var front, d := desired[..|desired| - 1], desired[|desired| - 1];
      var b, c := ApplyAll(a, kept, front).value, ApplyAll(a, kept, desired).value;
      assert desired == front + [d] && ApplyOne(b, kept, d) == Some(c);
      if c.remote[id] != d {
        assert id in b.remote && c.remote[id] == b.remote[id] && !ChosenFor(id, kept, d);
        ApplyAllOnly(a, kept, front, id);
        ChosenOneMore(kept, front, d, id);
      }
    }
  }

  lemma {:induction false} DeletedIsGone(a: Account, ids: seq<nat>, id: nat)
    requires DeleteAll(a, ids).Some? && id in DeleteAll(a, ids).value.remote
    ensures id !in ids && id in a.remote && DeleteAll(a, ids).value.remote[id] == a.remote[id]
  {
    if ids != [] {
      DeletedIsGone(a, ids[..|ids| - 1], id);
      assert ids == ids[..|ids| - 1] + [ids[|ids| - 1]];
    }
  }

  lemma WentAsLeavesDesired(
    a: Account, desired: seq<Monitor>, listing: seq<Entry>, kept: map<string, Entry>, duplicates: seq<Entry>,
    c: Account)
    requires Planned(a, desired, listing, kept, duplicates)
    requires WentAs(a, desired, listing, kept, duplicates, true, true, c)
    ensures OursAreDesired(c.remote, desired)
  {
    var order :| PlannedOrphans(desired, listing, duplicates, order) && Deployed(a, kept, desired, order) == Some(c);
    forall id | id in c.remote && Owned(c.remote[id], NamesOf(desired)) ensures c.remote[id] in desired {
      DeletedIsGone(ApplyAll(a, kept, desired).value, order, id);
      ApplyAllOnly(a, kept, desired, id);
      if c.remote[id] !in desired {
        OrphansInAccount(a, desired, listing, kept, duplicates, id);
        assert false;
      }
    }
    forall id | id in c.remote {
      MonitorText.OwnedMeans(c.remote[id], NamesOf(desired));
    }
  }

  /** The account once the script has ended: after a failed call, after the apply phase, or after both phases. */
  ghost predicate WentAs(
    a: Account, desired: seq<Monitor>, listing: seq<Entry>, kept: map<string, Entry>, duplicates: seq<Entry>,
    reconcile: bool, ok: bool, b: Account)
  {
    if !ok then exists done: nat :: StoppedAt(a, kept, desired, done, b)
    else if !reconcile then ApplyAll(a, kept, desired) == Some(b)
    else exists order :: PlannedOrphans(desired, listing, duplicates, order)
                         && Deployed(a, kept, desired, order) == Some(b)
  }

  // ---- the script ----

  method Pick(ids: set<nat>) returns (id: nat)
    requires ids != {}
    ensures id in ids
  {
    id :| id in ids;
  }

  /** The order of Python pairs of a name and an id. */
  predicate Earlier(remote: map<nat, Monitor>, x: nat, y: nat)
    requires x in remote && y in remote
  {
    FindingPaths.Before(remote[x].name, remote[y].name) || (remote[x].name == remote[y].name && x < y)
  }

  lemma EarlierIsTotal(remote: map<nat, Monitor>, x: nat, y: nat)
    requires x in remote && y in remote
    ensures x == y || Earlier(remote, x, y) || Earlier(remote, y, x)
  {
    FindingPaths.BeforeIsStrict(remote[x].name, remote[y].name);
  }

  lemma EarlierIsTransitive(remote: map<nat, Monitor>, x: nat, y: nat, z: nat)
    requires x in remote && y in remote && z in remote
    requires Earlier(remote, x, y) && Earlier(remote, y, z)
    ensures Earlier(remote, x, z)
  {
    if remote[x].name != remote[y].name && remote[y].name != remote[z].name {
      FindingPaths.BeforeTransitive(remote[x].name, remote[y].name, remote[z].name);
    }
  }

  /** The monitors by name, and those of one name by id. */
  ghost predicate ByName(remote: map<nat, Monitor>, order: seq<nat>)
    requires AllIn(order, remote)
  {
    forall i, j | 0 <= i < j < |order| :: Earlier(remote, order[i], order[j])
  }

  method Earliest(remote: map<nat, Monitor>, ids: set<nat>) returns (id: nat)
    requires ids != {} && ids <= remote.Keys
    ensures id in ids && forall x | x in ids && x != id :: Earlier(remote, id, x)
  {
    id := Pick(ids);
    var left := ids - {id};
    while left != {}
      invariant left <= ids && id in ids - left
      invariant forall x | x in ids - left && x != id :: Earlier(remote, id, x)
      decreases left
    {
      var next := Pick(left);
      left := left - {next};
      EarlierIsTotal(remote, id, next);
      if Earlier(remote, next, id) {
        forall x | x in ids - left && x != next ensures Earlier(remote, next, x) {
          if x != id {
            EarlierIsTransitive(remote, next, id, x);
          }
        }
        id := next;
      }
    }
  }

  /** The ids in the order in which the script deletes them. */
  method SortedByName(remote: map<nat, Monitor>, ids: set<nat>) returns (order: seq<nat>)
    requires ids <= remote.Keys
    ensures IsOrder(order, ids) && AllIn(order, remote) && ByName(remote, order)
  {
    order := [];
    var left := ids;
    while left != {}
      invariant left <= ids && IsOrder(order, ids - left) && AllIn(order, remote) && ByName(remote, order)
      invariant forall i, x | 0 <= i < |order| && x in left :: Earlier(remote, order[i], x)
      decreases left
    {
      var id := Earliest(remote, left);
      order := order + [id];
      left := left - {id};
    }
    assert ids - left == ids;
  }

  class DatadogAccount {
    var remote: map<nat, Monitor>
    var nextId: nat
    var calls: seq<Call>

    function Contents(): Account
      reads this
    {
      Account(remote, nextId, calls)
    }

    method DeleteMonitor(id: nat) returns (ok: bool)
      modifies this
      ensures ok <==> Delete(old(Contents()), id).Some?
      ensures Contents() == if ok then Delete(old(Contents()), id).value else old(Contents())
    {
      ok := id in remote;
      if ok {
        remote := remote - {id};
        calls := calls + [Deleted(id)];
      }
    }

    method CreateMonitor(m: Monitor)
      modifies this
      ensures Contents() == Create(old(Contents()), m)
    {
      remote := remote[nextId := m];
      calls := calls + [Created(nextId)];
      nextId := nextId + 1;
    }

    method UpdateMonitor(id: nat, m: Monitor) returns (ok: bool)
      modifies this
      ensures ok <==> Update(old(Contents()), id, m).Some?
      ensures Contents() == if ok then Update(old(Contents()), id, m).value else old(Contents())
    {
      ok := id in remote;
      if ok {
        remote := remote[id := m];
        calls := calls + [Updated(id)];
      }
    }

    /** Every monitor once, in an order of the server's choosing. */
    method ListMonitors() returns (listing: seq<Entry>)
      ensures IsListing(remote, listing)
    {
      listing := [];
      var left: set<nat> := remote.Keys;
      while left != {}
        invariant left <= remote.Keys
        invariant forall i | 0 <= i < |listing| ::
                    listing[i].id in remote && remote[listing[i].id] == listing[i].monitor && listing[i].id !in left
        invariant forall id | id in remote && id !in left :: exists i :: 0 <= i < |listing| && listing[i].id == id
        invariant forall i, j | 0 <= i < j < |listing| :: listing[i].id != listing[j].id
        decreases left
      {
        var id := Pick(left);
        ghost var before := listing;
        listing := listing + [Entry(id, remote[id])];
        left := left - {id};
        assert listing[|before|].id == id;
        forall other | other in remote && other !in left
          ensures exists i :: 0 <= i < |listing| && listing[i].id == other
        {
          if other != id {
            var i :| 0 <= i < |before| && before[i].id == other;
            assert listing[i].id == other;
          }
        }
      }
    }

    /** Brings the desired monitors about, `done` of them. A call that fails ends the script. */
    method ApplyDesired(kept: map<string, Entry>, desired: seq<Monitor>) returns (ok: bool, done: nat)
      modifies this
      ensures ok <==> ApplyAll(old(Contents()), kept, desired).Some?
      ensures done <= |desired| && ApplyAll(old(Contents()), kept, desired[..done]) == Some(Contents())
      ensures ok <==> done == |desired|
      ensures done < |desired| ==> ApplyAll(old(Contents()), kept, desired[..done + 1]).None?
    {
      ok, done := true, 0;
      while done < |desired|
        invariant done <= |desired| && ApplyAll(old(Contents()), kept, desired[..done]) == Some(Contents())
      {
        var d := desired[done];
        assert desired[..done + 1][..done] == desired[..done];
        if d.name in kept {
          var existing := kept[d.name];
          if existing.monitor.kind != d.kind {
            ok := DeleteMonitor(existing.id);
            if ok {
              CreateMonitor(d);
            }
          } else {
            ok := UpdateMonitor(existing.id, d);
          }
        } else {
          ok := true;
          CreateMonitor(d);
        }
        if !ok {
          FailureLasts(old(Contents()), kept, desired, done + 1);
          return;
        }
        done := done + 1;
      }
      ok := true;
      assert desired[..|desired|] == desired;
    }

    /** Deletes the orphans one by one, by name and then by id. */
    method DeleteOrphans(orphans: set<nat>) returns (order: seq<nat>)
      requires orphans <= remote.Keys
      modifies this
      ensures IsOrder(order, orphans) && DeleteAll(old(Contents()), order) == Some(Contents())
      ensures AllIn(order, old(remote)) && ByName(old(remote), order)
    {
      order := SortedByName(remote, orphans);
      for n := 0 to |order|
        invariant DeleteAll(old(Contents()), order[..n]) == Some(Contents())
        invariant forall i | n <= i < |order| :: order[i] in remote
      {
        assert order[..n + 1][..n] == order[..n];
        var deleted := DeleteMonitor(order[n]);
      }
      assert order[..|order|] == order;
    }

    /**
     * The whole script. A rejected monitor or a dry run changes nothing. Otherwise the file is applied, up to the
     * first call that fails; with --reconcile the orphans are deleted then. A monitor whose name is not in the file,
     * that lacks the team's tag and does not say OpenPaw anywhere is never touched; and whatever has that tag or
     * says OpenPaw is one of the file's after --reconcile. The account converges exactly if the file repeats only
     * updates.
     */
    method Deploy(desired: seq<Monitor>, accepted: seq<bool>, dryRun: bool, reconcile: bool)
      returns (ok: bool, listing: seq<Entry>, kept: map<string, Entry>, duplicates: seq<Entry>)
      requires |accepted| == |desired| && AccountOk(Contents())
      modifies this
      ensures Safe(old(Contents()), desired, Contents())
      ensures (forall i | 0 <= i < |accepted| :: accepted[i])
              ==> Planned(old(Contents()), desired, listing, kept, duplicates)
      ensures ok <==> (forall i | 0 <= i < |accepted| :: accepted[i])
                      && (dryRun || ApplyAll(old(Contents()), kept, desired).Some?)
      ensures (exists i | 0 <= i < |accepted| :: !accepted[i]) || dryRun ==> Contents() == old(Contents())
      ensures (forall i | 0 <= i < |accepted| :: accepted[i]) && !dryRun ==>
                WentAs(old(Contents()), desired, listing, kept, duplicates, reconcile, ok, Contents())
      ensures (forall i | 0 <= i < |accepted| :: accepted[i]) && !dryRun && reconcile ==>
                (ok && Converged(remote, desired) <==> Compatible(kept, desired))
      ensures ok && !dryRun && old(Converged(remote, desired)) && reconcile ==>
                remote == old(remote) && OnlyUpdates(calls[|old(calls)|..])
      ensures forall id | id in old(remote) && NotOurs(old(remote)[id], desired) ::
                id in remote && remote[id] == old(remote)[id]
      ensures ok && !dryRun && reconcile ==> OursAreDesired(remote, desired)
    {
      OthersAreNotOwned(old(remote), desired);
      ok, listing, kept, duplicates := true, [], map[], [];
      var n := 0;
      while n < |accepted|
        invariant 0 <= n <= |accepted| && (ok <==> forall i | 0 <= i < n :: accepted[i])
      {
        ok := ok && accepted[n];
        n := n + 1;
      }
      if !ok {
        return;
      }
      var names := NamesOf(desired);
      listing := ListMonitors();
      kept, duplicates := IndexExisting(OwnedOnly(listing, names), names);
      if dryRun {
        return;
      }
      ok := ApplyAndReconcile(desired, listing, kept, duplicates, reconcile);
      if reconcile {
        WentAsConverges(old(Contents()), desired, listing, kept, duplicates, ok, Contents());
        if ok {
          WentAsLeavesDesired(old(Contents()), desired, listing, kept, duplicates, Contents());
        }
      }
    }

    method ApplyAndReconcile(
      desired: seq<Monitor>, listing: seq<Entry>, kept: map<string, Entry>, duplicates: seq<Entry>, reconcile: bool)
      returns (ok: bool)
      requires AccountOk(Contents()) && Planned(Contents(), desired, listing, kept, duplicates)
      modifies this
      ensures Safe(old(Contents()), desired, Contents())
      ensures ok <==> ApplyAll(old(Contents()), kept, desired).Some?
      ensures WentAs(old(Contents()), desired, listing, kept, duplicates, reconcile, ok, Contents())
    {
      ghost var start := Contents();
      PlanKeepsExisting(start, desired, listing, kept, duplicates);
      var done;
      ok, done := ApplyDesired(kept, desired);
      PrefixApplied(start, kept, desired, done);
      if !ok {
        assert StoppedAt(start, kept, desired, done, Contents());
        return;
      }
      assert desired[..done] == desired;
      if reconcile {
        Reconcile(start, desired, listing, kept, duplicates);
      }
    }

    method Reconcile(
      ghost start: Account, desired: seq<Monitor>, listing: seq<Entry>, ghost kept: map<string, Entry>,
      duplicates: seq<Entry>)
      requires AccountOk(start) && Planned(start, desired, listing, kept, duplicates)
      requires ApplyAll(start, kept, desired) == Some(Contents()) && Safe(start, desired, Contents())
      modifies this
      ensures Safe(start, desired, Contents())
      ensures exists order :: PlannedOrphans(desired, listing, duplicates, order)
                              && Deployed(start, kept, desired, order) == Some(Contents())
    {
      ghost var applied := Contents();
      OrphansAreSpared(start, desired, listing, kept, duplicates);
      var names := NamesOf(desired);
      var order := DeleteOrphans(Orphans(OwnedOnly(listing, names), duplicates, names));
      assert PlannedOrphans(desired, listing, duplicates, order);
      assert Deployed(start, kept, desired, order) == Some(Contents());
      ReconciledIsSafe(start, desired, listing, kept, duplicates, applied, order, Contents());
    }
  }

  /** However far the apply phase got: the account is in order and what is not ours is as it was. */
  lemma PrefixApplied(a: Account, kept: map<string, Entry>, desired: seq<Monitor>, done: nat)
    requires AccountOk(a) && KeptIn(a.remote, kept) && done <= |desired|
    requires ApplyAll(a, kept, desired[..done]).Some?
    ensures Safe(a, desired, ApplyAll(a, kept, desired[..done]).value)
  {
    var b := ApplyAll(a, kept, desired[..done]).value;
    ApplyAllKeeps(a, kept, desired[..done]);
    forall id | id in a.remote && !Owned(a.remote[id], NamesOf(desired))
      ensures id in b.remote && b.remote[id] == a.remote[id]
    {
      UnownedUnchosen(a, kept, desired, id);
      assert forall i | 0 <= i < done :: !ChosenFor(id, kept, desired[i]);
      ApplyAllSpares(a, kept, desired[..done], id);
    }
  }

  lemma OrphansAreSpared(
    a: Account, desired: seq<Monitor>, listing: seq<Entry>, kept: map<string, Entry>, duplicates: seq<Entry>)
    requires AccountOk(a) && Planned(a, desired, listing, kept, duplicates) && ApplyAll(a, kept, desired).Some?
    ensures Orphans(OwnedOnly(listing, NamesOf(desired)), duplicates, NamesOf(desired))
            <= ApplyAll(a, kept, desired).value.remote.Keys
  {
    forall id | id in Orphans(OwnedOnly(listing, NamesOf(desired)), duplicates, NamesOf(desired))
      ensures id in ApplyAll(a, kept, desired).value.remote
    {
      OrphansInAccount(a, desired, listing, kept, duplicates, id);
      assert forall i | 0 <= i < |desired| :: !ChosenFor(id, kept, desired[i]);
      ApplyAllSpares(a, kept, desired, id);
    }
  }

  lemma ReconciledIsSafe(
    a: Account, desired: seq<Monitor>, listing: seq<Entry>, kept: map<string, Entry>, duplicates: seq<Entry>,
    b: Account, order: seq<nat>, c: Account)
    requires Planned(a, desired, listing, kept, duplicates) && PlannedOrphans(desired, listing, duplicates, order)
    requires Safe(a, desired, b) && DeleteAll(b, order) == Some(c)
    ensures Safe(a, desired, c)
  {
    DeleteAllKeeps(b, order);
    EvolvesOn(a, b, c);
    forall id | id in a.remote && !Owned(a.remote[id], NamesOf(desired))
      ensures id in c.remote && c.remote[id] == a.remote[id]
    {
      OrphansInAccount(a, desired, listing, kept, duplicates, id);
      DeleteAllSpares(b, order, id);
    }
  }

  lemma StoppedIsIncompatible(
    a: Account, desired: seq<Monitor>, listing: seq<Entry>, kept: map<string, Entry>, duplicates: seq<Entry>,
    done: nat, b: Account)
    requires AccountOk(a) && Planned(a, desired, listing, kept, duplicates) && StoppedAt(a, kept, desired, done, b)
    ensures !Compatible(kept, desired)
  {
    FailureLasts(a, kept, desired, done + 1);
    if Compatible(kept, desired) {
      PlanKeepsExisting(a, desired, listing, kept, duplicates);
      var c, homes := ApplyAllApplies(a, kept, desired);
      assert false;
    }
  }

  /** What a script that reconciles brings about. */
  lemma WentAsConverges(
    a: Account, desired: seq<Monitor>, listing: seq<Entry>, kept: map<string, Entry>, duplicates: seq<Entry>,
    ok: bool, b: Account)
    requires AccountOk(a) && Planned(a, desired, listing, kept, duplicates) && Safe(a, desired, b)
    requires WentAs(a, desired, listing, kept, duplicates, true, ok, b)
    ensures ok && Converged(b.remote, desired) <==> Compatible(kept, desired)
    ensures ok && Converged(a.remote, desired) ==> b.remote == a.remote && OnlyUpdates(b.calls[|a.calls|..])
  {
    if ok {
      var order :| PlannedOrphans(desired, listing, duplicates, order) && Deployed(a, kept, desired, order) == Some(b);
      DeployConvergesIff(a, desired, listing, kept, duplicates, order);
      if Converged(a.remote, desired) {
        SecondRunOnlyUpdates(a, desired, listing, kept, duplicates, order);
      }
    } else {
      var done: nat :| StoppedAt(a, kept, desired, done, b);
      StoppedIsIncompatible(a, desired, listing, kept, duplicates, done, b);
    }
  }

  lemma {:induction false} DeleteAllKeeps(a: Account, ids: seq<nat>)
    requires AccountOk(a) && DeleteAll(a, ids).Some?
    ensures AccountOk(DeleteAll(a, ids).value) && Evolves(a, DeleteAll(a, ids).value)
  {
    if ids != [] {
      var id, before := ids[|ids| - 1], DeleteAll(a, ids[..|ids| - 1]).value;
      DeleteAllKeeps(a, ids[..|ids| - 1]);
      CallKeeps(before, Deleted(id), DeleteAll(a, ids).value);
      EvolvesOn(a, before, DeleteAll(a, ids).value);
    }
  }

  lemma {:induction false} FailureLasts(a: Account, kept: map<string, Entry>, desired: seq<Monitor>, n: nat)
    requires n <= |desired| && ApplyAll(a, kept, desired[..n]).None?
    ensures ApplyAll(a, kept, desired).None?
    decreases |desired| - n
  {
    if n < |desired| {
      assert desired[..n + 1][..n] == desired[..n];
      FailureLasts(a, kept, desired, n + 1);
    } else {
      assert desired[..n] == desired;
    }
  }
}
