/** The remote account a deployment works on, and what the apply and reconcile phases do to it. */
module MonitorAccount {
  import opened Text
  import opened Monitors

  datatype Call = Created(id: nat) | Updated(id: nat) | Deleted(id: nat)

  /** The monitors by id, and the successful calls that changed them. Ids are never given out twice. */
  datatype Account = Account(remote: map<nat, Monitor>, nextId: nat, calls: seq<Call>)

  function Delete(a: Account, id: nat): Option<Account> {
    if id in a.remote then Some(Account(a.remote - {id}, a.nextId, a.calls + [Deleted(id)])) else None
  }

  function Create(a: Account, m: Monitor): Account {
    Account(a.remote[a.nextId := m], a.nextId + 1, a.calls + [Created(a.nextId)])
  }

  function Update(a: Account, id: nat, m: Monitor): Option<Account> {
    if id in a.remote then Some(a.(remote := a.remote[id := m], calls := a.calls + [Updated(id)])) else None
  }

  /** Brings one desired monitor about: a changed type is deleted and created again. None when a call fails. */
  function ApplyOne(a: Account, kept: map<string, Entry>, d: Monitor): Option<Account> {
    if d.name !in kept then Some(Create(a, d))
    else
      var e := kept[d.name];
      if e.monitor.kind == d.kind then Update(a, e.id, d)
      else
        var without := Delete(a, e.id);
        if without.None? then None else Some(Create(without.value, d))
  }

  function ApplyAll(a: Account, kept: map<string, Entry>, desired: seq<Monitor>): Option<Account> {
    if desired == [] then Some(a)
    else
      var before := ApplyAll(a, kept, desired[..|desired| - 1]);
      if before.None? then None else ApplyOne(before.value, kept, desired[|desired| - 1])
  }

  function DeleteAll(a: Account, ids: seq<nat>): Option<Account> {
    if ids == [] then Some(a)
    else
      var before := DeleteAll(a, ids[..|ids| - 1]);
      if before.None? then None else Delete(before.value, ids[|ids| - 1])
  }

  function NamesOf(desired: seq<Monitor>): set<string> {
    set i | 0 <= i < |desired| :: desired[i].name
  }

  function OwnedOnly(listing: seq<Entry>, names: set<string>): seq<Entry> {
    if listing == [] then []
    else
      var first := OwnedOnly(listing[..|listing| - 1], names);
      var e := listing[|listing| - 1];
      if Owned(e.monitor, names) then first + [e] else first
  }

  function Orphans(existing: seq<Entry>, duplicates: seq<Entry>, names: set<string>): set<nat> {
    (set e | e in duplicates :: e.id) + (set e | e in existing && e.monitor.name !in names :: e.id)
  }

  ghost predicate IsListing(remote: map<nat, Monitor>, listing: seq<Entry>) {
    && (forall i | 0 <= i < |listing| :: listing[i].id in remote && remote[listing[i].id] == listing[i].monitor)
    && (forall id | id in remote :: exists i :: 0 <= i < |listing| && listing[i].id == id)
    && (forall i, j | 0 <= i < j < |listing| :: listing[i].id != listing[j].id)
  }

  ghost predicate UniqueNames(desired: seq<Monitor>) {
    forall i, j | 0 <= i < j < |desired| :: desired[i].name != desired[j].name
  }

  /** Two entries of the file that come to the same: they agree, and only update the entry kept for their name. */
  predicate SameUpdate(kept: map<string, Entry>, d: Monitor, e: Monitor) {
    d == e && e.name in kept && kept[e.name].monitor.kind == e.kind
  }

  /** Where the file repeats a name, it repeats an update. */
  ghost predicate Compatible(kept: map<string, Entry>, desired: seq<Monitor>) {
    forall i, j | 0 <= i < j < |desired| && desired[i].name == desired[j].name ::
      SameUpdate(kept, desired[i], desired[j])
  }

  predicate Distinct(ids: seq<nat>) {
    forall i, j | 0 <= i < j < |ids| :: ids[i] != ids[j]
  }

  /** The ids in some order, each once. */
  ghost predicate IsOrder(order: seq<nat>, ids: set<nat>) {
    (forall id :: id in ids <==> id in order) && Distinct(order)
  }

  /** What a deployment is for. */
  ghost predicate Converged(remote: map<nat, Monitor>, desired: seq<Monitor>) {
    var names := NamesOf(desired);
    && (forall i | 0 <= i < |desired| :: desired[i] in remote.Values)
    && (forall id | id in remote && Owned(remote[id], names) :: remote[id] in desired)
    && (forall id, jd | id in remote && jd in remote
          && remote[id].name in names && remote[id].name == remote[jd].name :: id == jd)
  }

  ghost predicate AccountOk(a: Account) {
    && (forall id | id in a.remote :: id < a.nextId)
    && (forall id: nat | Deleted(id) in a.calls :: id !in a.remote && id < a.nextId)
    && (forall id: nat :: multiset(a.calls)[Deleted(id)] <= 1)
  }

  /** Time only adds calls and ids, and what is gone was deleted by a call. */
  ghost predicate Evolves(a: Account, b: Account) {
    a.nextId <= b.nextId && a.calls <= b.calls
    && forall id | id in a.remote && id !in b.remote :: Deleted(id) in b.calls
  }

  lemma EvolvesOn(a: Account, b: Account, c: Account)
    requires Evolves(a, b) && Evolves(b, c)
    ensures Evolves(a, c)
  {
  }

  lemma CallKeeps(a: Account, call: Call, b: Account)
    requires AccountOk(a) && b.calls == a.calls + [call]
    requires match call
             case Created(id) => id == a.nextId && b.nextId == id + 1 && b.remote.Keys == a.remote.Keys + {id}
             case Updated(id) => b.nextId == a.nextId && b.remote.Keys == a.remote.Keys
             case Deleted(id) => b.nextId == a.nextId && id in a.remote && b.remote.Keys == a.remote.Keys - {id}
    ensures AccountOk(b) && Evolves(a, b)
  {
    forall id ensures multiset(b.calls)[Deleted(id)] <= 1 {
      assert multiset(b.calls) == multiset(a.calls) + multiset{call};
      assert call == Deleted(id) ==> Deleted(id) !in a.calls;
    }
  }

  lemma ApplyOneKeeps(a: Account, kept: map<string, Entry>, d: Monitor)
    requires AccountOk(a) && ApplyOne(a, kept, d).Some?
    ensures AccountOk(ApplyOne(a, kept, d).value) && Evolves(a, ApplyOne(a, kept, d).value)
  {
    var b := ApplyOne(a, kept, d).value;
    if d.name !in kept {
      CallKeeps(a, Created(a.nextId), b);
    } else if kept[d.name].monitor.kind == d.kind {
      CallKeeps(a, Updated(kept[d.name].id), b);
    } else {
      var mid := Delete(a, kept[d.name].id).value;
      CallKeeps(a, Deleted(kept[d.name].id), mid);
      CallKeeps(mid, Created(mid.nextId), b);
      EvolvesOn(a, mid, b);
    }
  }

  // ---- the apply phase ----

  ghost predicate KeptIn(remote: map<nat, Monitor>, kept: map<string, Entry>) {
    forall name | name in kept ::
      kept[name].id in remote && remote[kept[name].id] == kept[name].monitor && kept[name].monitor.name == name
  }

  predicate ChosenFor(id: nat, kept: map<string, Entry>, d: Monitor) {
    d.name in kept && kept[d.name].id == id
  }

  /** Where desired monitor d ends up: in the kept entry of its name if the type agrees, else under a new id. */
  predicate HomeOf(a: Account, kept: map<string, Entry>, d: Monitor, home: nat) {
    if d.name in kept && kept[d.name].monitor.kind == d.kind then home == kept[d.name].id else a.nextId <= home
  }

  ghost predicate Applied(a: Account, kept: map<string, Entry>, desired: seq<Monitor>, b: Account, homes: seq<nat>) {
    && |homes| == |desired|
    && (forall i | 0 <= i < |homes| ::
          homes[i] in b.remote && b.remote[homes[i]] == desired[i] && HomeOf(a, kept, desired[i], homes[i]))
    && (forall id | id in b.remote && id !in homes ::
          id in a.remote && b.remote[id] == a.remote[id]
          && forall i | 0 <= i < |desired| :: !ChosenFor(id, kept, desired[i]))
    && (forall id | id in a.remote && (forall i | 0 <= i < |desired| :: !ChosenFor(id, kept, desired[i])) ::
          id in b.remote && id !in homes)
    && AccountOk(b) && Evolves(a, b)
  }

  /** One desired monitor was placed: it is at its home, and only the entry chosen for it has gone or changed. */
  ghost predicate Placed(b: Account, kept: map<string, Entry>, d: Monitor, c: Account, home: nat) {
    && home in c.remote && c.remote[home] == d && HomeOf(b, kept, d, home) && home < c.nextId
    && (forall id | id in c.remote && id != home ::
          id in b.remote && c.remote[id] == b.remote[id] && !ChosenFor(id, kept, d))
    && (forall id | id in b.remote && !ChosenFor(id, kept, d) :: id in c.remote && id != home)
  }

  predicate Creates(kept: map<string, Entry>, d: Monitor) {
    !(d.name in kept && kept[d.name].monitor.kind == d.kind)
  }

  lemma ApplyOneIsPlaced(b: Account, kept: map<string, Entry>, d: Monitor, c: Account, home: nat)
    requires forall id | id in b.remote :: id < b.nextId
    requires ApplyOne(b, kept, d) == Some(c) && home == if Creates(kept, d) then b.nextId else kept[d.name].id
    ensures Placed(b, kept, d, c, home)
  {
  }

  lemma ApplyOnePlaces(b: Account, kept: map<string, Entry>, d: Monitor) returns (c: Account, home: nat)
    requires AccountOk(b) && (d.name in kept ==> kept[d.name].id in b.remote)
    ensures ApplyOne(b, kept, d) == Some(c) && Placed(b, kept, d, c, home) && AccountOk(c) && Evolves(b, c)
  {
    home := if Creates(kept, d) then b.nextId else kept[d.name].id;
    c := ApplyOne(b, kept, d).value;
    ApplyOneKeeps(b, kept, d);
    ApplyOneIsPlaced(b, kept, d, c, home);
  }

  lemma HomesStay(
    a: Account, kept: map<string, Entry>, desired: seq<Monitor>, b: Account, homes: seq<nat>, d: Monitor,
    c: Account, home: nat, i: nat)
    requires AccountOk(a) && KeptIn(a.remote, kept)
    requires Applied(a, kept, desired, b, homes) && Placed(b, kept, d, c, home)
    requires i < |homes| && (desired[i].name != d.name || SameUpdate(kept, desired[i], d))
    ensures homes[i] in c.remote && c.remote[homes[i]] == desired[i]
    ensures HomeOf(a, kept, desired[i], homes[i])
  {
    assert homes[i] in b.remote && HomeOf(a, kept, desired[i], homes[i]);
    assert desired[i].name != d.name ==> !ChosenFor(homes[i], kept, d);
  }

  lemma KeptIsThere(
    a: Account, kept: map<string, Entry>, desired: seq<Monitor>, d: Monitor, b: Account, homes: seq<nat>)
    requires KeptIn(a.remote, kept) && Applied(a, kept, desired, b, homes) && d.name in kept
    requires forall i | 0 <= i < |desired| && desired[i].name == d.name :: SameUpdate(kept, desired[i], d)
    ensures kept[d.name].id in b.remote
  {
    if i :| 0 <= i < |desired| && desired[i].name == d.name {
      assert HomeOf(a, kept, desired[i], homes[i]);
    } else {
      assert forall i | 0 <= i < |desired| :: !ChosenFor(kept[d.name].id, kept, desired[i]);
    }
  }

  lemma AppliedOneMore(
    a: Account, kept: map<string, Entry>, desired: seq<Monitor>, d: Monitor, b: Account, homes: seq<nat>)
    returns (c: Account, home: nat)
    requires AccountOk(a) && KeptIn(a.remote, kept) && Applied(a, kept, desired, b, homes)
    requires forall i | 0 <= i < |desired| && desired[i].name == d.name :: SameUpdate(kept, desired[i], d)
    ensures ApplyOne(b, kept, d) == Some(c) && Applied(a, kept, desired + [d], c, homes + [home])
  {
    var more := desired + [d];
    if d.name in kept {
      KeptIsThere(a, kept, desired, d, b, homes);
    }
    c, home := ApplyOnePlaces(b, kept, d);
    EvolvesOn(a, b, c);
    var all := homes + [home];
    forall i | 0 <= i < |all|
      ensures all[i] in c.remote && c.remote[all[i]] == more[i] && HomeOf(a, kept, more[i], all[i])
    {
      if i < |homes| {
        HomesStay(a, kept, desired, b, homes, d, c, home, i);
      }
    }
    OthersStay(a, kept, desired, d, b, homes, c, home);
  }

  lemma OthersStay(
    a: Account, kept: map<string, Entry>, desired: seq<Monitor>, d: Monitor, b: Account, homes: seq<nat>,
    c: Account, home: nat)
    requires Applied(a, kept, desired, b, homes) && Placed(b, kept, d, c, home)
    ensures forall id | id in c.remote && id !in homes + [home] ::
              id in a.remote && c.remote[id] == a.remote[id]
              && forall i | 0 <= i < |desired + [d]| :: !ChosenFor(id, kept, (desired + [d])[i])
    ensures forall id | id in a.remote
              && (forall i | 0 <= i < |desired + [d]| :: !ChosenFor(id, kept, (desired + [d])[i])) ::
              id in c.remote && id !in homes + [home]
  {
    var more, all := desired + [d], homes + [home];
    forall id | id in c.remote && id !in all
      ensures id in a.remote && c.remote[id] == a.remote[id]
      ensures forall i | 0 <= i < |more| :: !ChosenFor(id, kept, more[i])
    {
      assert home in all && (id in homes ==> id in all);
      assert id != home && id in b.remote && id !in homes;
    }
    forall id | id in a.remote && (forall i | 0 <= i < |more| :: !ChosenFor(id, kept, more[i]))
      ensures id in c.remote && id !in all
    {
      assert !ChosenFor(id, kept, more[|desired|]);
      forall i | 0 <= i < |desired| ensures !ChosenFor(id, kept, desired[i]) {
        assert !ChosenFor(id, kept, more[i]);
      }
    }
  }

  lemma {:induction false} ApplyAllApplies(a: Account, kept: map<string, Entry>, desired: seq<Monitor>)
    returns (b: Account, homes: seq<nat>)
    requires AccountOk(a) && KeptIn(a.remote, kept) && Compatible(kept, desired)
    ensures ApplyAll(a, kept, desired) == Some(b) && Applied(a, kept, desired, b, homes)
  {
    if desired == [] {
      b, homes := a, [];
    } else {
      var before, d := desired[..|desired| - 1], desired[|desired| - 1];
      b, homes := ApplyAllApplies(a, kept, before);
      var home: nat;
      b, home := AppliedOneMore(a, kept, before, d, b, homes);
      homes := homes + [home];
      assert before + [d] == desired;
    }
  }

  // ---- the apply phase on any file ----

  /** What an apply phase that went through leaves of the monitors it created, whatever the names are. */
  ghost predicate Left(a: Account, kept: map<string, Entry>, desired: seq<Monitor>, b: Account, ids: seq<nat>) {
    && |ids| == |desired| && a.nextId <= b.nextId
    && (forall i | 0 <= i < |ids| && Creates(kept, desired[i]) ::
          a.nextId <= ids[i] < b.nextId && ids[i] in b.remote && b.remote[ids[i]] == desired[i]
          && (desired[i].name in kept ==> kept[desired[i].name].id !in b.remote))
    && (forall i, j | 0 <= i < j < |ids| && Creates(kept, desired[i]) && Creates(kept, desired[j]) ::
          ids[i] < ids[j] && (desired[i].name == desired[j].name ==> desired[i].name !in kept))
  }

  lemma LeftOneMore(
    a: Account, kept: map<string, Entry>, desired: seq<Monitor>, d: Monitor, b: Account, ids: seq<nat>, c: Account)
    requires AccountOk(a) && KeptIn(a.remote, kept) && Left(a, kept, desired, b, ids)
    requires ApplyOne(b, kept, d) == Some(c)
    ensures Left(a, kept, desired + [d], c, ids + [b.nextId])
  {
    var more, all: seq<nat> := desired + [d], ids + [b.nextId];
    assert d.name in kept ==> kept[d.name].id < a.nextId;
    forall i | 0 <= i < |all| && Creates(kept, more[i])
      ensures a.nextId <= all[i] < c.nextId && all[i] in c.remote && c.remote[all[i]] == more[i]
      ensures more[i].name in kept ==> kept[more[i].name].id !in c.remote
    {
      assert i < |ids| ==> more[i] == desired[i] && all[i] == ids[i];
      assert more[i].name in kept ==> kept[more[i].name].id < a.nextId;
    }
    forall i, j | 0 <= i < j < |all| && Creates(kept, more[i]) && Creates(kept, more[j])
      ensures all[i] < all[j] && (more[i].name == more[j].name ==> more[i].name !in kept)
    {
      assert more[i] == desired[i] && all[i] == ids[i];
      assert j < |ids| ==> more[j] == desired[j] && all[j] == ids[j];
    }
  }

  lemma {:induction false} ApplyAllLeaves(a: Account, kept: map<string, Entry>, desired: seq<Monitor>)
    returns (ids: seq<nat>)
    requires AccountOk(a) && KeptIn(a.remote, kept) && ApplyAll(a, kept, desired).Some?
    ensures Left(a, kept, desired, ApplyAll(a, kept, desired).value, ids)
  {
    if desired == [] {
      ids := [];
    } else {
      var before, d := desired[..|desired| - 1], desired[|desired| - 1];
      ids := ApplyAllLeaves(a, kept, before);
      var b := ApplyAll(a, kept, before).value;
      LeftOneMore(a, kept, before, d, b, ids, ApplyAll(a, kept, desired).value);
      assert before + [d] == desired;
      ids := ids + [b.nextId];
    }
  }

  /** A monitor chosen for no desired one is not touched, however far the phase gets. */
  lemma {:induction false} ApplyAllSpares(a: Account, kept: map<string, Entry>, desired: seq<Monitor>, id: nat)
    requires ApplyAll(a, kept, desired).Some? && id in a.remote && id < a.nextId
    requires forall i | 0 <= i < |desired| :: !ChosenFor(id, kept, desired[i])
    ensures var b := ApplyAll(a, kept, desired).value;
            id in b.remote && b.remote[id] == a.remote[id] && id < b.nextId
  {
    if desired != [] {
      ApplyAllSpares(a, kept, desired[..|desired| - 1], id);
      assert !ChosenFor(id, kept, desired[|desired| - 1]);
    }
  }

  lemma {:induction false} ApplyAllKeeps(a: Account, kept: map<string, Entry>, desired: seq<Monitor>)
    requires AccountOk(a) && ApplyAll(a, kept, desired).Some?
    ensures AccountOk(ApplyAll(a, kept, desired).value) && Evolves(a, ApplyAll(a, kept, desired).value)
  {
    if desired != [] {
      var before := ApplyAll(a, kept, desired[..|desired| - 1]).value;
      ApplyAllKeeps(a, kept, desired[..|desired| - 1]);
      ApplyOneKeeps(before, kept, desired[|desired| - 1]);
      EvolvesOn(a, before, ApplyAll(a, kept, desired).value);
    }
  }

  // ---- the reconcile phase ----

  /** The account less some of its monitors. */
  ghost predicate Without(a: Account, ids: seq<nat>, b: Account) {
    && (forall id: nat :: id in b.remote <==> id in a.remote && id !in ids)
    && (forall id | id in b.remote :: b.remote[id] == a.remote[id])
  }

  ghost predicate Deletes(a: Account, ids: seq<nat>, b: Account) {
    DeleteAll(a, ids) == Some(b) && AccountOk(b) && Evolves(a, b) && Without(a, ids, b)
  }

  lemma DeletesOneMore(a: Account, ids: seq<nat>, mid: Account, id: nat) returns (b: Account)
    requires Deletes(a, ids, mid) && id in mid.remote
    ensures Deletes(a, ids + [id], b)
  {
    assert (ids + [id])[..|ids|] == ids;
    b := Delete(mid, id).value;
    CallKeeps(mid, Deleted(id), b);
    EvolvesOn(a, mid, b);
  }

  predicate AllIn(ids: seq<nat>, remote: map<nat, Monitor>) {
    forall i | 0 <= i < |ids| :: ids[i] in remote
  }

  lemma LastIsLeft(a: Account, ids: seq<nat>, id: nat, mid: Account)
    requires AllIn(ids + [id], a.remote) && Distinct(ids + [id]) && Without(a, ids, mid)
    ensures id in mid.remote && AllIn(ids, a.remote) && Distinct(ids)
  {
    var all := ids + [id];
    assert all[|ids|] == id && forall i | 0 <= i < |ids| :: all[i] == ids[i];
  }

  lemma {:induction false} DeleteAllDeletes(a: Account, ids: seq<nat>) returns (b: Account)
    requires AccountOk(a) && AllIn(ids, a.remote) && Distinct(ids)
    ensures Deletes(a, ids, b)
  {
    if ids == [] {
      b := a;
    } else {
      var before, id := ids[..|ids| - 1], ids[|ids| - 1];
      assert before + [id] == ids;
      var mid := DeleteAllDeletes(a, before);
      LastIsLeft(a, before, id, mid);
      b := DeletesOneMore(a, before, mid, id);
    }
  }
}
