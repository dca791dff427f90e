/** src/server/user_store.c: ten slots that together are a map from user names to passwords. */
module UserStores {
  import opened Common

  const MAX_USERS := 10
  const MAX_FIELD := 255

  /** struct user_entry, with the two length-counted byte fields as sequences. */
  datatype Slot = Slot(used: bool, username: seq<byte>, password: seq<byte>)

  const FREE := Slot(false, [], [])

  predicate ValidField(value: seq<byte>) {
    0 < |value| <= MAX_FIELD
  }

  /** The names in use, and the slot of a name. */
  ghost function Names(slots: seq<Slot>): set<seq<byte>> {
    set i | 0 <= i < |slots| && slots[i].used :: slots[i].username
  }

  /** No two used slots share a name. */
  ghost predicate Unique(slots: seq<Slot>) {
    forall i, j | 0 <= i < j < |slots| && slots[i].used && slots[j].used :: slots[i].username != slots[j].username
  }

  function Find(slots: seq<Slot>, name: seq<byte>): (i: nat)
    ensures i <= |slots|
    ensures i < |slots| ==> slots[i].used && slots[i].username == name
    ensures forall j | 0 <= j < i :: !(slots[j].used && slots[j].username == name)
  {
    if slots == [] || (slots[0].used && slots[0].username == name) then 0 else 1 + Find(slots[1..], name)
  }

  ghost function AsMap(slots: seq<Slot>): (m: map<seq<byte>, seq<byte>>)
    ensures m.Keys == Names(slots)
  {
    map name | name in Names(slots) :: slots[Find(slots, name)].password
  }

  /** The names in slot order, which is what repeated user_store_get_username calls return. */
  function Listing(slots: seq<Slot>): seq<seq<byte>> {
    if slots == [] then []
    else (if slots[0].used then [slots[0].username] else []) + Listing(slots[1..])
  }

  lemma NamesSplit(slots: seq<Slot>, i: nat)
    requires i <= |slots|
    ensures Names(slots) == Names(slots[..i]) + Names(slots[i..])
  {
    forall name | name in Names(slots)
      ensures name in Names(slots[..i]) + Names(slots[i..])
    {
      var j :| 0 <= j < |slots| && slots[j].used && slots[j].username == name;
      if j < i {
        assert slots[..i][j] == slots[j];
      } else {
        assert slots[i..][j - i] == slots[j];
      }
    }
  }

  lemma NamesOne(slot: Slot)
    ensures Names([slot]) == if slot.used then {slot.username} else {}
  {
    if slot.used {
      assert [slot][0].username in Names([slot]);
    }
  }

  lemma NamesHead(slots: seq<Slot>)
    requires slots != [] && Unique(slots)
    ensures Unique(slots[1..])
    ensures Names(slots) == (if slots[0].used then {slots[0].username} else {}) + Names(slots[1..])
    ensures slots[0].used ==> slots[0].username !in Names(slots[1..])
  {
    var rest := slots[1..];
    assert forall i | 0 <= i < |rest| :: rest[i] == slots[i + 1];
    NamesSplit(slots, 1);
    assert slots[..1] == [slots[0]];
    NamesOne(slots[0]);
  }

  /** The listing names every user once. */
  lemma {:induction false} ListingComplete(slots: seq<Slot>)
    requires Unique(slots)
    ensures |Listing(slots)| == |Names(slots)|
    ensures forall name :: name in Listing(slots) <==> name in Names(slots)
  {
    if slots != [] {
      NamesHead(slots);
      hide Names, Unique;
      ListingComplete(slots[1..]);
    } else {
      assert Names(slots) == {};
    }
  }

  /** It is as long as the array exactly when no slot is free. */
  lemma {:induction false} ListingFull(slots: seq<Slot>)
    ensures |Listing(slots)| <= |slots|
    ensures |Listing(slots)| == |slots| <==> forall i | 0 <= i < |slots| :: slots[i].used
  {
    if slots != [] {
      var rest := slots[1..];
      ListingFull(rest);
      assert forall i | 0 <= i < |rest| :: rest[i] == slots[i + 1];
      if forall i | 0 <= i < |rest| :: rest[i].used {
        assert forall i | 1 <= i < |slots| :: slots[i] == rest[i - 1];
      }
    }
  }

  lemma ListingCount(slots: seq<Slot>)
    requires Unique(slots)
    ensures |Listing(slots)| == |AsMap(slots)|
  {
    ListingComplete(slots);
    assert |AsMap(slots)| == |AsMap(slots).Keys|;
  }

  lemma ListingNone(slots: seq<Slot>)
    requires slots == []
    ensures Listing(slots) == []
  {
  }

  lemma ListingStep(slots: seq<Slot>, all: seq<seq<byte>>, n: nat)
    requires slots != [] && n <= |all| && Listing(slots) == all[n..]
    ensures slots[0].used ==> n < |all| && all[n] == slots[0].username && Listing(slots[1..]) == all[n + 1..]
    ensures !slots[0].used ==> Listing(slots[1..]) == all[n..]
  {
    if slots[0].used {
      assert Listing(slots)[0] == all[n..][0] && Listing(slots)[1..] == all[n..][1..];
    }
  }

  lemma Lookup(slots: seq<Slot>, i: nat)
    requires Unique(slots) && i < |slots| && slots[i].used
    ensures Find(slots, slots[i].username) == i
    ensures slots[i].username in AsMap(slots) && AsMap(slots)[slots[i].username] == slots[i].password
  {
  }

  lemma LookupMap(slots: seq<Slot>, name: seq<byte>)
    ensures name in AsMap(slots) <==> Find(slots, name) < |slots|
    ensures name in AsMap(slots) ==> AsMap(slots)[name] == slots[Find(slots, name)].password
  {
  }

  /** Writing a new name into a free slot adds one binding. */
  lemma FillSlot(slots: seq<Slot>, i: nat, name: seq<byte>, password: seq<byte>)
    requires Unique(slots) && i < |slots| && !slots[i].used && name !in AsMap(slots)
    ensures Unique(slots[i := Slot(true, name, password)])
    ensures AsMap(slots[i := Slot(true, name, password)]) == AsMap(slots)[name := password]
  {
    var after := slots[i := Slot(true, name, password)];
    forall j | 0 <= j < |slots| && slots[j].used
      ensures slots[j].username != name
    {
      assert slots[j].username in Names(slots);
    }
    assert Unique(after);
    Lookup(after, i);
    hide AsMap, Unique;
    forall u | u != name
      ensures u in AsMap(after) <==> u in AsMap(slots)
      ensures u in AsMap(after) ==> AsMap(after)[u] == AsMap(slots)[u]
    {
      SameBinding(slots, after, i, u);
    }
  }

  /** A name that is not in the slot being rewritten, before or after, keeps its binding. */
  lemma SameBinding(slots: seq<Slot>, after: seq<Slot>, i: nat, u: seq<byte>)
    requires Unique(slots) && Unique(after) && i < |slots| == |after| && after == slots[i := after[i]]
    requires slots[i].used ==> slots[i].username != u
    requires after[i].used ==> after[i].username != u
    ensures u in AsMap(after) <==> u in AsMap(slots)
    ensures u in AsMap(after) ==> AsMap(after)[u] == AsMap(slots)[u]
  {
    LookupMap(after, u);
    LookupMap(slots, u);
    var j, k := Find(after, u), Find(slots, u);
    if k < |slots| {
      assert after[k] == slots[k];
      Lookup(after, k);
    }
    if j < |slots| {
      assert after[j] == slots[j];
      Lookup(slots, j);
    }
  }

  lemma Cleared(slots: seq<Slot>, i: nat)
    requires Unique(slots) && i < |slots| && slots[i].used
    ensures Unique(slots[i := FREE])
    ensures slots[i].username !in Names(slots[i := FREE])
  {
    var after := slots[i := FREE];
    forall j | 0 <= j < |after| && after[j].used
      ensures after[j].username != slots[i].username
    {
      assert after[j] == slots[j] && j != i;
    }
  }

  /** Clearing a used slot removes one binding. */
  lemma ClearSlot(slots: seq<Slot>, i: nat)
    requires Unique(slots) && i < |slots| && slots[i].used
    ensures Unique(slots[i := FREE])
    ensures AsMap(slots[i := FREE]) == AsMap(slots) - {slots[i].username}
  {
    var after := slots[i := FREE];
    Cleared(slots, i);
    var name := slots[i].username;
    forall u | u != name
      ensures u in AsMap(after) <==> u in AsMap(slots)
      ensures u in AsMap(after) ==> AsMap(after)[u] == AsMap(slots)[u]
    {
      SameBinding(slots, after, i, u);
    }
  }

  class UserStore {
    const users: array<Slot>

    ghost predicate Valid()
      reads this, users
    {
      && users.Length == MAX_USERS
      && Unique(users[..])
      && forall i | 0 <= i < users.Length && users[i].used :: ValidField(users[i].username) && ValidField(users[i].password)
    }

    ghost function View(): map<seq<byte>, seq<byte>>
      reads this, users
    {
      AsMap(users[..])
    }

    constructor ()
      ensures Valid() && fresh(users) && View() == map[]
    {
      users := new Slot[MAX_USERS](i => FREE);
      new;
      assert Names(users[..]) == {};
    }

    method FindUser(name: seq<byte>) returns (i: nat)
      requires Valid()
      ensures i == Find(users[..], name)
      ensures i < users.Length <==> name in View()
      ensures i < users.Length ==> users[i].used && users[i].username == name && View()[name] == users[i].password
    {
      i := 0;
      while i < users.Length
        invariant 0 <= i <= users.Length
        invariant forall j | 0 <= j < i :: !(users[j].used && users[j].username == name)
      {
        if users[i].used && users[i].username == name {
          break;
        }
        i := i + 1;
      }
      LookupMap(users[..], name);
    }

    method Validate(name: seq<byte>, password: seq<byte>) returns (ok: bool)
      requires Valid()
      ensures ok <==> name in View() && View()[name] == password
    {
      if !ValidField(name) || !ValidField(password) {
        LookupMap(users[..], name);
        return false;
      }
      var i := FindUser(name);
      ok := i < users.Length && users[i].password == password;
    }

    /** The loop in user_store_add that looks for a slot. */
    method FirstFree() returns (i: nat)
      ensures i <= users.Length
      ensures i < users.Length ==> !users[i].used
      ensures forall j | 0 <= j < i :: users[j].used
    {
      i := 0;
      while i < users.Length
        invariant 0 <= i <= users.Length
        invariant forall j | 0 <= j < i :: users[j].used
      {
        if !users[i].used {
          break;
        }
        i := i + 1;
      }
    }

    method Add(name: seq<byte>, password: seq<byte>) returns (ok: bool)
      requires Valid()
      modifies users
      ensures Valid()
      ensures ok <==> ValidField(name) && ValidField(password) && name !in old(View()) && |old(View())| < MAX_USERS
      ensures View() == if ok then old(View())[name := password] else old(View())
    {
      ListingCount(users[..]);
      ListingFull(users[..]);
      hide Names, Unique, AsMap, Find, Listing;
      if !ValidField(name) || !ValidField(password) {
        return false;
      }
      var found := FindUser(name);
      if found < users.Length {
        return false;
      }
      var i := FirstFree();
      if i < users.Length {
        FillSlot(users[..], i, name, password);
        users[i] := Slot(true, name, password);
        assert users[..] == old(users[..])[i := Slot(true, name, password)];
        return true;
      }
      return false;
    }

    method Remove(name: seq<byte>) returns (ok: bool)
      requires Valid()
      modifies users
      ensures Valid()
      ensures ok <==> name in old(View())
      ensures View() == old(View()) - {name}
    {
      if !ValidField(name) {
        LookupMap(users[..], name);
        assert View() - {name} == View();
        return false;
      }
      var i := FindUser(name);
      if i == users.Length {
        assert View() - {name} == View();
        return false;
      }
      hide Names, Unique, AsMap, Find;
      ClearSlot(users[..], i);
      users[i] := FREE;
      assert users[..] == old(users[..])[i := FREE];
      return true;
    }

    method Count() returns (count: nat)
      requires Valid()
      ensures count == |View()|
    {
      ListingCount(users[..]);
      hide Names, Unique, AsMap, Find;
      assert users[0..] == users[..];
      count := 0;
      var i := 0;
      while i < users.Length
        invariant 0 <= i <= users.Length
        invariant count + |Listing(users[i..])| == |Listing(users[..])|
      {
        assert users[i..][1..] == users[i + 1..];
        if users[i].used {
          count := count + 1;
        }
        i := i + 1;
      }
    }

    method GetUsername(index: nat) returns (name: Option<seq<byte>>)
      requires Valid()
      ensures name.Some? <==> index < |View()|
      ensures name == if index < |Listing(users[..])| then Some(Listing(users[..])[index]) else None
    {
      ghost var slots := users[..];
      ghost var all := Listing(slots);
      ListingCount(slots);
      assert slots[0..] == slots && all[0..] == all;
      hide Names, Unique, AsMap, Find, Listing;
      var current := 0;
      var i := 0;
      while i < users.Length
        invariant 0 <= i <= users.Length == |slots| && current <= index
        invariant current <= |all| && Listing(slots[i..]) == all[current..]
      {
        ListingStep(slots[i..], all, current);
        assert slots[i..][1..] == slots[i + 1..] && users[i] == slots[i];
        if users[i].used {
          if current == index {
            return Some(users[i].username);
          }
          current := current + 1;
        }
        i := i + 1;
      }
      ListingNone(slots[i..]);
      return None;
    }
  }
}
