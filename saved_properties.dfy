/** The saved-properties store: an insertion-ordered list of bookmarked
    listings, deduplicated by `Id`, mirrored into one browser storage slot. */
module SavedProperties {
  import opened Listings
  import opened Sequences

  /** `p.Id === id`, the test of `some`. */
  predicate HasIdOf(id: int, p: Listing) { p.Id == id }

  /** `s.some(p => p.Id === id)`. */
  function HasId(s: seq<Listing>, id: int): (b: bool)
    ensures b <==> exists k :: 0 <= k < |s| && s[k].Id == id
  {
    if s == [] then false
    else s[0].Id == id || HasId(s[1..], id)
  }

  /** No two entries share an identifier. */
  ghost predicate UniqueIds(s: seq<Listing>) {
    forall i, j :: 0 <= i < j < |s| ==> s[i].Id != s[j].Id
  }

  /** The updater of `addProperty`: unchanged if the id is present, else appended. */
  function Add(s: seq<Listing>, p: Listing): (r: seq<Listing>)
    ensures HasId(r, p.Id)
    ensures |s| <= |r| <= |s| + 1 && forall k :: 0 <= k < |s| ==> r[k] == s[k]
  {
    if HasId(s, p.Id) then s
    else
      var r := s + [p];
      assert r[|s|] == p;
      r
  }

  /** The updater of `removeProperty`: `filter(property => property.Id !== id)`. */
  function Remove(s: seq<Listing>, id: int): (r: seq<Listing>)
    ensures |r| <= |s|
    ensures forall k :: 0 <= k < |r| ==> r[k].Id != id
  {
    Filter(s, p => !HasIdOf(id, p))
  }

  // ---- properties of Add ----

  lemma AddExistingIsNoOp(s: seq<Listing>, p: Listing)
    requires exists k :: 0 <= k < |s| && s[k].Id == p.Id
    ensures Add(s, p) == s && |Add(s, p)| == |s|
  {
  }

  lemma AddFreshAppends(s: seq<Listing>, p: Listing)
    requires forall k :: 0 <= k < |s| ==> s[k].Id != p.Id
    ensures |Add(s, p)| == |s| + 1
    ensures Add(s, p)[..|s|] == s && Add(s, p)[|s|] == p
  {
  }

  lemma AddPreservesUniqueIds(s: seq<Listing>, p: Listing)
    requires UniqueIds(s)
    ensures UniqueIds(Add(s, p))
  {
  }

  lemma AddThenSaved(s: seq<Listing>, p: Listing)
    ensures HasId(Add(s, p), p.Id)
  {
    if !HasId(s, p.Id) {
      assert Add(s, p)[|s|] == p;
    }
  }

  // ---- properties of Remove ----

  /** Remove deletes exactly the entries carrying `id` and keeps the rest in order. */
  lemma RemoveExactly(s: seq<Listing>, id: int)
    ensures forall k :: 0 <= k < |Remove(s, id)| ==> Remove(s, id)[k].Id != id
    ensures forall k :: 0 <= k < |s| && s[k].Id != id ==> s[k] in Remove(s, id)
    ensures IsSubsequenceOf(Remove(s, id), s)
    ensures forall q :: multiset(Remove(s, id))[q] == if q.Id != id then multiset(s)[q] else 0
  {
    FilterComplete(s, p => !HasIdOf(id, p));
    FilterCount(s, p => !HasIdOf(id, p));
    FilterIsSubsequence(s, p => !HasIdOf(id, p));
  }

  lemma RemoveAbsentIsNoOp(s: seq<Listing>, id: int)
    requires forall k :: 0 <= k < |s| ==> s[k].Id != id
    ensures Remove(s, id) == s
  {
    FilterKeepsAll(s, p => !HasIdOf(id, p));
  }

  lemma RemoveThenNotSaved(s: seq<Listing>, id: int)
    ensures !HasId(Remove(s, id), id)
  {
  }

  lemma {:induction false} RemovePreservesUniqueIds(s: seq<Listing>, id: int)
    requires UniqueIds(s)
    ensures UniqueIds(Remove(s, id))
  {
    if s != [] {
      assert UniqueIds(s[1..]) by {
        forall i, j | 0 <= i < j < |s[1..]| ensures s[1..][i].Id != s[1..][j].Id {
          assert s[1..][i] == s[i + 1] && s[1..][j] == s[j + 1];
        }
      }
      RemovePreservesUniqueIds(s[1..], id);
      var rest := Remove(s[1..], id);
      if s[0].Id != id {
        assert Remove(s, id) == [s[0]] + rest;
        forall x | x in rest ensures x.Id != s[0].Id {
          assert x in s[1..];
          var k :| 0 <= k < |s[1..]| && s[1..][k] == x;
          assert s[k + 1] == x;
        }
      } else {
        assert Remove(s, id) == rest;
      }
    }
  }

  /** Remove of an identifier followed by remove of the same one changes nothing more. */
  lemma RemoveIdempotent(s: seq<Listing>, id: int)
    ensures Remove(Remove(s, id), id) == Remove(s, id)
  {
    FilterIdempotent(s, p => !HasIdOf(id, p));
  }

  /** Adding a fresh listing and then removing its id restores the list. */
  lemma AddThenRemoveRestores(s: seq<Listing>, p: Listing)
    requires forall k :: 0 <= k < |s| ==> s[k].Id != p.Id
    ensures Remove(Add(s, p), p.Id) == s
  {
    FilterAppend(s, [p], q => !HasIdOf(p.Id, q));
    RemoveAbsentIsNoOp(s, p.Id);
  }

  /** Adding never disturbs the entries with other identifiers. */
  lemma AddKeepsOthers(s: seq<Listing>, p: Listing)
    ensures Remove(Add(s, p), p.Id) == Remove(s, p.Id)
  {
    if !HasId(s, p.Id) {
      FilterAppend(s, [p], q => !HasIdOf(p.Id, q));
    }
  }

  // ---- the storage slot ----

  /** What `localStorage.getItem('savedProperties')` can hold: nothing, the
      empty string, the serialisation of a list, or text that does not parse. */
  datatype Slot = Absent | EmptyText | Serialized(items: seq<Listing>) | Corrupt

  /** What the load effect finds, and what it leaves in the slot. */
  datatype Loaded = Loaded(list: seq<Listing>, slot: Slot)

  /** The load effect: an absent or empty slot gives no list; a parse failure
      gives no list and removes the slot; otherwise the parsed list. */
  function Load(slot: Slot): (r: Loaded)
    ensures slot.Serialized? ==> r.list == slot.items && r.slot == slot
    ensures !slot.Serialized? ==> r.list == []
    ensures r.slot == if slot.Corrupt? then Absent else slot
  {
    match slot
    case Serialized(items) => Loaded(items, slot)
    case Corrupt => Loaded([], Absent)
    case _ => Loaded([], slot)
  }

  /** Reloading what the persist effect wrote gives back the same list. */
  lemma PersistThenLoadRoundTrip(s: seq<Listing>)
    ensures Load(Serialized(s)) == Loaded(s, Serialized(s))
  {
  }

  /** The provider's state: the list and the storage slot it mirrors to. */
  class SavedPropertiesStore {
    var saved: seq<Listing>
    var slot: Slot

    /** The slot holds the serialisation of the whole current list. */
    ghost predicate Synced()
      reads this
    {
      slot == Serialized(saved)
    }

    /** Initial render: the state starts empty; the slot is whatever storage holds. */
    constructor (stored: Slot)
      ensures saved == [] && slot == stored
    {
      saved := [];
      slot := stored;
    }

    /** The load effect, run once on mount; it sets the state only when the
        slot parses. */
    method LoadEffect()
      modifies this
      ensures saved == if old(slot).Serialized? then Load(old(slot)).list else old(saved)
      ensures slot == Load(old(slot)).slot
    {
      match slot
      case Serialized(items) =>
        saved := items;
      case Corrupt =>
        slot := Absent;
      case _ =>
    }

    /** The persist effect: write the whole list to the slot. */
    method Persist()
      modifies this
      ensures saved == old(saved) && Synced()
    {
      slot := Serialized(saved);
    }

    /** `addProperty`. When the id is already present the updater returns the
        same array, so the state does not change and the persist effect does
        not run; otherwise the list grows and is persisted. */
    method AddProperty(p: Listing)
      modifies this
      ensures saved == Add(old(saved), p)
      ensures slot == if HasId(old(saved), p.Id) then old(slot) else Serialized(saved)
      ensures old(Synced()) ==> Synced()
      ensures UniqueIds(old(saved)) ==> UniqueIds(saved)
    {
      if HasId(saved, p.Id) {
        return;
      }
      saved := saved + [p];
      Persist();
    }

    /** `removeProperty`: `filter` always builds a new array, so it always persists. */
    method RemoveProperty(id: int)
      modifies this
      ensures saved == Remove(old(saved), id) && Synced()
      ensures UniqueIds(old(saved)) ==> UniqueIds(saved)
    {
      if UniqueIds(saved) {
        RemovePreservesUniqueIds(saved, id);
      }
      saved := Remove(saved, id);
      Persist();
    }

    /** `isPropertySaved`. */
    function IsPropertySaved(id: int): (b: bool)
      reads this
      ensures b <==> exists k :: 0 <= k < |saved| && saved[k].Id == id
    {
      HasId(saved, id)
    }
  }

  /** Mounting the provider: the load effect runs, then the persist effect
      writes the state out, so the slot is in sync from then on. */
  method Mount(stored: Slot) returns (store: SavedPropertiesStore)
    ensures fresh(store)
    ensures store.saved == Load(stored).list && store.Synced()
    ensures stored.Corrupt? || stored.Absent? || stored.EmptyText? ==> store.saved == [] && store.slot == Serialized([])
  {
    store := new SavedPropertiesStore(stored);
    store.LoadEffect();
    store.Persist();
  }
}
