/**
 Pending previews of every user and space, from apps/api/src/pending-previews.ts. Entries live in one
 map per owner and, all together, in one shared set that bounds their number. An entry removes itself
 through the map it was put in, so maps have an identity of their own (`boxes`) here.
 */
module PendingPreviews {
  import opened Options

  const MAX_PENDING := 256

  /** One owner in one of the preview stores. */
  datatype Slot = Slot(store: int, owner: string)

  datatype Place = Place(slot: Slot, id: string)

  datatype Item = Item(value: int, expires: int)

  datatype Pending = Pending(place: Place, item: Item, box: int)

  datatype Tables = Tables(
    pending: set<int>, entries: map<int, Pending>, boxes: map<int, map<string, int>>, owners: map<Slot, int>, next: int)

  // ---- What the tables always satisfy ----

  /** A pending entry is found through its owner, in the map it was put in. */
  predicate Linked(t: Tables, e: int) {
    && e in t.entries && e < t.next
    && t.entries[e].place.slot in t.owners
    && t.owners[t.entries[e].place.slot] == t.entries[e].box
    && t.entries[e].box in t.boxes
    && t.entries[e].place.id in t.boxes[t.entries[e].box]
    && t.boxes[t.entries[e].box][t.entries[e].place.id] == e
  }

  /** An owner's map is not empty, is its own, and holds nothing but its pending entries. */
  predicate OwnerKept(t: Tables, slot: Slot)
    requires slot in t.owners
  {
    && t.owners[slot] in t.boxes && t.owners[slot] < t.next
    && t.boxes[t.owners[slot]] != map[]
    && (forall id | id in t.boxes[t.owners[slot]] ::
          var e := t.boxes[t.owners[slot]][id];
          e in t.pending && e in t.entries && t.entries[e].place == Place(slot, id))
  }

  predicate Apart(owners: map<Slot, int>) {
    forall a, b | a in owners && b in owners && owners[a] == owners[b] :: a == b
  }

  predicate Consistent(t: Tables) {
    && (forall e | e in t.pending :: Linked(t, e))
    && (forall slot | slot in t.owners :: OwnerKept(t, slot))
    && Apart(t.owners)
  }

  predicate Valid(t: Tables) { Consistent(t) && |t.pending| <= MAX_PENDING }

  /** What callers see: every pending preview under its owner and id. */
  function View(t: Tables): map<Place, Item>
    requires Consistent(t)
  {
    map e | e in t.pending :: t.entries[e].place := t.entries[e].item
  }

  function Find(t: Tables, place: Place): Option<int>
    requires Consistent(t)
  {
    if place.slot in t.owners && place.id in t.boxes[t.owners[place.slot]]
    then Some(t.boxes[t.owners[place.slot]][place.id]) else None
  }

  lemma ViewAt(t: Tables, place: Place)
    requires Consistent(t)
    ensures place in View(t) <==> Find(t, place).Some?
    ensures Find(t, place).Some? ==>
              var e := Find(t, place).value;
              e in t.pending && t.entries[e].place == place && View(t)[place] == t.entries[e].item
  {
    if Find(t, place).Some? {
      assert OwnerKept(t, place.slot);
    }
    if place in View(t) {
      var e :| e in t.pending && t.entries[e].place == place;
      assert Linked(t, e);
    }
  }

  lemma FindPending(t: Tables, e: int)
    requires Consistent(t) && e in t.pending
    ensures e in t.entries && Find(t, t.entries[e].place) == Some(e)
  {
    assert Linked(t, e);
  }

  /** The shared set is the disjoint union of the owners' entries. */
  lemma DisjointUnion(t: Tables)
    requires Consistent(t)
    ensures forall e | e in t.pending :: e in t.entries && Find(t, t.entries[e].place) == Some(e)
    ensures forall place | Find(t, place).Some? :: Find(t, place).value in t.pending
    ensures |View(t)| == |t.pending|
  {
    hide View, Consistent, Find;
    forall e | e in t.pending ensures e in t.entries && Find(t, t.entries[e].place) == Some(e) { FindPending(t, e); }
    forall place | Find(t, place).Some? ensures Find(t, place).value in t.pending { ViewAt(t, place); }
    SameSize(t, t.pending, View(t).Keys) by {
      forall p: Place ensures p in View(t) <==> exists e | e in t.pending :: e in t.entries && t.entries[e].place == p {
        ViewAt(t, p);
      }
    }
  }

  lemma {:induction false} SameSize(t: Tables, from: set<int>, to: set<Place>)
    requires Consistent(t) && from <= t.pending
    requires forall p: Place :: p in to <==> exists e | e in from :: e in t.entries && t.entries[e].place == p
    ensures |to| == |from|
  {
    hide Consistent, View, Find;
    if from == {} {
      assert to == {};
    } else {
      assert (forall e :: e !in from) ==> from == {};
      var e :| e in from;
      FindPending(t, e);
      var p := t.entries[e].place;
      assert p in to;
      forall q: Place ensures q in to - {p} <==> exists a | a in from - {e} :: a in t.entries && t.entries[a].place == q {
        forall a | a in from && a in t.entries && t.entries[a].place == p ensures a == e {
          FindPending(t, a);
        }
      }
      SameSize(t, from - {e}, to - {p});
    }
  }

  // ---- Removing and adding one entry ----

  function Remove(t: Tables, e: int): Tables
    requires Consistent(t) && e in t.pending
  {
    assert Linked(t, e);
    var it := t.entries[e];
    var box := t.boxes[it.box] - {it.place.id};
    t.(pending := t.pending - {e}, boxes := t.boxes[it.box := box],
       owners := if box == map[] then t.owners - {it.place.slot} else t.owners)
  }

  function Add(t: Tables, place: Place, item: Item): Tables
    requires Consistent(t)
  {
    assert place.slot in t.owners ==> OwnerKept(t, place.slot);
    var e := t.next;
    var id := if place.slot in t.owners then t.owners[place.slot] else t.next;
    var box := if place.slot in t.owners then t.boxes[id] else map[];
    t.(pending := t.pending + {e}, entries := t.entries[e := Pending(place, item, id)],
       boxes := t.boxes[id := box[place.id := e]], owners := t.owners[place.slot := id], next := t.next + 1)
  }

  lemma RemoveConsistent(t: Tables, e: int)
    requires Consistent(t) && e in t.pending
    ensures Linked(t, e) && Consistent(Remove(t, e))
  {
    assert Linked(t, e);
    var it := t.entries[e];
    var n := Remove(t, e);
    assert OwnerKept(t, it.place.slot);
    forall a | a in n.pending ensures Linked(n, a) {
      assert Linked(t, a);
      if t.entries[a].box == it.box {
        assert t.entries[a].place.slot == it.place.slot;
        assert t.entries[a].place.id != it.place.id;
        assert t.entries[a].place.id in t.boxes[it.box] - {it.place.id};
      }
    }
    forall slot | slot in n.owners ensures OwnerKept(n, slot) {
      assert OwnerKept(t, slot);
    }
  }

  lemma FindRemoved(t: Tables, e: int, p: Place)
    requires Consistent(t) && e in t.pending && Linked(t, e) && Consistent(Remove(t, e))
    ensures Find(Remove(t, e), p) == if p == t.entries[e].place then None else Find(t, p)
  {
    if p.slot in t.owners && t.owners[p.slot] == t.entries[e].box {
      assert p.slot == t.entries[e].place.slot;
      var box := t.boxes[t.entries[e].box];
      assert p.id in box && p != t.entries[e].place ==> p.id in box - {t.entries[e].place.id};
    }
  }

  lemma RemoveView(t: Tables, e: int)
    requires Consistent(t) && e in t.pending && Linked(t, e) && Consistent(Remove(t, e))
    ensures View(Remove(t, e)) == View(t) - {t.entries[e].place}
  {
    hide View, Consistent, Find, Linked;
    FindPending(t, e);
    var n := Remove(t, e);
    forall p: Place
      ensures p in View(n) <==> p in View(t) && p != t.entries[e].place
      ensures p in View(n) ==> View(n)[p] == View(t)[p]
    {
      FindRemoved(t, e, p);
      ViewAt(n, p);
      ViewAt(t, p);
    }
  }

  lemma AddLinked(t: Tables, place: Place, item: Item, a: int)
    requires Consistent(t) && Find(t, place).None? && a in Add(t, place, item).pending
    ensures Linked(Add(t, place, item), a)
  {
    assert place.slot in t.owners ==> OwnerKept(t, place.slot);
    if a in t.pending {
      FindPending(t, a);
      assert Linked(t, a);
      assert OwnerKept(t, t.entries[a].place.slot);
    }
  }

  lemma AddOwner(t: Tables, place: Place, item: Item, slot: Slot)
    requires Consistent(t) && Find(t, place).None? && slot in Add(t, place, item).owners
    requires forall e | e in t.pending :: e < t.next
    ensures OwnerKept(Add(t, place, item), slot)
  {
    var n := Add(t, place, item);
    assert slot in t.owners ==> OwnerKept(t, slot);
    if slot == place.slot {
      assert place.id in n.boxes[n.owners[slot]];
    } else {
      assert n.boxes[n.owners[slot]] == t.boxes[t.owners[slot]];
    }
  }

  lemma AddConsistent(t: Tables, place: Place, item: Item)
    requires Consistent(t) && Find(t, place).None?
    ensures Consistent(Add(t, place, item))
  {
    hide Find, Linked, OwnerKept;
    var n := Add(t, place, item);
    forall a | a in n.pending ensures Linked(n, a) { AddLinked(t, place, item, a); }
    forall e | e in t.pending ensures e < t.next { PendingBound(t, e); }
    forall slot | slot in n.owners ensures OwnerKept(n, slot) { AddOwner(t, place, item, slot); }
    forall a | a in t.owners ensures t.owners[a] < t.next { BoxBound(t, a); }
  }

  lemma PendingBound(t: Tables, e: int)
    requires Linked(t, e)
    ensures e < t.next
  {
  }

  lemma BoxBound(t: Tables, slot: Slot)
    requires slot in t.owners && OwnerKept(t, slot)
    ensures t.owners[slot] < t.next
  {
  }

  lemma FindAdded(t: Tables, place: Place, item: Item, p: Place)
    requires Consistent(t) && Find(t, place).None? && Consistent(Add(t, place, item))
    ensures Find(Add(t, place, item), p) == if p == place then Some(t.next) else Find(t, p)
  {
    hide Linked;
    if p.slot in t.owners {
      assert OwnerKept(t, p.slot);
    }
  }

  lemma AddView(t: Tables, place: Place, item: Item)
    requires Consistent(t) && Find(t, place).None? && Consistent(Add(t, place, item))
    ensures View(Add(t, place, item)) == View(t)[place := item]
  {
    hide View, Consistent, Find, Linked;
    var n := Add(t, place, item);
    forall p: Place
      ensures p in View(n) <==> p in View(t) || p == place
      ensures p in View(n) ==> View(n)[p] == View(t)[place := item][p]
    {
      FindAdded(t, place, item, p);
      ViewAt(n, p);
      ViewAt(t, p);
      if p != place && p in View(t) { PendingBound(t, Find(t, p).value) by { LinkedOf(t, Find(t, p).value); } }
    }
  }

  lemma LinkedOf(t: Tables, e: int)
    requires Consistent(t) && e in t.pending
    ensures Linked(t, e)
  {
  }

  // ---- The operations ----

  /** What is left once everything due by `now` is gone. */
  function Live(view: map<Place, Item>, now: int): map<Place, Item> {
    map p | p in view && view[p].expires > now :: view[p]
  }

  lemma RemoveValid(t: Tables, e: int)
    requires Consistent(t) && e in t.pending
    ensures Consistent(Remove(t, e)) && e in t.entries
    ensures View(Remove(t, e)) == View(t) - {t.entries[e].place}
  {
    RemoveConsistent(t, e);
    RemoveView(t, e);
  }

  /** Removing the entries one by one in order of expiry. */
  lemma LiveStep(t: Tables, e: int, view: map<Place, Item>, now: int)
    requires Consistent(t) && e in t.pending && t.entries[e].item.expires <= now
    requires Live(View(t), now) == Live(view, now)
    ensures Consistent(Remove(t, e)) && Live(View(Remove(t, e)), now) == Live(view, now)
  {
    hide View, Consistent, Remove;
    RemoveValid(t, e);
    ViewOf(t, e);
    assert Live(View(t) - {t.entries[e].place}, now) == Live(View(t), now);
  }

  lemma ViewOf(t: Tables, e: int)
    requires Consistent(t) && e in t.pending
    ensures e in t.entries && t.entries[e].place in View(t) && View(t)[t.entries[e].place] == t.entries[e].item
  {
    hide View, Consistent, Find;
    FindPending(t, e);
    ViewAt(t, t.entries[e].place);
  }

  lemma AllLive(t: Tables, view: map<Place, Item>, now: int)
    requires Consistent(t) && Live(View(t), now) == Live(view, now)
    requires forall e | e in t.pending :: e in t.entries && t.entries[e].item.expires > now
    ensures View(t) == Live(view, now)
  {
    hide View, Consistent, Find;
    forall p | p in View(t) ensures View(t)[p].expires > now { ViewAt(t, p); }
    assert View(t) == Live(View(t), now);
  }

  class Previews {
    var pending: set<int>
    var entries: map<int, Pending>
    var boxes: map<int, map<string, int>>
    var owners: map<Slot, int>
    var next: int

    function Now(): Tables reads this { Tables(pending, entries, boxes, owners, next) }

    ghost predicate Kept() reads this { Valid(Now()) }

    ghost function Shown(): map<Place, Item>
      requires Kept()
      reads this
    {
      View(Now())
    }

    constructor ()
      ensures Kept() && Shown() == map[]
    {
      pending, entries, boxes, owners, next := {}, map[], map[], map[], 0;
    }

    /** An entry's own `remove`. */
    method RemoveEntry(e: int)
      requires Consistent(Now()) && e in pending
      modifies this
      ensures Now() == Remove(old(Now()), e) && Consistent(Now())
      ensures e in old(entries) && View(Now()) == old(View(Now())) - {old(entries)[e].place}
      ensures pending == old(pending) - {e} && entries == old(entries) && |pending| == |old(pending)| - 1
    {
      hide View, Consistent;
      ghost var was := Now();
      RemoveValid(was, e);
      RemovePending(was, e);
      LinkedOf(was, e);
      var it := entries[e];
      pending := pending - {e};
      boxes := boxes[it.box := boxes[it.box] - {it.place.id}];
      if boxes[it.box] == map[] { owners := owners - {it.place.slot}; }
    }

    /** The soonest of some pending entries. */
    method Soonest(left: set<int>) returns (e: int)
      requires left != {} && forall a | a in left :: a in entries
      ensures e in left && forall a | a in left :: entries[e].item.expires <= entries[a].item.expires
    {
      NonEmpty(left);
      e :| e in left;
      var rest := left - {e};
      while rest != {}
        invariant e in left && rest <= left
        invariant forall a | a in left && a !in rest :: entries[e].item.expires <= entries[a].item.expires
        decreases |rest|
      {
        NonEmpty(rest);
        var a :| a in rest;
        rest := rest - {a};
        if entries[a].item.expires < entries[e].item.expires { e := a; }
      }
    }

    /** Removes entries in the order they expire and stops at the first that has not. */
    method Expire(now: int)
      requires Kept()
      modifies this
      ensures Kept() && Shown() == Live(old(Shown()), now)
      ensures pending <= old(pending)
    {
      hide View, Consistent, Remove;
      ghost var view, start, all := Shown(), pending, entries;
      EntriesOf(Now());
      var left := pending;
      while left != {}
        invariant Consistent(Now()) && left == pending && pending <= start && entries == all
        invariant Live(View(Now()), now) == Live(view, now)
        decreases |left|
      {
        EntriesOf(Now());
        var e := Soonest(left);
        if entries[e].item.expires > now { break; }
        LiveStep(Now(), e, view, now);
        RemoveEntry(e);
        left := left - {e};
      }
      EntriesOf(Now());
      AllLive(Now(), view, now);
      SmallerSet(pending, start);
    }

    method Size(slot: Slot) returns (n: nat)
      requires Kept()
      ensures n == |set p | p in Shown() && p.slot == slot|
    {
      SizeOf(Now(), slot);
      n := if slot in owners then (BoxOf(Now(), slot); |boxes[owners[slot]]|) else 0;
    }

    method Get(place: Place) returns (r: Option<Item>)
      requires Kept()
      ensures r == if place in Shown() then Some(Shown()[place]) else None
    {
      ViewAt(Now(), place);
      var e := Find(Now(), place);
      r := if e.Some? then Some(entries[e.value].item) else None;
    }

    method Set(now: int, place: Place, item: Item) returns (ok: bool)
      requires Kept()
      modifies this
      ensures Kept()
      ensures ok <==> place in Live(old(Shown()), now) || |Live(old(Shown()), now)| < MAX_PENDING
      ensures Shown() == if ok then Live(old(Shown()), now)[place := item] else Live(old(Shown()), now)
    {
      hide View, Consistent, Remove, Add, Find;
      Expire(now);
      ghost var live := Shown();
      DisjointUnion(Now());
      ViewAt(Now(), place);
      var prior := Find(Now(), place);
      if prior.None? && |pending| >= MAX_PENDING { return false; }
      if prior.Some? { RemoveEntry(prior.value); }
      ViewAt(Now(), place);
      AddEntry(place, item);
      assert Shown() == live[place := item];
      ok := true;
    }

    method AddEntry(place: Place, item: Item)
      requires Consistent(Now()) && Find(Now(), place).None?
      modifies this
      ensures Now() == Add(old(Now()), place, item) && Consistent(Now())
      ensures View(Now()) == old(View(Now()))[place := item] && |pending| <= |old(pending)| + 1
    {
      hide View, Consistent, Find;
      ghost var was := Now();
      AddConsistent(was, place, item);
      AddView(was, place, item);
      AddPending(was, place, item);
      var id, box := next, map[];
      if place.slot in owners {
        BoxOf(was, place.slot);
        id := owners[place.slot];
        box := boxes[id];
      }
      entries := entries[next := Pending(place, item, id)];
      boxes := boxes[id := box[place.id := next]];
      owners := owners[place.slot := id];
      pending := pending + {next};
      next := next + 1;
    }

    method Delete(place: Place) returns (found: bool)
      requires Kept()
      modifies this
      ensures Kept() && found == (place in old(Shown())) && Shown() == old(Shown()) - {place}
    {
      hide View, Consistent, Remove, Find;
      ViewAt(Now(), place);
      var e := Find(Now(), place);
      if e.Some? { RemoveEntry(e.value); }
      found := e.Some?;
    }
  }

  lemma NonEmpty(ids: set<int>)
    requires ids != {}
    ensures exists id :: id in ids
  {
    assert (forall id :: id !in ids) ==> ids == {};
  }

  lemma EntriesOf(t: Tables)
    requires Consistent(t)
    ensures forall e | e in t.pending :: e in t.entries
  {
    forall e | e in t.pending ensures e in t.entries { assert Linked(t, e); }
  }

  lemma RemovePending(t: Tables, e: int)
    requires Consistent(t) && e in t.pending
    ensures Remove(t, e).pending == t.pending - {e} && Remove(t, e).entries == t.entries
    ensures |Remove(t, e).pending| == |t.pending| - 1
  {
  }

  lemma AddPending(t: Tables, place: Place, item: Item)
    requires Consistent(t)
    ensures |Add(t, place, item).pending| <= |t.pending| + 1
  {
  }

  lemma {:induction false} SmallerSet(a: set<int>, b: set<int>)
    requires a <= b
    ensures |a| <= |b|
  {
    assert b == a + (b - a);
  }

  lemma SizeOf(t: Tables, slot: Slot)
    requires Consistent(t)
    ensures |set p | p in View(t) && p.slot == slot| == if slot in t.owners then |t.boxes[t.owners[slot]]| else 0
  {
    hide View, Consistent;
    var places := set p | p in View(t) && p.slot == slot;
    var ids := if slot in t.owners then (BoxOf(t, slot); t.boxes[t.owners[slot]].Keys) else {};
    forall id: string ensures Place(slot, id) in View(t) <==> id in ids { ViewAt(t, Place(slot, id)); }
    SamePlaces(slot, places, ids);
  }

  lemma BoxOf(t: Tables, slot: Slot)
    requires Consistent(t) && slot in t.owners
    ensures t.owners[slot] in t.boxes
  {
    assert OwnerKept(t, slot);
  }

  lemma {:induction false} SamePlaces(slot: Slot, places: set<Place>, ids: set<string>)
    requires forall p | p in places :: p.slot == slot
    requires forall id: string :: Place(slot, id) in places <==> id in ids
    ensures |places| == |ids|
  {
    if ids == {} {
      assert forall p | p in places :: p.id in ids;
      assert places == {};
    } else {
      var id :| id in ids;
      SamePlaces(slot, places - {Place(slot, id)}, ids - {id});
    }
  }
}
