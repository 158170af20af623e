/** The persistent store of the bootstrap script (`Storage`, page.js:114-177).

    localStorage is a table from slot key to the object that slot's JSON text
    parses to; the script only uses the slot "app".  The object is split into a
    global partition and a local partition keyed by the page's route path.  As
    written, the script READS the global partition from the key "_global" but
    WRITES it to the key "global"; this model keeps that. */
module Storage {
  import opened Wrappers
  import opened JsValues

  /** The only localStorage slot the script uses. */
  const SLOT := "app"
  /** The key `load` and the storage listener read the global partition from. */
  const GLOBAL_READ_KEY := "_global"
  /** The key `store` writes the global partition to. */
  const GLOBAL_WRITE_KEY := "global"

  /** The value `load` returns and `store` takes: `{ global, local }`. */
  datatype Stored = Stored(global: Json, local: Json)

  /** A Web Storage area (localStorage, or another area such as sessionStorage):
      slot key to parsed object.  JSON text encoding is abstracted away. */
  class StorageArea {
    var items: map<string, Object>

    constructor ()
      ensures items == map[]
    {
      items := map[];
    }
  }

  /** `JSON.parse(localStorage.getItem(key))`: `getItem` gives null for an
      absent slot, and `JSON.parse(null)` is null. */
  function AllStorage(items: map<string, Object>): (v: Json)
    ensures v.Null? <==> SLOT !in items
    ensures !v.Null? ==> v.Obj? && v.fields == items[SLOT]
  {
    if SLOT in items then Obj(items[SLOT]) else Null
  }

  /** `toValue`: null projects to `{null, null}`; anything else is read as an
      object, `_global` and the route path giving the two partitions. */
  function ToValue(value: Json, currentPath: string): (r: Stored)
    requires !value.Undefined?
    ensures value.Null? ==> r == Stored(Null, Null)
    ensures value.Obj? ==>
      r == Stored(Get(value.fields, GLOBAL_READ_KEY), Get(value.fields, currentPath))
    ensures value.Str? ==> r == Stored(Undefined, Prop(value, currentPath))
  {
    if value.Null? then Stored(Null, Null)
    else Stored(Prop(value, GLOBAL_READ_KEY), Prop(value, currentPath))
  }

  /** What `load()` returns for a storage table and a route path: nothing stored
      gives `{null, null}`; otherwise the two keys of the stored object, where a
      missing key gives undefined, not null. */
  function Loaded(items: map<string, Object>, currentPath: string): (r: Stored)
    ensures SLOT !in items ==> r == Stored(Null, Null)
    ensures SLOT in items ==>
      r == Stored(Get(items[SLOT], GLOBAL_READ_KEY), Get(items[SLOT], currentPath))
    ensures SLOT in items && GLOBAL_READ_KEY !in items[SLOT] ==> r.global == Undefined
    ensures SLOT in items && currentPath !in items[SLOT] ==> r.local == Undefined
  {
    ToValue(AllStorage(items), currentPath)
  }

  /** The object `update` writes back: the slot's object with "global" and the
      route path overwritten in that order and every other key kept. */
  ghost predicate MergedWrite(before: Object, after: Object, currentPath: string, value: Json)
    requires !value.Undefined? && !value.Null?
  {
    && after.Keys == before.Keys + {GLOBAL_WRITE_KEY, currentPath}
    && after[currentPath] == Prop(value, "local")
    && after[GLOBAL_WRITE_KEY] ==
         (if currentPath == GLOBAL_WRITE_KEY then Prop(value, "local") else Prop(value, "global"))
    && (forall k :: k in before && k != GLOBAL_WRITE_KEY && k != currentPath ==> after[k] == before[k])
  }

  /** The storage table after `update(value)`, or None when `update` throws.
      A null value removes the slot.  Otherwise the slot is read back and
      merged into; an absent slot parses to null and `null.global = ...` throws
      a TypeError, as does reading `undefined.global`; a throw writes nothing. */
  function Updated(items: map<string, Object>, currentPath: string, value: Json)
    : (r: Option<map<string, Object>>)
    ensures value.Null? ==> r == Some(items - {SLOT})
    ensures !value.Null? ==> (r.None? <==> SLOT !in items || value.Undefined?)
    ensures r.Some? && !value.Null? ==>
      && r.value.Keys == items.Keys
      && (forall s :: s in items && s != SLOT ==> r.value[s] == items[s])
      && MergedWrite(items[SLOT], r.value[SLOT], currentPath, value)
  {
    if value.Null? then Some(items - {SLOT})
    else if SLOT !in items || value.Undefined? then None
    else
      var all := items[SLOT][GLOBAL_WRITE_KEY := Prop(value, "global")];
      Some(items[SLOT := all[currentPath := Prop(value, "local")]])
  }

  /** A `storage` event as the browser delivers it: the area that changed, the
      key (null when the whole area was cleared) and the new raw text (null when
      the key was removed). */
  datatype StorageEvent = StorageEvent(storageArea: StorageArea, key: Option<string>, newValue: Option<string>)

  /** The `Storage` closure of one page: its route path and the localStorage
      area it works on. */
  class PageStorage {
    const currentPath: string
    const area: StorageArea

    constructor (currentPath: string, area: StorageArea)
      ensures this.currentPath == currentPath && this.area == area
    {
      this.currentPath := currentPath;
      this.area := area;
    }

    /** `load()`. */
    method Load() returns (r: Stored)
      ensures r == Loaded(area.items, currentPath)
    {
      var all := AllStorage(area.items);
      r := ToValue(all, currentPath);
    }

    /** `store(value)`, that is `update(value)`: `threw` is true when the call
        ends in a TypeError, and then localStorage is unchanged. */
    method Store(value: Json) returns (threw: bool)
      modifies area
      ensures threw <==> Updated(old(area.items), currentPath, value).None?
      ensures area.items ==
        if threw then old(area.items) else Updated(old(area.items), currentPath, value).value
    {
      if value.Null? {
        area.items := area.items - {SLOT};
        threw := false;
      } else {
        var all := AllStorage(area.items);
        if all.Null? || value.Undefined? {
          threw := true;
          return;
        }
        var obj := all.fields;
        obj := obj[GLOBAL_WRITE_KEY := Prop(value, "global")];
        obj := obj[currentPath := Prop(value, "local")];
        area.items := area.items[SLOT := obj];
        threw := false;
      }
    }

    /** The filter of the listener `addChangedListener` installs: the callback
        runs only for a change of this page's localStorage at the slot "app",
        and gets `toValue(event.newValue)` -- the raw text, not parsed. */
    function OnStorageEvent(ev: StorageEvent): (r: Option<Stored>)
      ensures r.Some? <==> ev.storageArea == area && ev.key == Some(SLOT)
      ensures r.Some? && ev.newValue.None? ==> r.value == Stored(Null, Null)
      ensures r.Some? && ev.newValue.Some? ==> r.value.global == Undefined
      ensures r.Some? && ev.newValue.Some? ==>
        (r.value.local == Undefined <==>
           currentPath != "length"
           && !(IsIndexKey(currentPath) && DecimalValue(currentPath) < |ev.newValue.value|))
      ensures r.Some? && ev.newValue.Some? ==>
        r.value.local == Prop(Str(ev.newValue.value), currentPath)
    {
      if ev.storageArea == area && ev.key == Some(SLOT) then
        Some(ToValue(if ev.newValue.Some? then Str(ev.newValue.value) else Null, currentPath))
      else None
    }

    /** For an ordinary route path the listener hands on `{undefined, undefined}`
        whatever text the other tab stored: the new content never arrives. */
    lemma ListenerIgnoresNewContent(ev1: StorageEvent, ev2: StorageEvent)
      requires currentPath != "length" && !IsIndexKey(currentPath)
      requires OnStorageEvent(ev1).Some? && ev1.newValue.Some?
      requires OnStorageEvent(ev2).Some? && ev2.newValue.Some?
      ensures OnStorageEvent(ev1) == OnStorageEvent(ev2) == Some(Stored(Undefined, Undefined))
    {
    }
  }

  /** `store(null)` deletes the slot, after which `load()` gives `{null, null}`. */
  lemma StoreNullClears(items: map<string, Object>, currentPath: string)
    ensures Updated(items, currentPath, Null) == Some(items - {SLOT})
    ensures Loaded(items - {SLOT}, currentPath) == Stored(Null, Null)
  {
  }

  /** A non-null `store` throws exactly when nothing is stored yet. */
  lemma StoreWithoutSlotThrows(items: map<string, Object>, currentPath: string, value: Json)
    requires !value.Null? && !value.Undefined?
    ensures Updated(items, currentPath, value).None? <==> SLOT !in items
  {
  }

  /** After a successful non-null `store(v)`, `load()` on the same route gives
      back `v.local`; its global part is still the old "_global" entry, not
      `v.global` (unless the route path is itself "_global"). */
  lemma LoadAfterStore(items: map<string, Object>, currentPath: string, value: Json)
    requires SLOT in items && !value.Null? && !value.Undefined?
    ensures Updated(items, currentPath, value).Some?
    ensures Loaded(Updated(items, currentPath, value).value, currentPath).local == Prop(value, "local")
    ensures Loaded(Updated(items, currentPath, value).value, currentPath).global ==
      if currentPath == GLOBAL_READ_KEY then Prop(value, "local")
      else Get(items[SLOT], GLOBAL_READ_KEY)
  {
  }

  /** A store on one route leaves what `load()` gives on another route alone,
      unless that other route is "global", the key the store writes the global
      partition to, or the store's route is "_global". */
  lemma StoreKeepsOtherRoutes(items: map<string, Object>, path: string, other: string, value: Json)
    requires Updated(items, path, value).Some? && !value.Null?
    requires other != path && other != GLOBAL_WRITE_KEY && path != GLOBAL_READ_KEY
    ensures Loaded(Updated(items, path, value).value, other) == Loaded(items, other)
  {
  }

  /** The local partition alone survives a store on any other route, the
      route "_global" included: a store writes only "global" and its own
      route. */
  lemma StoreKeepsOtherLocal(items: map<string, Object>, path: string, other: string, value: Json)
    requires Updated(items, path, value).Some? && !value.Null?
    requires other != path && other != GLOBAL_WRITE_KEY
    ensures Loaded(Updated(items, path, value).value, other).local == Loaded(items, other).local
  {
  }

  /** Two stores from two routes: each route's local partition is afterwards
      recoverable by `load()` on that route. */
  lemma RoutesIndependent(items: map<string, Object>, p1: string, v1: Json, p2: string, v2: Json)
    requires SLOT in items
    requires !v1.Null? && !v1.Undefined? && !v2.Null? && !v2.Undefined?
    requires p1 != p2 && p1 != GLOBAL_WRITE_KEY && p2 != GLOBAL_WRITE_KEY
    ensures Updated(items, p1, v1).Some?
    ensures Updated(Updated(items, p1, v1).value, p2, v2).Some?
    ensures Loaded(Updated(Updated(items, p1, v1).value, p2, v2).value, p1).local == Prop(v1, "local")
    ensures Loaded(Updated(Updated(items, p1, v1).value, p2, v2).value, p2).local == Prop(v2, "local")
  {
    var mid := Updated(items, p1, v1).value;
    LoadAfterStore(items, p1, v1);
    StoreKeepsOtherLocal(mid, p2, p1, v2);
    LoadAfterStore(mid, p2, v2);
  }

  /** The table after storing each (route path, value) of `stores` in turn;
      None once one of the stores throws. */
  function StoreAll(items: map<string, Object>, stores: seq<(string, Json)>): Option<map<string, Object>>
    decreases |stores|
  {
    if |stores| == 0 then Some(items)
    else
      match Updated(items, stores[0].0, stores[0].1)
      case None => None
      case Some(next) => StoreAll(next, stores[1..])
  }

  /** Every store is of a defined, non-null value on a route path other than
      "global", the key every store writes the global partition to. */
  ghost predicate OrdinaryStores(stores: seq<(string, Json)>) {
    forall i :: 0 <= i < |stores| ==>
      && stores[i].0 != GLOBAL_WRITE_KEY
      && !stores[i].1.Null? && !stores[i].1.Undefined?
  }

  /** Stores on other routes leave the local partition `load()` gives on a
      route alone, and the whole of what it gives when none of them is on the
      route "_global". */
  lemma {:induction false} StoreAllKeeps(items: map<string, Object>, stores: seq<(string, Json)>, other: string)
    requires SLOT in items && OrdinaryStores(stores)
    requires other != GLOBAL_WRITE_KEY
    requires forall i :: 0 <= i < |stores| ==> stores[i].0 != other
    ensures StoreAll(items, stores).Some?
    ensures SLOT in StoreAll(items, stores).value
    ensures Loaded(StoreAll(items, stores).value, other).local == Loaded(items, other).local
    ensures (forall i :: 0 <= i < |stores| ==> stores[i].0 != GLOBAL_READ_KEY) ==>
      Loaded(StoreAll(items, stores).value, other) == Loaded(items, other)
    decreases |stores|
  {
    if |stores| > 0 {
      var next := Updated(items, stores[0].0, stores[0].1).value;
      StoreKeepsOtherLocal(items, stores[0].0, other, stores[0].1);
      if stores[0].0 != GLOBAL_READ_KEY {
        StoreKeepsOtherRoutes(items, stores[0].0, other, stores[0].1);
      }
      assert OrdinaryStores(stores[1..]) by {
        forall i | 0 <= i < |stores[1..]| ensures stores[1..][i] == stores[i + 1] { }
      }
      StoreAllKeeps(next, stores[1..], other);
    }
  }

  /** After any sequence of stores on distinct route paths other than
      "global" into an existing slot, each route's local partition is recovered by `load()` on
      that route. */
  lemma {:induction false} StoreAllRoutesIndependent(items: map<string, Object>, stores: seq<(string, Json)>)
    requires SLOT in items && OrdinaryStores(stores)
    requires forall i, j :: 0 <= i < j < |stores| ==> stores[i].0 != stores[j].0
    ensures StoreAll(items, stores).Some?
    ensures forall i :: 0 <= i < |stores| ==>
      Loaded(StoreAll(items, stores).value, stores[i].0).local == Prop(stores[i].1, "local")
    decreases |stores|
  {
    if |stores| > 0 {
      var (p, v) := stores[0];
      var next := Updated(items, p, v).value;
      var rest := stores[1..];
      LoadAfterStore(items, p, v);
      assert OrdinaryStores(rest) by {
        forall i | 0 <= i < |rest| ensures rest[i] == stores[i + 1] { }
      }
      assert forall i :: 0 <= i < |rest| ==> rest[i].0 != p by {
        forall i | 0 <= i < |rest| ensures rest[i].0 != p {
          assert rest[i] == stores[i + 1];
        }
      }
      StoreAllKeeps(next, rest, p);
      assert forall i, j :: 0 <= i < j < |rest| ==> rest[i].0 != rest[j].0 by {
        forall i, j | 0 <= i < j < |rest| ensures rest[i].0 != rest[j].0 {
          assert rest[i] == stores[i + 1] && rest[j] == stores[j + 1];
        }
      }
      StoreAllRoutesIndependent(next, rest);
      forall i | 0 <= i < |stores|
        ensures Loaded(StoreAll(items, stores).value, stores[i].0).local == Prop(stores[i].1, "local")
      {
        if i > 0 {
          assert stores[i] == rest[i - 1];
        }
      }
    }
  }

  /** The global partition does not round-trip: storing `{global: 1, local: 2}`
      on an empty stored object and loading again gives global undefined. */
  lemma GlobalNotRoundTripped()
    ensures
      var v := Obj(map["global" := Num(1), "local" := Num(2)]);
      var after := Updated(map[SLOT := map[]], "reports/sales", v);
      && after.Some?
      && Loaded(after.value, "reports/sales") == Stored(Undefined, Num(2))
  {
  }

  /** Loading from the blob `{"_global":{"theme":"dark"},"reports/sales":{"page":2}}`
      on the route "reports/sales". */
  lemma ScenarioLoad()
    ensures
      var blob := map["_global" := Obj(map["theme" := Str("dark")]),
                      "reports/sales" := Obj(map["page" := Num(2)])];
      Loaded(map[SLOT := blob], "reports/sales")
        == Stored(Obj(map["theme" := Str("dark")]), Obj(map["page" := Num(2)]))
  {
  }

  /** Storing `{global:{"theme":"dark"}, local:{"page":3}}` into that blob keeps
      "_global", replaces the route's entry and adds a "global" key. */
  lemma ScenarioStore()
    ensures
      var dark := Obj(map["theme" := Str("dark")]);
      var blob := map["_global" := dark, "reports/sales" := Obj(map["page" := Num(2)])];
      var value := Obj(map["global" := dark, "local" := Obj(map["page" := Num(3)])]);
      Updated(map[SLOT := blob], "reports/sales", value)
        == Some(map[SLOT := map["_global" := dark, "reports/sales" := Obj(map["page" := Num(3)]),
                                "global" := dark]])
  {
    var dark := Obj(map["theme" := Str("dark")]);
    var blob := map["_global" := dark, "reports/sales" := Obj(map["page" := Num(2)])];
    var value := Obj(map["global" := dark, "local" := Obj(map["page" := Num(3)])]);
    var expected := map["_global" := dark, "reports/sales" := Obj(map["page" := Num(3)]), "global" := dark];
    var written := Updated(map[SLOT := blob], "reports/sales", value).value[SLOT];
    assert written.Keys == expected.Keys;
    assert forall k | k in expected :: written[k] == expected[k];
    assert written == expected;
    assert map[SLOT := blob][SLOT := written] == map[SLOT := expected];
  }
}
