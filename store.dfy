/**
 * The server-side object store: one module-level array of records, scanned
 * linearly. Lookups by the REST layer go through `byId()`, which keeps the
 * LAST record of each id, while `update` and `remove` act on the FIRST one;
 * the two agree only while ids are unique, and the store never checks that.
 */
module ObjectStore {
  import opened FsTypes

  /** The ids present in the array. */
  function Ids(objs: seq<FsObject>): set<string>
  {
    set i | 0 <= i < |objs| :: objs[i].id
  }

  /** No two records share an id. */
  predicate UniqueIds(objs: seq<FsObject>)
  {
    forall i, j :: 0 <= i < j < |objs| ==> objs[i].id != objs[j].id
  }

  /** `byId()`: a left fold of the array into a map, so a later record
      overwrites an earlier one with the same id. */
  function ById(objs: seq<FsObject>): (m: map<string, FsObject>)
    ensures m.Keys == Ids(objs)
    ensures forall k :: k in m ==> m[k].id == k
  {
    if objs == [] then map[]
    else
      var n := |objs| - 1;
      var m := ById(objs[..n])[objs[n].id := objs[n]];
      assert Ids(objs) == Ids(objs[..n]) + {objs[n].id} by {
        forall k | k in Ids(objs) ensures k in Ids(objs[..n]) + {objs[n].id} {
          var i :| 0 <= i < |objs| && objs[i].id == k;
          if i < n { assert objs[..n][i].id == k; }
        }
        forall k | k in Ids(objs[..n]) ensures k in Ids(objs) {
          var i :| 0 <= i < n && objs[..n][i].id == k;
          assert objs[i].id == k;
        }
      }
      m
  }

  /** The lookup behind `fetchObject`: `byId()[id]`, or `undefined` when no
      record has the id. The test double resolves with exactly this; the
      GET route does the same lookup but answers a miss with `{}` and 404. */
  function Fetch(objs: seq<FsObject>, id: string): (r: Option<FsObject>)
    ensures r.Some? ==> r.value.id == id
  {
    var m := ById(objs);
    if id in m then Some(m[id]) else None
  }

  /** `objects.findIndex((o) => o.id === id)`: the first position holding
      `id`, or -1. */
  function FirstIndex(objs: seq<FsObject>, id: string): (i: int)
    ensures -1 <= i < |objs|
    ensures 0 <= i ==> objs[i].id == id && forall j :: 0 <= j < i ==> objs[j].id != id
    ensures i < 0 ==> forall j :: 0 <= j < |objs| ==> objs[j].id != id
  {
    if objs == [] then -1
    else if objs[0].id == id then 0
    else
      var i := FirstIndex(objs[1..], id);
      if i < 0 then -1 else i + 1
  }

  /** The last position holding `id`, or -1: the record `byId()` keeps. */
  function LastIndex(objs: seq<FsObject>, id: string): (i: int)
    ensures -1 <= i < |objs|
    ensures 0 <= i ==> objs[i].id == id && forall j :: i < j < |objs| ==> objs[j].id != id
    ensures i < 0 ==> forall j :: 0 <= j < |objs| ==> objs[j].id != id
  {
    if objs == [] then -1
    else
      var n := |objs| - 1;
      if objs[n].id == id then n else LastIndex(objs[..n], id)
  }

  /** The record `create(props)` stores: a falsy (here: empty) id is
      replaced by the freshly generated one. */
  function Stored(props: FsObject, freshId: string): (r: FsObject)
    ensures r.name == props.name && r.body == props.body
    ensures r.id == (if props.id != "" then props.id else freshId)
    ensures freshId != "" ==> r.id != ""
  {
    props.(id := if props.id != "" then props.id else freshId)
  }

  /** The array after `update(props)`. */
  function Replaced(objs: seq<FsObject>, props: FsObject): (r: seq<FsObject>)
    ensures |r| == |objs|
    ensures FirstIndex(objs, props.id) < 0 ==> r == objs
    ensures 0 <= FirstIndex(objs, props.id) ==> r[FirstIndex(objs, props.id)] == props
  {
    var i := FirstIndex(objs, props.id);
    if i < 0 then objs else objs[i := props]
  }

  /** The array after `remove(id)`. */
  function Removed(objs: seq<FsObject>, id: string): (r: seq<FsObject>)
    ensures FirstIndex(objs, id) < 0 ==> r == objs
    ensures 0 <= FirstIndex(objs, id) ==> |r| == |objs| - 1
  {
    var i := FirstIndex(objs, id);
    if i < 0 then objs else objs[..i] + objs[i + 1..]
  }

  /** An index meeting the description of `LastIndex` is `LastIndex`. */
  lemma LastIndexIs(objs: seq<FsObject>, id: string, i: int)
    requires -1 <= i < |objs|
    requires 0 <= i ==> objs[i].id == id && forall j :: i < j < |objs| ==> objs[j].id != id
    requires i < 0 ==> forall j :: 0 <= j < |objs| ==> objs[j].id != id
    ensures LastIndex(objs, id) == i
  {
  }

  /** An index meeting the description of `FirstIndex` is `FirstIndex`. */
  lemma FirstIndexIs(objs: seq<FsObject>, id: string, i: int)
    requires -1 <= i < |objs|
    requires 0 <= i ==> objs[i].id == id && forall j :: 0 <= j < i ==> objs[j].id != id
    requires i < 0 ==> forall j :: 0 <= j < |objs| ==> objs[j].id != id
    ensures FirstIndex(objs, id) == i
  {
  }

  /** `byId()[k]` is the last record whose id is `k`, and is missing exactly
      when no record has id `k`. */
  lemma {:induction false} FetchIsLast(objs: seq<FsObject>, k: string)
    ensures var l := LastIndex(objs, k);
            Fetch(objs, k) == if l < 0 then None else Some(objs[l])
  {
    if objs != [] {
      var n := |objs| - 1;
      var prefix := objs[..n];
      FetchIsLast(prefix, k);
      if objs[n].id != k {
        assert ById(objs) == ById(prefix)[objs[n].id := objs[n]];
        assert Fetch(objs, k) == Fetch(prefix, k);
        var l := LastIndex(prefix, k);
        assert LastIndex(objs, k) == l;
        if 0 <= l {
          assert objs[l] == prefix[l];
        }
      }
    }
  }

  /** A fetched record carries the id it was fetched by and is stored. */
  lemma FetchSound(objs: seq<FsObject>, k: string)
    ensures Fetch(objs, k).Some? <==> k in Ids(objs)
    ensures Fetch(objs, k).Some? ==> Fetch(objs, k).value.id == k && Fetch(objs, k).value in objs
  {
    FetchIsLast(objs, k);
  }

  /** With unique ids, every stored record is what its id resolves to. */
  lemma FetchUnique(objs: seq<FsObject>, i: int)
    requires UniqueIds(objs) && 0 <= i < |objs|
    ensures Fetch(objs, objs[i].id) == Some(objs[i])
  {
    FetchIsLast(objs, objs[i].id);
    LastIndexIs(objs, objs[i].id, i);
  }

  /** With unique ids, the first and the last position of an id coincide. */
  lemma UniqueFirstIsLast(objs: seq<FsObject>, k: string)
    requires UniqueIds(objs)
    ensures FirstIndex(objs, k) == LastIndex(objs, k)
  {
  }

  /** Store round trip: after `create` appends a record, `byId()` maps its
      id to that record, and every other id to what it mapped before. */
  lemma FetchAfterCreate(objs: seq<FsObject>, obj: FsObject, k: string)
    ensures Fetch(objs + [obj], k) == if k == obj.id then Some(obj) else Fetch(objs, k)
  {
    assert (objs + [obj])[..|objs|] == objs;
  }

  /** Two arrays with the same ids at the same positions have the same last
      positions. */
  lemma SameIdsSameLast(a: seq<FsObject>, b: seq<FsObject>, k: string)
    requires |a| == |b|
    requires forall j :: 0 <= j < |a| ==> a[j].id == b[j].id
    ensures LastIndex(a, k) == LastIndex(b, k)
  {
    LastIndexIs(b, k, LastIndex(a, k));
  }

  /** After `update(props)`, every other id resolves as before; `props.id`
      resolves to `props` exactly when it occurred once, and otherwise (a
      later duplicate shadows the replaced record, or it was absent) as
      before. */
  lemma FetchAfterUpdate(objs: seq<FsObject>, props: FsObject, k: string)
    ensures var f := FirstIndex(objs, props.id);
            Fetch(Replaced(objs, props), k) ==
              if k == props.id && 0 <= f && f == LastIndex(objs, k) then Some(props)
              else Fetch(objs, k)
  {
    var f := FirstIndex(objs, props.id);
    var r := Replaced(objs, props);
    if 0 <= f {
      SameIdsSameLast(objs, r, k);
      FetchIsLast(objs, k);
      FetchIsLast(r, k);
    }
  }

  /** Splicing out position `i` shifts every later record down by one. */
  lemma SplicedAt(objs: seq<FsObject>, i: int)
    requires 0 <= i < |objs|
    ensures var r := objs[..i] + objs[i + 1..];
            && |r| == |objs| - 1
            && (forall j :: 0 <= j < i ==> r[j] == objs[j])
            && (forall j :: i <= j < |r| ==> r[j] == objs[j + 1])
  {
    var r := objs[..i] + objs[i + 1..];
    forall j | 0 <= j < |r| ensures r[j] == (if j < i then objs[j] else objs[j + 1]) {
      if j < i { assert r[j] == objs[..i][j]; } else { assert r[j] == objs[i + 1..][j - i]; }
    }
  }

  /** The last position of `k` once the record at `i` is spliced out, when
      that record is not itself the last `k`. */
  lemma LastIndexAfterSplice(objs: seq<FsObject>, i: int, k: string)
    requires 0 <= i < |objs|
    requires LastIndex(objs, k) != i
    ensures var l := LastIndex(objs, k);
            LastIndex(objs[..i] + objs[i + 1..], k) == if l < i then l else l - 1
  {
    SplicedAt(objs, i);
    LastIndexShifted(objs, objs[..i] + objs[i + 1..], i, k);
  }

  /** `LastIndexAfterSplice` for any array `r` that is `objs` with position
      `i` dropped. */
  lemma LastIndexShifted(objs: seq<FsObject>, r: seq<FsObject>, i: int, k: string)
    requires 0 <= i < |objs| && |r| == |objs| - 1
    requires forall j :: 0 <= j < i ==> r[j] == objs[j]
    requires forall j :: i <= j < |r| ==> r[j] == objs[j + 1]
    requires LastIndex(objs, k) != i
    ensures var l := LastIndex(objs, k);
            LastIndex(r, k) == if l < i then l else l - 1
  {
    var l := LastIndex(objs, k);
    var m := if l < i then l else l - 1;
    if l < 0 {
      forall j | 0 <= j < |r| ensures r[j].id != k {
        if j < i { assert r[j] == objs[j]; } else { assert r[j] == objs[j + 1]; }
      }
      LastIndexIs(r, k, -1);
    } else {
      assert r[m] == objs[l];
      forall j | m < j < |r| ensures r[j].id != k {
        if j < i { assert r[j] == objs[j]; } else { assert r[j] == objs[j + 1]; }
      }
      LastIndexIs(r, k, m);
    }
  }

  /** After `remove(id)`, every other id resolves as before; `id` itself no
      longer resolves when it occurred at most once, and otherwise still
      resolves to its last duplicate. */
  lemma FetchAfterRemove(objs: seq<FsObject>, id: string, k: string)
    ensures var f := FirstIndex(objs, id);
            Fetch(Removed(objs, id), k) ==
              if k == id && f == LastIndex(objs, k) then None else Fetch(objs, k)
  {
    var f := FirstIndex(objs, id);
    var r := Removed(objs, id);
    FetchIsLast(objs, k);
    FetchIsLast(r, k);
    if 0 <= f {
      assert r == objs[..f] + objs[f + 1..];
      if LastIndex(objs, k) == f {
        RemovedLastGone(objs, f, k);
      } else {
        LastIndexAfterSplice(objs, f, k);
      }
    }
  }

  /** Splicing out the first and last record with id `k` leaves none. */
  lemma RemovedLastGone(objs: seq<FsObject>, f: int, k: string)
    requires 0 <= f < |objs|
    requires FirstIndex(objs, k) == f && LastIndex(objs, k) == f
    ensures LastIndex(objs[..f] + objs[f + 1..], k) == -1
  {
    SplicedAt(objs, f);
    NoneLeft(objs, objs[..f] + objs[f + 1..], f, k);
  }

  /** Dropping the only record with id `k` from `objs` leaves none in `r`. */
  lemma NoneLeft(objs: seq<FsObject>, r: seq<FsObject>, f: int, k: string)
    requires 0 <= f < |objs| && |r| == |objs| - 1
    requires forall j :: 0 <= j < f ==> r[j] == objs[j]
    requires forall j :: f <= j < |r| ==> r[j] == objs[j + 1]
    requires FirstIndex(objs, k) == f && LastIndex(objs, k) == f
    ensures LastIndex(r, k) == -1
  {
    forall j | 0 <= j < |r| ensures r[j].id != k {
      if j < f { assert r[j] == objs[j]; } else { assert r[j] == objs[j + 1]; }
    }
    LastIndexIs(r, k, -1);
  }

  /** Updating keeps the ids where they were, so it keeps them unique. */
  lemma UniqueAfterUpdate(objs: seq<FsObject>, props: FsObject)
    requires UniqueIds(objs)
    ensures UniqueIds(Replaced(objs, props))
  {
    var r := Replaced(objs, props);
    assert forall j :: 0 <= j < |objs| ==> r[j].id == objs[j].id;
  }

  /** Updating a stored record keeps the set of ids. */
  lemma IdsAfterUpdate(objs: seq<FsObject>, props: FsObject)
    requires props.id in Ids(objs)
    ensures Ids(Replaced(objs, props)) == Ids(objs)
  {
    var r := Replaced(objs, props);
    forall j | 0 <= j < |objs| ensures r[j].id == objs[j].id { }
    forall c | c in Ids(objs) ensures c in Ids(r) {
      var j :| 0 <= j < |objs| && objs[j].id == c;
      assert r[j].id == c;
    }
  }

  /** Updating a present record in a store with unique ids: the record
      resolves to its new value, other ids as before, the id set and
      uniqueness are kept. */
  lemma UpdateUniqueFetch(o: seq<FsObject>, props: FsObject, k: string)
    requires UniqueIds(o) && props.id in Ids(o)
    ensures var r := Replaced(o, props);
            && Fetch(r, props.id) == Some(props)
            && (k != props.id ==> Fetch(r, k) == Fetch(o, k))
            && Ids(r) == Ids(o)
            && UniqueIds(r)
  {
    var r := Replaced(o, props);
    UniqueFirstIsLast(o, props.id);
    FetchAfterUpdate(o, props, props.id);
    FetchAfterUpdate(o, props, k);
    UniqueAfterUpdate(o, props);
    IdsAfterUpdate(o, props);
  }

  /** Removing a record keeps the remaining ids unique. */
  lemma UniqueAfterRemove(objs: seq<FsObject>, id: string)
    requires UniqueIds(objs)
    ensures UniqueIds(Removed(objs, id))
  {
    var f := FirstIndex(objs, id);
    if 0 <= f {
      var r := Removed(objs, id);
      assert forall j :: 0 <= j < |r| ==> r[j] == (if j < f then objs[j] else objs[j + 1]);
    }
  }

  /** Creating a record keeps ids unique exactly when its id is new. */
  lemma UniqueAfterCreate(objs: seq<FsObject>, obj: FsObject)
    requires UniqueIds(objs)
    ensures UniqueIds(objs + [obj]) <==> obj.id !in Ids(objs)
  {
    var r := objs + [obj];
    if obj.id in Ids(objs) {
      var i :| 0 <= i < |objs| && objs[i].id == obj.id;
      assert r[i].id == r[|objs|].id;
    }
  }

  /** The module-level `objects` array of `store.js`. */
  class Store {
    var objects: seq<FsObject>

    /** `const objects = [...initialObjects]`: the seed is a parameter. */
    constructor (initial: seq<FsObject>)
      ensures objects == initial
    {
      objects := initial;
    }

    /** The `findIndex` scan shared by `update` and `remove`. */
    method IndexOf(id: string) returns (i: int)
      ensures i == FirstIndex(objects, id)
      ensures i < 0 <==> id !in Ids(objects)
    {
      i := 0;
      while i < |objects| && objects[i].id != id
        invariant 0 <= i <= |objects|
        invariant forall j :: 0 <= j < i ==> objects[j].id != id
      {
        i := i + 1;
      }
      if i == |objects| {
        i := -1;
      }
    }

    /** `create(props)`: append `props`, with a fresh id when it has none,
        and return the stored record. */
    method Create(props: FsObject, freshId: string) returns (obj: FsObject)
      requires freshId != ""
      modifies this
      ensures obj.id != "" && (props.id != "" ==> obj.id == props.id)
      ensures obj == Stored(props, freshId)
      ensures objects == old(objects) + [obj]
      ensures Fetch(objects, obj.id) == Some(obj)
    {
      obj := Stored(props, freshId);
      objects := objects + [obj];
      FetchAfterCreate(old(objects), obj, obj.id);
    }

    /** `update(props)`: replace the first record with `props.id` wholesale
        and return `props`; return the `{}` sentinel (`None`) when there is
        none. */
    method Update(props: FsObject) returns (r: Option<FsObject>)
      modifies this
      ensures r == None <==> props.id !in Ids(old(objects))
      ensures r == None ==> objects == old(objects)
      ensures r != None ==> r == Some(props)
      ensures objects == Replaced(old(objects), props)
      ensures |objects| == |old(objects)|
      ensures forall j :: 0 <= j < |objects| && j != FirstIndex(old(objects), props.id) ==>
                objects[j] == old(objects)[j]
    {
      var i := IndexOf(props.id);
      if i == -1 {
        return None;
      }
      objects := objects[i := props];
      r := Some(props);
    }

    /** `remove(id)`: splice out the first record with `id` and return it;
        return the `{}` sentinel (`None`) when there is none. */
    method Remove(id: string) returns (r: Option<FsObject>)
      modifies this
      ensures r == None <==> id !in Ids(old(objects))
      ensures r == None ==> objects == old(objects)
      ensures r != None ==> r.value.id == id && |objects| == |old(objects)| - 1
      ensures r != None ==> var i := FirstIndex(old(objects), id);
                r.value == old(objects)[i] && objects == old(objects)[..i] + old(objects)[i + 1..]
      ensures objects == Removed(old(objects), id)
    {
      var i := IndexOf(id);
      if i == -1 {
        return None;
      }
      r := Some(objects[i]);
      objects := objects[..i] + objects[i + 1..];
    }
  }
}
