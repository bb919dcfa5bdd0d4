/**
 * The client-side filesystem operations. Each one fetches records from the
 * object store, checks them, and writes whole records back; a folder lists
 * its children by id, and the id of a created object is its name.
 *
 * A fetch of an id the store does not hold yields `undefined` (`None`).
 * Promise chains are sequential, so each operation is a sequence of reads
 * and writes on one store. A rejection settles the operation's promise,
 * but `return reject(...)` does not stop the chain: later steps still run,
 * and their store writes still happen, so the effects below include them.
 */
module FileSystem {
  import opened FsTypes
  import opened ObjectStore

  /** `Promise.all(ids.map(fetchObject))`. */
  function FetchAll(objs: seq<FsObject>, ids: seq<string>): (r: seq<Option<FsObject>>)
    ensures |r| == |ids|
  {
    seq(|ids|, i requires 0 <= i < |ids| => Fetch(objs, ids[i]))
  }

  /** Every entry before position `n` is a record not named `name`. */
  predicate NoMatchBefore(xs: seq<Option<FsObject>>, name: string, n: int)
    requires 0 <= n <= |xs|
  {
    forall j :: 0 <= j < n ==> xs[j].Some? && xs[j].value.name != name
  }

  /** The outcome of `children.find((child) => child.name === name)`. */
  datatype Search = Found(obj: FsObject) | Absent | Broken

  /** `find` stops at the first child with the name; reading `.name` of a
      missing child (`undefined`) before that throws, reported as `Broken`. */
  function FindByName(xs: seq<Option<FsObject>>, name: string): (r: Search)
    ensures r.Found? ==> r.obj.name == name
    ensures r.Found? ==> exists i :: 0 <= i < |xs| && xs[i] == Some(r.obj) && NoMatchBefore(xs, name, i)
    ensures r.Absent? <==> NoMatchBefore(xs, name, |xs|)
    ensures r.Broken? ==> exists i :: 0 <= i < |xs| && xs[i] == None && NoMatchBefore(xs, name, i)
  {
    if xs == [] then Absent
    else if xs[0].None? then
      assert NoMatchBefore(xs, name, 0);
      Broken
    else if xs[0].value.name == name then
      assert NoMatchBefore(xs, name, 0);
      Found(xs[0].value)
    else
      var r := FindByName(xs[1..], name);
      assert forall n :: 0 <= n <= |xs| - 1 && NoMatchBefore(xs[1..], name, n) ==> NoMatchBefore(xs, name, n + 1);
      assert r.Absent? ==> NoMatchBefore(xs, name, |xs|);
      assert r.Found? ==> exists i :: 1 <= i < |xs| && xs[i] == Some(r.obj) && NoMatchBefore(xs, name, i) by {
        if r.Found? {
          var i :| 0 <= i < |xs| - 1 && xs[1..][i] == Some(r.obj) && NoMatchBefore(xs[1..], name, i);
          assert xs[i + 1] == Some(r.obj);
        }
      }
      assert r.Broken? ==> exists i :: 1 <= i < |xs| && xs[i] == None && NoMatchBefore(xs, name, i) by {
        if r.Broken? {
          var i :| 0 <= i < |xs| - 1 && xs[1..][i] == None && NoMatchBefore(xs[1..], name, i);
          assert xs[i + 1] == None;
        }
      }
      r
  }

  /** A child found among fetched children is the stored record of its id. */
  lemma FoundIsStored(objs: seq<FsObject>, ids: seq<string>, name: string)
    requires FindByName(FetchAll(objs, ids), name).Found?
    ensures var c := FindByName(FetchAll(objs, ids), name).obj;
            Fetch(objs, c.id) == Some(c) && c.id in ids
  {
    var xs := FetchAll(objs, ids);
    var c := FindByName(xs, name).obj;
    var i :| 0 <= i < |xs| && xs[i] == Some(c) && NoMatchBefore(xs, name, i);
    FetchSound(objs, ids[i]);
  }

  // ---------------------------------------------------------------------
  // moveTo

  /** One step of the `moveTo` chain, from the object reached so far to its
      child named `segment`. The guard `rootId.type === 'file'` reads a
      field of a string and is always false, so only a missing current
      object raises `INVALID_OPERATION`; a file has no `children` to map. */
  function Step(objs: seq<FsObject>, acc: Result<Option<FsObject>>, segment: string): (r: Result<Option<FsObject>>)
    ensures r.Ok? && r.value.Some? ==>
              Fetch(objs, r.value.value.id) == r.value && r.value.value.name == segment
  {
    match acc
    case Err(e) => Err(e)
    case Ok(None) => Err(INVALID_OPERATION)
    case Ok(Some(parent)) =>
      if !parent.IsFolder() then Err(TYPE_ERROR)
      else
        var xs := FetchAll(objs, parent.body.children);
        match FindByName(xs, segment)
        case Broken => Err(TYPE_ERROR)
        case Absent => Ok(None)
        case Found(child) =>
          FoundIsStored(objs, parent.body.children, segment);
          Ok(Some(child))
  }

  /** `moveTo({rootId, path})`: `chain` folds the steps over the path from
      the left, starting from the fetched root. `Ok(None)` is a chain that
      resolved with `undefined`. */
  function MoveTo(objs: seq<FsObject>, rootId: string, path: seq<string>): (r: Result<Option<FsObject>>)
    ensures r.Ok? && r.value.Some? ==> Fetch(objs, r.value.value.id) == r.value
    ensures path != [] && r.Ok? && r.value.Some? ==> r.value.value.name == path[|path| - 1]
    decreases |path|
  {
    if path == [] then
      FetchSound(objs, rootId);
      Ok(Fetch(objs, rootId))
    else
      var n := |path| - 1;
      Step(objs, MoveTo(objs, rootId, path[..n]), path[n])
  }

  /** An empty path resolves to the root record itself, unchanged. */
  lemma MoveToEmpty(objs: seq<FsObject>, rootId: string)
    ensures MoveTo(objs, rootId, []) == Ok(Fetch(objs, rootId))
    ensures Fetch(objs, rootId).Some? ==> Fetch(objs, rootId).value.id == rootId
  {
    FetchSound(objs, rootId);
  }

  /** A one-segment path from a folder whose children are all stored
      resolves to the first child, in `children` order, with that name, or
      to `undefined` when no child has it. */
  lemma MoveToOneSegment(objs: seq<FsObject>, rootId: string, s: string)
    requires Fetch(objs, rootId).Some? && Fetch(objs, rootId).value.IsFolder()
    requires forall c :: c in Fetch(objs, rootId).value.body.children ==> c in Ids(objs)
    ensures var kids := Fetch(objs, rootId).value.body.children;
            var r := MoveTo(objs, rootId, [s]);
            && r.Ok?
            && (r.value.None? <==> forall i :: 0 <= i < |kids| ==> Fetch(objs, kids[i]).value.name != s)
            && (r.value.Some? ==> r.value.value.name == s)
            && (r.value.Some? ==>
                  exists i :: 0 <= i < |kids| && Fetch(objs, kids[i]) == r.value &&
                    forall j :: 0 <= j < i ==> Fetch(objs, kids[j]).value.name != s)
  {
    var kids := Fetch(objs, rootId).value.body.children;
    var xs := FetchAll(objs, kids);
    forall i | 0 <= i < |kids| ensures xs[i].Some? && xs[i] == Fetch(objs, kids[i]) {
      FetchSound(objs, kids[i]);
    }
    assert [s][..0] == [];
    assert MoveTo(objs, rootId, [s]) == Step(objs, Ok(Fetch(objs, rootId)), s);
    var f := FindByName(xs, s);
    assert f.Absent? <==> forall i :: 0 <= i < |kids| ==> Fetch(objs, kids[i]).value.name != s;
  }

  /** A rejected chain stays rejected with the same reason. */
  lemma {:induction false} MoveToErrorSticks(objs: seq<FsObject>, rootId: string, p: seq<string>, q: seq<string>)
    requires MoveTo(objs, rootId, p).Err?
    ensures MoveTo(objs, rootId, p + q) == MoveTo(objs, rootId, p)
    decreases |q|
  {
    if q != [] {
      var n := |q| - 1;
      assert (p + q)[..|p + q| - 1] == p + q[..n];
      MoveToErrorSticks(objs, rootId, p, q[..n]);
    } else {
      assert p + q == p;
    }
  }

  /** A segment that matched no child is not an error by itself; the next
      segment rejects with `INVALID_OPERATION`. */
  lemma MoveToAbsentThenFails(objs: seq<FsObject>, rootId: string, p: seq<string>, q: seq<string>)
    requires MoveTo(objs, rootId, p) == Ok(None)
    requires q != []
    ensures MoveTo(objs, rootId, p + q) == Err(INVALID_OPERATION)
  {
    var p1 := p + [q[0]];
    assert p1[..|p1| - 1] == p;
    assert p + q == p1 + q[1..];
    MoveToErrorSticks(objs, rootId, p1, q[1..]);
  }

  /** Resolving `p + q` from the root is resolving `q` from whatever `p`
      reached: path resolution composes. */
  lemma {:induction false} MoveToCompose(objs: seq<FsObject>, rootId: string, p: seq<string>, q: seq<string>)
    requires MoveTo(objs, rootId, p).Ok? && MoveTo(objs, rootId, p).value.Some?
    ensures MoveTo(objs, rootId, p + q) == MoveTo(objs, MoveTo(objs, rootId, p).value.value.id, q)
    decreases |q|
  {
    if q == [] {
      assert p + q == p;
    } else {
      var n := |q| - 1;
      assert (p + q)[..|p + q| - 1] == p + q[..n];
      MoveToCompose(objs, rootId, p, q[..n]);
    }
  }

  /** A missing root makes every non-empty path reject with
      `INVALID_OPERATION`. */
  lemma MoveToMissingRoot(objs: seq<FsObject>, rootId: string, path: seq<string>)
    requires Fetch(objs, rootId).None?
    requires path != []
    ensures MoveTo(objs, rootId, path) == Err(INVALID_OPERATION)
  {
    assert [] + path == path;
    MoveToAbsentThenFails(objs, rootId, [], path);
  }

  // ---------------------------------------------------------------------
  // Store effects of the mutating operations

  /** What an operation settles with, and the store array it leaves. */
  datatype Outcome<T> = Outcome(result: Result<T>, objects: seq<FsObject>)

  /** `{folder, parent}`: the created record and the updated parent. */
  datatype Created = Created(folder: FsObject, parent: FsObject)

  /** `{deletedObject, parent}`: what the store removed (`None` is the `{}`
      sentinel) and the updated parent. */
  datatype Deleted = Deleted(deletedObject: Option<FsObject>, parent: FsObject)

  /** `{object, oldParent, newParent}`: the moved id (`object`) and both parents. */
  datatype Moved = Moved(movedId: string, oldParent: FsObject, newParent: FsObject)

  /** The first record with `id`, as `remove` returns it. */
  function FirstRecord(objs: seq<FsObject>, id: string): Option<FsObject>
  {
    var i := FirstIndex(objs, id);
    if i < 0 then None else Some(objs[i])
  }

  /** A folder record with its child list replaced. */
  function WithChildren(folder: FsObject, children: seq<string>): FsObject
  {
    folder.(body := Folder(children))
  }

  /** The effect shared by `createFolder` and `createFile`: fetch the parent;
      reading `children` of a missing parent or of a file throws; a name
      already listed rejects with `NAME_NOT_UNIQUE`, but the chain still
      creates the record; otherwise the parent is written back with the new
      id appended, and then the new record is created. */
  function CreateEffect(o: seq<FsObject>, obj: FsObject, parentId: string, freshId: string): (out: Outcome<Created>)
    ensures var p := Fetch(o, parentId);
            && (out.result == Err(TYPE_ERROR) <==> p.None? || !p.value.IsFolder())
            && (out.result == Err(NAME_NOT_UNIQUE) <==>
                  p.Some? && p.value.IsFolder() && obj.id in p.value.body.children)
            && (out.result.Ok? <==>
                  p.Some? && p.value.IsFolder() && obj.id !in p.value.body.children)
    ensures out.result == Err(TYPE_ERROR) ==> out.objects == o
    ensures out.result.Err? ==> |out.objects| >= |o| && out.objects[..|o|] == o
    ensures out.result != Err(TYPE_ERROR) ==>
              |out.objects| == |o| + 1 && out.objects[|o|] == Stored(obj, freshId)
    ensures out.result.Ok? ==>
              var p := Fetch(o, parentId).value;
              && out.result.value.folder == obj
              && out.result.value.parent == WithChildren(p, p.body.children + [obj.id])
              && out.objects[..|o|] == Replaced(o, out.result.value.parent)
  {
    match Fetch(o, parentId)
    case None => Outcome(Err(TYPE_ERROR), o)
    case Some(p) =>
      if !p.IsFolder() then Outcome(Err(TYPE_ERROR), o)
      else if obj.id in p.body.children then
        Outcome(Err(NAME_NOT_UNIQUE), o + [Stored(obj, freshId)])
      else
        var parent := WithChildren(p, p.body.children + [obj.id]);
        assert (Replaced(o, parent) + [Stored(obj, freshId)])[..|o|] == Replaced(o, parent);
        Outcome(Ok(Created(obj, parent)), Replaced(o, parent) + [Stored(obj, freshId)])
  }

  /** After a successful create whose name is not yet an id in a store with
      unique ids: the name resolves to the new record, the parent resolves
      to its updated copy, every other id resolves as before, and ids stay
      unique. */
  lemma CreateThenFetch(o: seq<FsObject>, obj: FsObject, parentId: string, freshId: string, k: string)
    requires UniqueIds(o)
    requires obj.id != "" && obj.id !in Ids(o)
    requires CreateEffect(o, obj, parentId, freshId).result.Ok?
    ensures var out := CreateEffect(o, obj, parentId, freshId);
            && Fetch(out.objects, obj.id) == Some(obj)
            && Fetch(out.objects, parentId) == Some(out.result.value.parent)
            && (k != obj.id && k != parentId ==> Fetch(out.objects, k) == Fetch(o, k))
            && UniqueIds(out.objects)
  {
    var out := CreateEffect(o, obj, parentId, freshId);
    var p := Fetch(o, parentId).value;
    var parent := out.result.value.parent;
    var mid := Replaced(o, parent);
    assert out.objects == mid + [obj];
    FetchSound(o, parentId);
    assert parent.id == parentId && parentId != obj.id;
    UpdateUniqueFetch(o, parent, k);
    FetchAfterCreate(mid, obj, obj.id);
    FetchAfterCreate(mid, obj, parentId);
    FetchAfterCreate(mid, obj, k);
    UniqueAfterCreate(mid, obj);
  }

  /** The rejected create still appends its record, so a name already
      listed in the parent now resolves to a fresh empty record: the
      existing child is shadowed while its parent keeps listing it. */
  lemma RejectedCreateShadows(o: seq<FsObject>, obj: FsObject, parentId: string, freshId: string)
    requires obj.id != ""
    requires CreateEffect(o, obj, parentId, freshId).result == Err(NAME_NOT_UNIQUE)
    ensures var out := CreateEffect(o, obj, parentId, freshId);
            && Fetch(out.objects, obj.id) == Some(obj)
            && (parentId != obj.id ==> Fetch(out.objects, parentId) == Fetch(o, parentId))
            && (obj.id in Ids(o) ==> !UniqueIds(out.objects))
  {
    var out := CreateEffect(o, obj, parentId, freshId);
    FetchAfterCreate(o, obj, obj.id);
    FetchAfterCreate(o, obj, parentId);
    if obj.id in Ids(o) {
      var i :| 0 <= i < |o| && o[i].id == obj.id;
      assert out.objects[i].id == out.objects[|o|].id;
    }
  }

  /** Ids are names, and only the parent's own children are checked: a
      successful create whose name is already an id elsewhere in the store
      appends a second record with that id, which now shadows the old one. */
  lemma CollisionDuplicates(o: seq<FsObject>, obj: FsObject, parentId: string, freshId: string)
    requires obj.id != "" && obj.id in Ids(o)
    requires CreateEffect(o, obj, parentId, freshId).result.Ok?
    ensures var out := CreateEffect(o, obj, parentId, freshId);
            Fetch(out.objects, obj.id) == Some(obj) && !UniqueIds(out.objects)
  {
    var out := CreateEffect(o, obj, parentId, freshId);
    var parent := out.result.value.parent;
    var mid := Replaced(o, parent);
    assert out.objects == mid + [obj] by {
      assert out.objects == out.objects[..|o|] + [out.objects[|o|]];
    }
    FetchAfterCreate(mid, obj, obj.id);
    FetchSound(o, parentId);
    IdsAfterUpdate(o, parent);
    var j :| 0 <= j < |mid| && mid[j].id == obj.id;
    assert out.objects[j].id == out.objects[|o|].id;
  }

  /** When the parent's id is stored twice, `update` rewrites the first
      record while `byId` reads the last: the create reports success, but
      the parent still resolves to its old record, which does not list the
      new child. */
  lemma WriteToShadowedParentLost(o: seq<FsObject>, obj: FsObject, parentId: string, freshId: string)
    requires FirstIndex(o, parentId) < LastIndex(o, parentId)
    requires obj.id != "" && obj.id != parentId
    requires CreateEffect(o, obj, parentId, freshId).result.Ok?
    ensures var out := CreateEffect(o, obj, parentId, freshId);
            && Fetch(out.objects, parentId) == Fetch(o, parentId)
            && obj.id !in Fetch(out.objects, parentId).value.body.children
  {
    var out := CreateEffect(o, obj, parentId, freshId);
    var parent := out.result.value.parent;
    var mid := Replaced(o, parent);
    assert out.objects == mid + [obj] by {
      assert out.objects == out.objects[..|o|] + [out.objects[|o|]];
    }
    FetchSound(o, parentId);
    FetchAfterCreate(mid, obj, parentId);
    FetchAfterUpdate(o, parent, parentId);
  }

  /** The corrected create: a rejection stops the chain, so a rejected
      create leaves the store as it was. */
  function CreateEffectIntended(o: seq<FsObject>, obj: FsObject, parentId: string, freshId: string): (out: Outcome<Created>)
    ensures out.result == CreateEffect(o, obj, parentId, freshId).result
    ensures out.result.Err? ==> out.objects == o
    ensures out.result.Ok? <==> CreateEffect(o, obj, parentId, freshId).result.Ok?
    ensures out.result.Ok? ==> out == CreateEffect(o, obj, parentId, freshId)
  {
    var out := CreateEffect(o, obj, parentId, freshId);
    if out.result.Err? then Outcome(out.result, o) else out
  }

  /** `parentFolder.children.filter((childId) => childId !== id)`. */
  function Without(s: seq<string>, id: string): (r: seq<string>)
    ensures id !in r
    ensures multiset(r) == multiset(s)[id := 0]
    ensures forall c :: c in r <==> c in s && c != id
  {
    if s == [] then []
    else
      var r := (if s[0] == id then [] else [s[0]]) + Without(s[1..], id);
      assert s == [s[0]] + s[1..];
      assert multiset(s) == multiset{s[0]} + multiset(s[1..]);
      r
  }

  /** `filter` keeps the order of the children: it distributes over
      concatenation, so `Without` is the children in their order with every
      `id` dropped. */
  lemma {:induction false} WithoutAppend(a: seq<string>, b: seq<string>, id: string)
    ensures Without(a + b, id) == Without(a, id) + Without(b, id)
  {
    if a == [] {
      assert a + b == b;
    } else {
      var head := if a[0] == id then [] else [a[0]];
      assert (a + b)[0] == a[0] && (a + b)[1..] == a[1..] + b;
      WithoutAppend(a[1..], b, id);
      Regroup(head, Without(a[1..], id), Without(b, id), Without(a + b, id), Without(a, id));
    }
  }

  /** Regrouping a kept head in front of two filtered parts. */
  lemma Regroup(head: seq<string>, p: seq<string>, q: seq<string>, whole: seq<string>, left: seq<string>)
    requires whole == head + (p + q) && left == head + p
    ensures whole == left + q
  {
  }

  /** The effect of `deleteObject(targetName, parentId)`: a missing parent or
      a file rejects with `INVALID_PARENT`; the target is the first fetched
      child named `targetName`; a non-empty folder rejects with
      `FOLDER_NOT_EMPTY`, but the chain still deletes the target's record;
      otherwise the parent is written back without the target's id and then
      the target's record is removed. */
  function DeleteEffect(o: seq<FsObject>, targetName: string, parentId: string): (out: Outcome<Deleted>)
    ensures var p := Fetch(o, parentId);
            out.result == Err(INVALID_PARENT) <==> p.None? || !p.value.IsFolder()
    ensures out.result == Err(TARGET_NOT_FOUND) <==>
              var p := Fetch(o, parentId);
              p.Some? && p.value.IsFolder() &&
              NoMatchBefore(FetchAll(o, p.value.body.children), targetName, |p.value.body.children|)
    ensures out.result.Err? && out.result != Err(FOLDER_NOT_EMPTY) ==> out.objects == o
    ensures out.result == Err(FOLDER_NOT_EMPTY) || out.result.Ok? ==>
              var p := Fetch(o, parentId).value;
              var t := FindByName(FetchAll(o, p.body.children), targetName);
              && t.Found?
              && (out.result.Ok? <==> !(t.obj.IsFolder() && |t.obj.body.children| > 0))
    ensures var p := Fetch(o, parentId);
            p.Some? && p.value.IsFolder() ==>
              var t := FindByName(FetchAll(o, p.value.body.children), targetName);
              && (out.result == Err(TYPE_ERROR) <==> t.Broken?)
              && (t.Found? ==>
                    && (out.result == Err(FOLDER_NOT_EMPTY) <==>
                          t.obj.IsFolder() && |t.obj.body.children| > 0)
                    && (out.result.Ok? <==> !(t.obj.IsFolder() && |t.obj.body.children| > 0)))
    ensures out.result == Err(FOLDER_NOT_EMPTY) ==>
              var p := Fetch(o, parentId).value;
              out.objects == Removed(o, FindByName(FetchAll(o, p.body.children), targetName).obj.id)
    ensures out.result.Ok? ==>
              var p := Fetch(o, parentId).value;
              var t := FindByName(FetchAll(o, p.body.children), targetName).obj;
              out.result.value.parent == WithChildren(p, Without(p.body.children, t.id))
  {
    match Fetch(o, parentId)
    case None => Outcome(Err(INVALID_PARENT), o)
    case Some(p) =>
      if !p.IsFolder() then Outcome(Err(INVALID_PARENT), o)
      else
        match FindByName(FetchAll(o, p.body.children), targetName)
        case Broken => Outcome(Err(TYPE_ERROR), o)
        case Absent => Outcome(Err(TARGET_NOT_FOUND), o)
        case Found(t) =>
          if t.IsFolder() && |t.body.children| > 0 then
            Outcome(Err(FOLDER_NOT_EMPTY), Removed(o, t.id))
          else
            var parent := WithChildren(p, Without(p.body.children, t.id));
            var mid := Replaced(o, parent);
            Outcome(Ok(Deleted(FirstRecord(mid, t.id), parent)), Removed(mid, t.id))
  }

  /** After a successful delete in a store with unique ids: the target is
      the record the store removed, its id no longer resolves, the parent
      resolves to its copy without the target's id, every other id
      resolves as before, and ids stay unique. */
  lemma DeleteThenFetch(o: seq<FsObject>, targetName: string, parentId: string, k: string)
    requires UniqueIds(o)
    requires DeleteEffect(o, targetName, parentId).result.Ok?
    ensures var out := DeleteEffect(o, targetName, parentId);
            var t := FindByName(FetchAll(o, Fetch(o, parentId).value.body.children), targetName).obj;
            && t.id != parentId
            && out.result.value.deletedObject == Some(t)
            && Fetch(out.objects, t.id) == None
            && Fetch(out.objects, parentId) == Some(out.result.value.parent)
            && t.id !in out.result.value.parent.body.children
            && (k != t.id && k != parentId ==> Fetch(out.objects, k) == Fetch(o, k))
            && UniqueIds(out.objects)
  {
    var out := DeleteEffect(o, targetName, parentId);
    var p := Fetch(o, parentId).value;
    var t := FindByName(FetchAll(o, p.body.children), targetName).obj;
    FetchSound(o, parentId);
    FoundIsStored(o, p.body.children, targetName);
    assert t.id != parentId;
    var parent := WithChildren(p, Without(p.body.children, t.id));
    var mid := Replaced(o, parent);
    UpdateUniqueFetch(o, parent, k);
    UpdateUniqueFetch(o, parent, t.id);
    UniqueFirstIsLast(mid, t.id);
    FetchIsLast(mid, t.id);
    FetchAfterRemove(mid, t.id, t.id);
    FetchAfterRemove(mid, t.id, parentId);
    FetchAfterRemove(mid, t.id, k);
    UniqueAfterRemove(mid, t.id);
  }

  /** The rejected delete of a non-empty folder still removes the folder's
      record, so its parent keeps listing an id that no longer resolves. */
  lemma RejectedDeleteDangles(o: seq<FsObject>, targetName: string, parentId: string)
    requires UniqueIds(o)
    requires DeleteEffect(o, targetName, parentId).result == Err(FOLDER_NOT_EMPTY)
    ensures var out := DeleteEffect(o, targetName, parentId);
            var p := Fetch(o, parentId).value;
            var t := FindByName(FetchAll(o, p.body.children), targetName).obj;
            && t.id in p.body.children
            && Fetch(o, t.id) == Some(t)
            && Fetch(out.objects, t.id) == None
            && (t.id != parentId ==> Fetch(out.objects, parentId) == Some(p))
  {
    var p := Fetch(o, parentId).value;
    var t := FindByName(FetchAll(o, p.body.children), targetName).obj;
    FoundIsStored(o, p.body.children, targetName);
    FetchSound(o, parentId);
    UniqueFirstIsLast(o, t.id);
    FetchAfterRemove(o, t.id, t.id);
    FetchAfterRemove(o, t.id, parentId);
  }

  /** The corrected delete: a rejection stops the chain, so a rejected
      delete leaves the store as it was. */
  function DeleteEffectIntended(o: seq<FsObject>, targetName: string, parentId: string): (out: Outcome<Deleted>)
    ensures out.result.Err? ==> out.objects == o
    ensures out.result == DeleteEffect(o, targetName, parentId).result
    ensures out.result.Ok? ==> out == DeleteEffect(o, targetName, parentId)
  {
    var out := DeleteEffect(o, targetName, parentId);
    if out.result.Err? then Outcome(out.result, o) else out
  }

  /** `children.indexOf(x)`: the first position of `x`, or -1. */
  function Position(s: seq<string>, x: string): (i: int)
    ensures -1 <= i < |s|
    ensures 0 <= i ==> s[i] == x && x !in s[..i]
    ensures i < 0 <==> x !in s
  {
    if s == [] then -1
    else if s[0] == x then 0
    else
      var i := Position(s[1..], x);
      assert s == [s[0]] + s[1..];
      if i < 0 then -1
      else
        assert s[..i + 1] == [s[0]] + s[1..][..i];
        i + 1
  }

  /** The effect of `moveObject(targetName, rootId, currentParentId, path)`:
      resolve the destination with `moveTo`, fetch the current parent, then
      splice `targetName` out of the parent's children at its first position
      and append it to the destination's, writing back both parents. Every
      rejection happens before any write. */
  function MoveEffect(o: seq<FsObject>, targetName: string, rootId: string, currentParentId: string,
                      path: seq<string>): (out: Outcome<Moved>)
    ensures out.result.Err? ==> out.objects == o
    ensures var d := MoveTo(o, rootId, path);
            var cp := Fetch(o, currentParentId);
            && (d.Err? ==> out.result == Err(d.error))
            && (d.Ok? && (d.value.None? || !d.value.value.IsFolder()) ==> out.result == Err(INVALID_OPERATION))
            && (d.Ok? && d.value.Some? && d.value.value.IsFolder() ==>
                  && (cp.None? || !cp.value.IsFolder() ==> out.result == Err(INVALID_OPERATION))
                  && (cp.Some? && cp.value.IsFolder() ==>
                        && (targetName !in cp.value.body.children ==> out.result == Err(TARGET_NOT_FOUND))
                        && (targetName in cp.value.body.children && targetName in d.value.value.body.children ==>
                              out.result == Err(NAME_NOT_UNIQUE))
                        && (targetName in cp.value.body.children && targetName !in d.value.value.body.children ==>
                              out.result.Ok?)))
    ensures out.result.Ok? ==>
              var d := MoveTo(o, rootId, path).value.value;
              var cp := Fetch(o, currentParentId).value;
              && out.result.value.movedId == targetName
              && out.result.value.newParent == WithChildren(d, d.body.children + [targetName])
              && out.result.value.oldParent.id == cp.id
              && out.result.value.oldParent.body.Folder?
              && multiset(out.result.value.oldParent.body.children) ==
                   multiset(cp.body.children) - multiset{targetName}
  {
    match MoveTo(o, rootId, path)
    case Err(e) => Outcome(Err(e), o)
    case Ok(dest) =>
      if dest.None? || !dest.value.IsFolder() then Outcome(Err(INVALID_OPERATION), o)
      else match Fetch(o, currentParentId)
        case None => Outcome(Err(INVALID_OPERATION), o)
        case Some(cp) =>
          if !cp.IsFolder() then Outcome(Err(INVALID_OPERATION), o)
          else
            var kids := cp.body.children;
            var i := Position(kids, targetName);
            if i < 0 then Outcome(Err(TARGET_NOT_FOUND), o)
            else if targetName in dest.value.body.children then Outcome(Err(NAME_NOT_UNIQUE), o)
            else
              var oldParent := WithChildren(cp, kids[..i] + kids[i + 1..]);
              var newParent := WithChildren(dest.value, dest.value.body.children + [kids[i]]);
              SplicedOut(kids, i);
              Outcome(Ok(Moved(kids[i], oldParent, newParent)), Replaced(Replaced(o, oldParent), newParent))
  }

  /** `splice(i, 1)` takes exactly one copy of the entry at `i` out. */
  lemma SplicedOut(kids: seq<string>, i: int)
    requires 0 <= i < |kids|
    ensures multiset(kids[..i] + kids[i + 1..]) == multiset(kids) - multiset{kids[i]}
  {
    assert kids == kids[..i] + [kids[i]] + kids[i + 1..];
  }

  /** The outcome of a move that passes every check. */
  lemma MoveEffectOk(o: seq<FsObject>, targetName: string, rootId: string, currentParentId: string,
                     path: seq<string>, dest: FsObject, cp: FsObject, i: int)
    requires MoveTo(o, rootId, path) == Ok(Some(dest)) && dest.IsFolder()
    requires Fetch(o, currentParentId) == Some(cp) && cp.IsFolder()
    requires i == Position(cp.body.children, targetName) && 0 <= i
    requires targetName !in dest.body.children
    ensures var kids := cp.body.children;
            var oldParent := WithChildren(cp, kids[..i] + kids[i + 1..]);
            var newParent := WithChildren(dest, dest.body.children + [kids[i]]);
            MoveEffect(o, targetName, rootId, currentParentId, path) ==
              Outcome(Ok(Moved(kids[i], oldParent, newParent)), Replaced(Replaced(o, oldParent), newParent))
  {
  }

  /** The two parent writes of `moveObject` are issued together
      (`Promise.all`); on records with different ids their order does not
      matter. */
  lemma UpdatesCommute(o: seq<FsObject>, a: FsObject, b: FsObject)
    requires a.id != b.id
    ensures Replaced(Replaced(o, a), b) == Replaced(Replaced(o, b), a)
  {
    var oa, ob := Replaced(o, a), Replaced(o, b);
    FirstIndexIs(oa, b.id, FirstIndex(o, b.id));
    FirstIndexIs(ob, a.id, FirstIndex(o, a.id));
  }

  /** After a successful move in a store with unique ids: the destination and
      the current parent are distinct records, each resolves to its written
      copy, every other id resolves as before, and ids stay unique. */
  lemma MoveThenFetch(o: seq<FsObject>, targetName: string, rootId: string, currentParentId: string,
                      path: seq<string>, k: string)
    requires UniqueIds(o)
    requires MoveEffect(o, targetName, rootId, currentParentId, path).result.Ok?
    ensures var out := MoveEffect(o, targetName, rootId, currentParentId, path);
            var d := MoveTo(o, rootId, path).value.value;
            && d.id != currentParentId
            && Fetch(out.objects, currentParentId) == Some(out.result.value.oldParent)
            && Fetch(out.objects, d.id) == Some(out.result.value.newParent)
            && targetName !in d.body.children
            && (k != d.id && k != currentParentId ==> Fetch(out.objects, k) == Fetch(o, k))
            && UniqueIds(out.objects)
  {
    var out := MoveEffect(o, targetName, rootId, currentParentId, path);
    var d := MoveTo(o, rootId, path).value.value;
    var cp := Fetch(o, currentParentId).value;
    FetchSound(o, currentParentId);
    FetchSound(o, d.id);
    var oldParent, newParent := out.result.value.oldParent, out.result.value.newParent;
    var mid := Replaced(o, oldParent);
    UpdateUniqueFetch(o, oldParent, k);
    UpdateUniqueFetch(o, oldParent, d.id);
    UpdateUniqueFetch(mid, newParent, k);
    UpdateUniqueFetch(mid, newParent, currentParentId);
    assert newParent.body.children[..|d.body.children|] == d.body.children;
  }

  // ---------------------------------------------------------------------
  // concatObjects and findContent

  /** A fetched child that is a file record. */
  predicate IsFileEntry(x: Option<FsObject>)
  {
    x.Some? && x.value.IsFile()
  }

  /** The text `acc + file.contents + '\n'` adds for a file: JavaScript
      renders a missing `contents` key as "undefined". */
  function ContentsText(f: FsObject): (r: string)
    requires f.IsFile()
    ensures f.body.contents.Some? ==> r == f.body.contents.value
    ensures f.body.contents.None? ==> r == "undefined"
  {
    match f.body.contents
    case Some(text) => text
    case None => "undefined"
  }

  /** Entry `i` is the first fetched child that is not a file. */
  predicate FirstNonFile(xs: seq<Option<FsObject>>, i: int)
  {
    0 <= i < |xs| && !IsFileEntry(xs[i]) && forall j :: 0 <= j < i ==> IsFileEntry(xs[j])
  }

  /** The `reduce` of `concatObjects` over the fetched children. The first
      child that is not a file settles the promise: reading `type` of a
      missing child throws, and a folder rejects with `INVALID_OPERATION`;
      what the fold computes afterwards is never delivered. */
  function ConcatFiles(xs: seq<Option<FsObject>>): (r: Result<string>)
    ensures r.Ok? <==> forall i :: 0 <= i < |xs| ==> IsFileEntry(xs[i])
    ensures r.Err? ==>
              exists i :: (FirstNonFile(xs, i) && r.error == (if xs[i].None? then TYPE_ERROR else INVALID_OPERATION))
    decreases |xs|
  {
    if xs == [] then Ok("")
    else
      var n := |xs| - 1;
      var prefix := xs[..n];
      assert forall j :: 0 <= j < n ==> prefix[j] == xs[j];
      match ConcatFiles(prefix)
      case Err(e) => Err(e)
      case Ok(acc) =>
        match xs[n]
        case None =>
          assert FirstNonFile(xs, n);
          Err(TYPE_ERROR)
        case Some(f) =>
          if f.IsFile() then Ok(acc + ContentsText(f) + "\n")
          else
            assert FirstNonFile(xs, n);
            Err(INVALID_OPERATION)
  }

  /** `concatObjects(folderId)`. Reading `type` of a missing record throws. */
  function ConcatObjects(objs: seq<FsObject>, folderId: string): (r: Result<string>)
    ensures Fetch(objs, folderId).None? ==> r == Err(TYPE_ERROR)
    ensures var f := Fetch(objs, folderId);
            f.Some? && (!f.value.IsFolder() || f.value.body.children == []) ==> r == Err(INVALID_OPERATION)
    ensures r.Ok? <==>
              var f := Fetch(objs, folderId);
              && f.Some? && f.value.IsFolder() && f.value.body.children != []
              && forall c :: c in f.value.body.children ==> IsFileEntry(Fetch(objs, c))
  {
    match Fetch(objs, folderId)
    case None => Err(TYPE_ERROR)
    case Some(folder) =>
      if !folder.IsFolder() || |folder.body.children| == 0 then Err(INVALID_OPERATION)
      else
        var kids := folder.body.children;
        var xs := FetchAll(objs, kids);
        assert (forall i :: 0 <= i < |xs| ==> IsFileEntry(xs[i])) <==>
               (forall c :: c in kids ==> IsFileEntry(Fetch(objs, c))) by {
          if forall i :: 0 <= i < |xs| ==> IsFileEntry(xs[i]) {
            forall c | c in kids ensures IsFileEntry(Fetch(objs, c)) {
              var i :| 0 <= i < |kids| && kids[i] == c;
              assert xs[i] == Fetch(objs, c);
            }
          }
        }
        ConcatFiles(xs)
  }

  /** The fold seen from the front: the first file's text and a newline come
      before everything the rest contributes. */
  lemma {:induction false} ConcatFilesCons(x: FsObject, xs: seq<Option<FsObject>>)
    requires x.IsFile()
    ensures ConcatFiles([Some(x)] + xs) ==
              match ConcatFiles(xs)
              case Ok(v) => Ok(ContentsText(x) + "\n" + v)
              case Err(e) => Err(e)
    decreases |xs|
  {
    var ys := [Some(x)] + xs;
    if xs == [] {
      assert ys[..0] == [];
      assert ConcatFiles([]) == Ok("");
      var t := ContentsText(x);
      assert "" + t + "\n" == t + "\n" + "";
    } else {
      var n := |xs| - 1;
      assert ys[..|ys| - 1] == [Some(x)] + xs[..n];
      assert ys[|ys| - 1] == xs[n];
      ConcatFilesCons(x, xs[..n]);
      match ConcatFiles(xs[..n]) {
        case Err(e) =>
        case Ok(acc) =>
          if IsFileEntry(xs[n]) {
            var t, u := ContentsText(x), ContentsText(xs[n].value);
            assert t + "\n" + acc + u + "\n" == t + "\n" + (acc + u + "\n");
          }
      }
    }
  }

  /** The texts of the fetched file children, in order. */
  function FileTexts(xs: seq<Option<FsObject>>): (ts: seq<string>)
    requires forall i :: 0 <= i < |xs| ==> IsFileEntry(xs[i])
  {
    if xs == [] then []
    else
      assert IsFileEntry(xs[0]);
      [ContentsText(xs[0].value)] + FileTexts(xs[1..])
  }

  /** The length of the first line of `s`. */
  function LineEnd(s: string): (k: nat)
    ensures k <= |s| && '\n' !in s[..k] && (k < |s| ==> s[k] == '\n')
  {
    if s == [] || s[0] == '\n' then 0
    else
      var k := LineEnd(s[1..]);
      assert s[..k + 1] == [s[0]] + s[1..][..k];
      k + 1
  }

  /** `s` read back as newline-terminated lines. */
  function SplitLines(s: string): seq<string>
    decreases |s|
  {
    if s == [] then []
    else
      var k := LineEnd(s);
      if k == |s| then [s] else [s[..k]] + SplitLines(s[k + 1..])
  }

  /** Round trip: when no file text holds a newline, the concatenation of a
      folder of files splits back into the files' texts, in order. */
  lemma {:induction false} ConcatSplitsBack(xs: seq<Option<FsObject>>)
    requires forall i :: 0 <= i < |xs| ==> IsFileEntry(xs[i]) && '\n' !in ContentsText(xs[i].value)
    ensures ConcatFiles(xs).Ok? && SplitLines(ConcatFiles(xs).value) == FileTexts(xs)
    decreases |xs|
  {
    if xs != [] {
      var t := ContentsText(xs[0].value);
      ConcatSplitsBack(xs[1..]);
      var v := ConcatFiles(xs[1..]).value;
      assert xs == [xs[0]] + xs[1..];
      ConcatFilesCons(xs[0].value, xs[1..]);
      SplitFirstLine(t, v);
    }
  }

  /** A text without a newline, then a newline, splits off as the first line. */
  lemma SplitFirstLine(t: string, v: string)
    requires '\n' !in t
    ensures SplitLines(t + "\n" + v) == [t] + SplitLines(v)
  {
    var s := t + "\n" + v;
    assert s[|t|] == '\n';
    assert s[..|t|] == t;
    assert LineEnd(s) == |t|;
    assert s[|t| + 1..] == v;
  }

  /** `s.includes(q)`. */
  predicate Includes(s: string, q: string)
    ensures Includes(s, q) ==> |q| <= |s|
    ensures q <= s ==> Includes(s, q)
  {
    assert s[0..] == s;
    exists k | 0 <= k <= |s| :: q <= s[k..]
  }

  /** A substring of a substring is a substring. */
  lemma IncludesTrans(a: string, b: string, c: string)
    requires Includes(a, b) && Includes(b, c)
    ensures Includes(a, c)
  {
    var i :| 0 <= i <= |a| && b <= a[i..];
    var j :| 0 <= j <= |b| && c <= b[j..];
    assert c <= a[i + j..] by {
      assert forall m :: 0 <= m < |c| ==> c[m] == b[j + m] == a[i + j + m];
    }
  }

  /** Each file's text, newline included, occurs in the concatenation. */
  lemma {:induction false} ConcatHoldsEach(xs: seq<Option<FsObject>>, i: int)
    requires ConcatFiles(xs).Ok? && 0 <= i < |xs|
    ensures IsFileEntry(xs[i]) && Includes(ConcatFiles(xs).value, ContentsText(xs[i].value) + "\n")
    decreases |xs|
  {
    var n := |xs| - 1;
    var acc := ConcatFiles(xs[..n]).value;
    var t := ContentsText(xs[n].value);
    var s := ConcatFiles(xs).value;
    assert s == acc + t + "\n";
    if i == n {
      assert t + "\n" <= s[|acc|..];
    } else {
      ConcatHoldsEach(xs[..n], i);
      var k :| 0 <= k <= |acc| && ContentsText(xs[i].value) + "\n" <= acc[k..];
      assert ContentsText(xs[i].value) + "\n" <= s[k..];
    }
  }

  /** A fetched child `findContent` can read: a file with `contents`. */
  predicate Readable(x: Option<FsObject>)
  {
    IsFileEntry(x) && x.value.body.contents.Some?
  }

  /** A readable child whose `contents` include `q`. */
  predicate Matches(x: Option<FsObject>, q: string)
  {
    Readable(x) && Includes(x.value.body.contents.value, q)
  }

  /** Entry `i` is the first fetched child `findContent` cannot read. */
  predicate FirstUnreadable(xs: seq<Option<FsObject>>, i: int)
  {
    0 <= i < |xs| && !Readable(xs[i]) && forall j :: 0 <= j < i ==> Readable(xs[j])
  }

  /** The `filter` and `map` of `findContent`. A folder child rejects with
      `INVALID_OPERATION` (and is filtered out, but the promise is already
      settled); reading `type` of a missing child or calling `includes` on
      a missing `contents` throws. The first such child decides. */
  function MatchingNames(xs: seq<Option<FsObject>>, q: string): (r: Result<seq<string>>)
    ensures r.Ok? <==> forall i :: 0 <= i < |xs| ==> Readable(xs[i])
    ensures r.Err? ==>
              exists i :: (FirstUnreadable(xs, i) &&
                r.error == (if xs[i].Some? && !xs[i].value.IsFile() then INVALID_OPERATION else TYPE_ERROR))
    ensures r.Ok? ==> |r.value| <= |xs|
    ensures r.Ok? ==> forall n :: n in r.value <==>
              exists i :: 0 <= i < |xs| && Matches(xs[i], q) && xs[i].value.name == n
  {
    if xs == [] then Ok([])
    else if !Readable(xs[0]) then
      assert FirstUnreadable(xs, 0);
      if xs[0].Some? && !xs[0].value.IsFile() then Err(INVALID_OPERATION) else Err(TYPE_ERROR)
    else
      var f := xs[0].value;
      var rest := xs[1..];
      assert forall j :: 0 <= j < |rest| ==> rest[j] == xs[j + 1];
      match MatchingNames(rest, q)
      case Err(e) =>
        assert exists i :: FirstUnreadable(xs, i) &&
                 e == (if xs[i].Some? && !xs[i].value.IsFile() then INVALID_OPERATION else TYPE_ERROR) by {
          var i :| FirstUnreadable(rest, i) &&
                   e == (if rest[i].Some? && !rest[i].value.IsFile() then INVALID_OPERATION else TYPE_ERROR);
          assert FirstUnreadable(xs, i + 1);
        }
        Err(e)
      case Ok(names) =>
        var r := if Includes(f.body.contents.value, q) then [f.name] + names else names;
        assert forall n :: n in r <==> exists i :: 0 <= i < |xs| && Matches(xs[i], q) && xs[i].value.name == n by {
          forall n ensures n in r <==> exists i :: 0 <= i < |xs| && Matches(xs[i], q) && xs[i].value.name == n {
            if n in names {
              var i :| 0 <= i < |rest| && Matches(rest[i], q) && rest[i].value.name == n;
              assert Matches(xs[i + 1], q);
            }
            if exists i :: 0 <= i < |xs| && Matches(xs[i], q) && xs[i].value.name == n {
              var i :| 0 <= i < |xs| && Matches(xs[i], q) && xs[i].value.name == n;
              if i > 0 { assert Matches(rest[i - 1], q); }
            }
          }
        }
        Ok(r)
  }

  /** Filtering the children of two lists in turn is filtering their
      concatenation: names come out in children order, and the first
      unreadable child still decides the rejection. */
  lemma {:induction false} MatchingNamesAppend(xs: seq<Option<FsObject>>, ys: seq<Option<FsObject>>, q: string)
    ensures MatchingNames(xs + ys, q) ==
              match MatchingNames(xs, q)
              case Err(e) => Err(e)
              case Ok(a) =>
                match MatchingNames(ys, q)
                case Err(e) => Err(e)
                case Ok(b) => Ok(a + b)
    decreases |xs|
  {
    if xs == [] {
      assert xs + ys == ys;
      assert MatchingNames(xs, q) == Ok([]);
      if MatchingNames(ys, q).Ok? {
        assert [] + MatchingNames(ys, q).value == MatchingNames(ys, q).value;
      }
    } else {
      assert (xs + ys)[0] == xs[0];
      assert (xs + ys)[1..] == xs[1..] + ys;
      MatchingNamesAppend(xs[1..], ys, q);
      if Readable(xs[0]) {
        match MatchingNames(xs[1..], q) {
          case Err(e) =>
          case Ok(a) =>
            match MatchingNames(ys, q) {
              case Err(e) =>
              case Ok(b) =>
                var n := xs[0].value.name;
                assert [n] + a + b == [n] + (a + b);
            }
        }
      }
    }
  }

  /** `findContent(searchString, folderId)`. Reading `type` of a missing
      record throws; the `matchingFiles.length === 0` branch resolves with
      the same empty list. */
  function FindContent(objs: seq<FsObject>, searchString: string, folderId: string): (r: Result<seq<string>>)
    ensures Fetch(objs, folderId).None? ==> r == Err(TYPE_ERROR)
    ensures var f := Fetch(objs, folderId);
            f.Some? && (!f.value.IsFolder() || f.value.body.children == []) ==> r == Err(INVALID_OPERATION)
    ensures r.Ok? ==>
              var f := Fetch(objs, folderId);
              && f.Some? && f.value.IsFolder() && f.value.body.children != []
              && (forall c :: c in f.value.body.children ==> Readable(Fetch(objs, c)))
              && forall n :: n in r.value <==>
                   exists c :: c in f.value.body.children && Matches(Fetch(objs, c), searchString) &&
                     Fetch(objs, c).value.name == n
  {
    match Fetch(objs, folderId)
    case None => Err(TYPE_ERROR)
    case Some(folder) =>
      if !folder.IsFolder() || |folder.body.children| == 0 then Err(INVALID_OPERATION)
      else
        var kids := folder.body.children;
        var xs := FetchAll(objs, kids);
        var r := MatchingNames(xs, searchString);
        assert r.Ok? ==> forall c :: c in kids ==> Readable(Fetch(objs, c)) by {
          if r.Ok? {
            forall c | c in kids ensures Readable(Fetch(objs, c)) {
              var i :| 0 <= i < |kids| && kids[i] == c;
              assert xs[i] == Fetch(objs, c);
            }
          }
        }
        assert r.Ok? ==> forall n :: n in r.value <==>
                 exists c :: c in kids && Matches(Fetch(objs, c), searchString) && Fetch(objs, c).value.name == n by {
          if r.Ok? {
            forall n ensures n in r.value <==>
                exists c :: c in kids && Matches(Fetch(objs, c), searchString) && Fetch(objs, c).value.name == n {
              if exists c :: c in kids && Matches(Fetch(objs, c), searchString) && Fetch(objs, c).value.name == n {
                var c :| c in kids && Matches(Fetch(objs, c), searchString) && Fetch(objs, c).value.name == n;
                var i :| 0 <= i < |kids| && kids[i] == c;
                assert Matches(xs[i], searchString);
              }
            }
          }
        }
        r
  }

  /** Every name `findContent` reports belongs to a file whose text is in
      what `concatObjects` returns for the same folder, so a search hit is a
      substring of the concatenation. */
  lemma FoundInConcat(objs: seq<FsObject>, searchString: string, folderId: string)
    requires FindContent(objs, searchString, folderId).Ok?
    requires FindContent(objs, searchString, folderId).value != []
    ensures ConcatObjects(objs, folderId).Ok?
    ensures Includes(ConcatObjects(objs, folderId).value, searchString)
  {
    var folder := Fetch(objs, folderId).value;
    var kids := folder.body.children;
    var xs := FetchAll(objs, kids);
    var names := FindContent(objs, searchString, folderId).value;
    assert names[0] in names;
    var c :| c in kids && Matches(Fetch(objs, c), searchString) && Fetch(objs, c).value.name == names[0];
    var i :| 0 <= i < |kids| && kids[i] == c;
    assert xs[i] == Fetch(objs, c);
    var s := ConcatObjects(objs, folderId).value;
    ConcatHoldsEach(xs, i);
    var text := ContentsText(xs[i].value);
    assert Includes(text + "\n", searchString) by {
      var k :| 0 <= k <= |text| && searchString <= text[k..];
      assert searchString <= (text + "\n")[k..];
    }
    IncludesTrans(s, text + "\n", searchString);
  }

  /** A file made by `createFile` keeps its text under `content`, which the
      readers never look at: once created in a folder (store with unique
      ids, name not yet an id), `findContent` on that folder rejects
      whatever it searches for, and `concatObjects`, when it resolves,
      prints "undefined" for the new file. */
  lemma CreatedFileUnreadable(o: seq<FsObject>, name: string, content: string, folderId: string,
                              freshId: string, q: string)
    requires UniqueIds(o)
    requires name != "" && name !in Ids(o)
    requires CreateEffect(o, NewFile(name, content), folderId, freshId).result.Ok?
    ensures var objs := CreateEffect(o, NewFile(name, content), folderId, freshId).objects;
            && FindContent(objs, q, folderId).Err?
            && (ConcatObjects(objs, folderId).Ok? ==> Includes(ConcatObjects(objs, folderId).value, "undefined\n"))
  {
    var obj := NewFile(name, content);
    var out := CreateEffect(o, obj, folderId, freshId);
    CreateThenFetch(o, obj, folderId, freshId, name);
    var objs := out.objects;
    var kids := out.result.value.parent.body.children;
    assert name in kids && !Readable(Fetch(objs, name));
    if ConcatObjects(objs, folderId).Ok? {
      var xs := FetchAll(objs, kids);
      var i := |kids| - 1;
      assert xs[i] == Some(obj);
      ConcatHoldsEach(xs, i);
      assert "undefined\n" <= (ContentsText(obj) + "\n")[0..];
      IncludesTrans(ConcatObjects(objs, folderId).value, ContentsText(obj) + "\n", "undefined\n");
    }
  }

  // ---------------------------------------------------------------------
  // The mutating operations, as reads and writes on the store

  /** `createFolder(name, parentId = 'root')`; `freshId` stands for the
      uuid the store would generate for an empty name. */
  method CreateFolder(store: Store, freshId: string, name: string, parentId: string := "root")
    returns (r: Result<Created>)
    requires freshId != ""
    modifies store
    ensures Outcome(r, store.objects) == CreateEffect(old(store.objects), NewFolder(name), parentId, freshId)
  {
    r := CreateChild(store, freshId, NewFolder(name), parentId);
  }

  /** `createFile(name, content = '', folderId = 'root')`. */
  method CreateFile(store: Store, freshId: string, name: string, content: string := "", folderId: string := "root")
    returns (r: Result<Created>)
    requires freshId != ""
    modifies store
    ensures Outcome(r, store.objects) == CreateEffect(old(store.objects), NewFile(name, content), folderId, freshId)
  {
    r := CreateChild(store, freshId, NewFile(name, content), folderId);
  }

  /** The promise chain both create operations share. */
  method CreateChild(store: Store, freshId: string, obj: FsObject, parentId: string) returns (r: Result<Created>)
    requires freshId != ""
    modifies store
    ensures Outcome(r, store.objects) == CreateEffect(old(store.objects), obj, parentId, freshId)
  {
    var fetched := Fetch(store.objects, parentId);
    if fetched.None? || !fetched.value.IsFolder() {
      // `children.includes` of `undefined` throws; the chain skips to `.catch`
      return Err(TYPE_ERROR);
    }
    var parent := fetched.value;
    if obj.id in parent.body.children {
      r := Err(NAME_NOT_UNIQUE);
      // `return reject(...)` fulfils this step, so `createObject` still runs
      var leaked := store.Create(obj, freshId);
      return;
    }
    parent := WithChildren(parent, parent.body.children + [obj.id]);
    var written := store.Update(parent);
    var created := store.Create(obj, freshId);
    r := Ok(Created(obj, parent));
  }

  /** `deleteObject(targetName, parentId = 'root')`. */
  method DeleteObject(store: Store, targetName: string, parentId: string := "root") returns (r: Result<Deleted>)
    modifies store
    ensures Outcome(r, store.objects) == DeleteEffect(old(store.objects), targetName, parentId)
  {
    var fetched := Fetch(store.objects, parentId);
    if fetched.None? || !fetched.value.IsFolder() {
      return Err(INVALID_PARENT);
    }
    var parent := fetched.value;
    var found := FindByName(FetchAll(store.objects, parent.body.children), targetName);
    if found.Broken? {
      return Err(TYPE_ERROR);
    }
    if found.Absent? {
      return Err(TARGET_NOT_FOUND);
    }
    var target := found.obj;
    if target.IsFolder() && |target.body.children| > 0 {
      r := Err(FOLDER_NOT_EMPTY);
      // `return reject(...)` fulfils this step, so `deleteObj(target.id)` still runs
      var leaked := store.Remove(target.id);
      return;
    }
    parent := WithChildren(parent, Without(parent.body.children, target.id));
    var written := store.Update(parent);
    var deleted := store.Remove(target.id);
    r := Ok(Deleted(deleted, parent));
  }

  /** `moveObject(targetName, rootId, currentParentId, path)`. */
  method MoveObject(store: Store, targetName: string, rootId: string, currentParentId: string, path: seq<string>)
    returns (r: Result<Moved>)
    modifies store
    ensures Outcome(r, store.objects) == MoveEffect(old(store.objects), targetName, rootId, currentParentId, path)
  {
    ghost var o := store.objects;
    var destination := MoveTo(store.objects, rootId, path);
    if destination.Err? {
      return Err(destination.error);
    }
    if destination.value.None? || !destination.value.value.IsFolder() {
      return Err(INVALID_OPERATION);
    }
    var targetFolder := destination.value.value;
    var fetched := Fetch(store.objects, currentParentId);
    if fetched.None? || !fetched.value.IsFolder() {
      return Err(INVALID_OPERATION);
    }
    var currentParent := fetched.value;
    var children := currentParent.body.children;
    var i := Position(children, targetName);
    if i == -1 {
      return Err(TARGET_NOT_FOUND);
    }
    if targetName in targetFolder.body.children {
      return Err(NAME_NOT_UNIQUE);
    }
    var targetObject := children[i];
    currentParent := WithChildren(currentParent, children[..i] + children[i + 1..]);
    targetFolder := WithChildren(targetFolder, targetFolder.body.children + [targetObject]);
    MoveEffectOk(o, targetName, rootId, currentParentId, path, destination.value.value, fetched.value, i);
    var writtenOld := store.Update(currentParent);
    var writtenNew := store.Update(targetFolder);
    r := Ok(Moved(targetObject, currentParent, targetFolder));
  }
}
