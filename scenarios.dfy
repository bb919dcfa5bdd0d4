/**
 * The stores and expectations of the repository's unit tests for the
 * filesystem operations, restated over the model.
 */
module Scenarios {
  import opened FsTypes
  import opened ObjectStore
  import opened FileSystem

  function FolderRecord(id: string, children: seq<string>): FsObject
  {
    FsObject(id, id, Folder(children))
  }

  /** A seeded file: its text is under `contents`. */
  function FileRecord(id: string, text: string): FsObject
  {
    FsObject(id, id, File(None, Some(text)))
  }

  const ConcatStore: seq<FsObject> := [
    FolderRecord("Folder", ["Folder2"]),
    FolderRecord("Folder2", ["File2", "File3"]),
    FolderRecord("Folder3", []),
    FileRecord("File2", "this is file2"),
    FileRecord("File3", "this is file3")
  ]

  /** Each record of the concatenation test store resolves by its id. */
  lemma ConcatStoreLookups()
    ensures Fetch(ConcatStore, "Folder") == Some(FolderRecord("Folder", ["Folder2"]))
    ensures Fetch(ConcatStore, "Folder2") == Some(FolderRecord("Folder2", ["File2", "File3"]))
    ensures Fetch(ConcatStore, "Folder3") == Some(FolderRecord("Folder3", []))
    ensures Fetch(ConcatStore, "File2") == Some(FileRecord("File2", "this is file2"))
    ensures Fetch(ConcatStore, "File3") == Some(FileRecord("File3", "this is file3"))
  {
    var s := ConcatStore;
    assert UniqueIds(s);
    FetchUnique(s, 0);
    FetchUnique(s, 1);
    FetchUnique(s, 2);
    FetchUnique(s, 3);
    FetchUnique(s, 4);
  }

  /** `concatObjects`: the files of a folder joined, each followed by a
      newline. */
  lemma ConcatObjectsScenario()
    ensures ConcatObjects(ConcatStore, "Folder2") == Ok("this is file2\nthis is file3\n")
  {
    ConcatStoreLookups();
    var xs := FetchAll(ConcatStore, ["File2", "File3"]);
    assert xs == [Some(FileRecord("File2", "this is file2")), Some(FileRecord("File3", "this is file3"))];
    TwoFilesConcat();
  }

  /** The fold of `concatObjects` over the two files of the test. */
  lemma TwoFilesConcat()
    ensures ConcatFiles([Some(FileRecord("File2", "this is file2")), Some(FileRecord("File3", "this is file3"))]) ==
            Ok("this is file2\nthis is file3\n")
  {
    var xs := [Some(FileRecord("File2", "this is file2")), Some(FileRecord("File3", "this is file3"))];
    var one := xs[..1];
    assert one[..0] == [];
    assert ConcatFiles(one[..0]) == Ok("");
    assert IsFileEntry(one[0]) && ContentsText(one[0].value) == "this is file2";
    assert ConcatFiles(one) == Ok("" + "this is file2" + "\n");
    assert IsFileEntry(xs[1]) && ContentsText(xs[1].value) == "this is file3";
    assert ConcatFiles(xs) == Ok("" + "this is file2" + "\n" + "this is file3" + "\n");
    assert "" + "this is file2" + "\n" + "this is file3" + "\n" == "this is file2\nthis is file3\n";
  }

  /** `concatObjects` rejects a file, an empty folder and a folder that
      holds a folder. */
  lemma ConcatObjectsRejects()
    ensures ConcatObjects(ConcatStore, "File2") == Err(INVALID_OPERATION)
    ensures ConcatObjects(ConcatStore, "Folder3") == Err(INVALID_OPERATION)
    ensures ConcatObjects(ConcatStore, "Folder") == Err(INVALID_OPERATION)
  {
    ConcatStoreLookups();
    var xs := FetchAll(ConcatStore, ["Folder2"]);
    assert xs == [Some(FolderRecord("Folder2", ["File2", "File3"]))];
    assert xs[..0] == [];
  }

  /** `findContent`: the names of the files whose text includes the search
      string, in child order. */
  lemma FindContentScenario()
    ensures FindContent(ConcatStore, "this is", "Folder2") == Ok(["File2", "File3"])
  {
    ConcatStoreLookups();
    var xs := FetchAll(ConcatStore, ["File2", "File3"]);
    assert xs == [Some(FileRecord("File2", "this is file2")), Some(FileRecord("File3", "this is file3"))];
    var rest := xs[1..];
    assert rest[1..] == [];
    assert MatchingNames(rest[1..], "this is") == Ok([]);
    assert "this is" <= "this is file3"[0..];
    assert Includes("this is file3", "this is");
    assert Readable(rest[0]) && rest[0].value.name == "File3";
    assert MatchingNames(rest, "this is") == Ok(["File3"] + []);
    assert ["File3"] + [] == ["File3"];
    assert "this is" <= "this is file2"[0..];
    assert Includes("this is file2", "this is");
    assert Readable(xs[0]) && xs[0].value.name == "File2";
    assert xs[0].value.body.contents.value == "this is file2";
    assert MatchingNames(xs[1..], "this is") == Ok(["File3"]);
    assert MatchingNames(xs, "this is") == Ok(["File2"] + ["File3"]);
    assert ["File2"] + ["File3"] == ["File2", "File3"];
  }

  /** `findContent` resolves with no names when no file matches. */
  lemma FindContentNoMatch()
    ensures FindContent(ConcatStore, "nonexistentString", "Folder2") == Ok([])
  {
    ConcatStoreLookups();
    var xs := FetchAll(ConcatStore, ["File2", "File3"]);
    assert xs == [Some(FileRecord("File2", "this is file2")), Some(FileRecord("File3", "this is file3"))];
    var rest := xs[1..];
    assert rest[1..] == [];
    assert MatchingNames(rest[1..], "nonexistentString") == Ok([]);
    assert !Includes("this is file3", "nonexistentString");
    assert MatchingNames(rest, "nonexistentString") == Ok([]);
    assert !Includes("this is file2", "nonexistentString");
  }

  /** `findContent` rejects a file and a folder that holds a folder. */
  lemma FindContentRejects()
    ensures FindContent(ConcatStore, "this is", "File2") == Err(INVALID_OPERATION)
    ensures FindContent(ConcatStore, "this is", "Folder") == Err(INVALID_OPERATION)
  {
    ConcatStoreLookups();
    var xs := FetchAll(ConcatStore, ["Folder2"]);
    assert xs == [Some(FolderRecord("Folder2", ["File2", "File3"]))];
  }

  const TwoFolders: seq<FsObject> := [
    FolderRecord("Folder", ["Folder2"]),
    FolderRecord("Folder2", [])
  ]

  lemma TwoFoldersLookups()
    ensures Fetch(TwoFolders, "Folder") == Some(FolderRecord("Folder", ["Folder2"]))
    ensures Fetch(TwoFolders, "Folder2") == Some(FolderRecord("Folder2", []))
  {
    var s := TwoFolders;
    assert UniqueIds(s);
    FetchUnique(s, 0);
    FetchUnique(s, 1);
  }

  /** `moveTo`: one step from a folder reaches the child named by the path. */
  lemma MoveToScenario()
    ensures MoveTo(TwoFolders, "Folder", ["Folder2"]) == Ok(Some(FolderRecord("Folder2", [])))
  {
    TwoFoldersLookups();
    var xs := FetchAll(TwoFolders, ["Folder2"]);
    assert xs == [Some(FolderRecord("Folder2", []))];
    assert FindByName(xs, "Folder2") == Found(FolderRecord("Folder2", []));
    assert MoveTo(TwoFolders, "Folder", ["Folder2"]) ==
           Step(TwoFolders, MoveTo(TwoFolders, "Folder", []), "Folder2");
  }

  /** `createFolder`: the new folder is appended to its parent's children;
      a name the parent already lists is rejected. */
  lemma CreateFolderScenario(freshId: string)
    ensures CreateEffect(TwoFolders, NewFolder("newFolder"), "Folder", freshId).result ==
            Ok(Created(NewFolder("newFolder"), FolderRecord("Folder", ["Folder2", "newFolder"])))
    ensures CreateEffect(TwoFolders, NewFolder("Folder2"), "Folder", freshId).result == Err(NAME_NOT_UNIQUE)
  {
    TwoFoldersLookups();
    assert ["Folder2"] + ["newFolder"] == ["Folder2", "newFolder"];
  }

  /** The store of the file-creation test; its `File` entry is tagged as a
      folder and its children are never read. */
  const FileParent: seq<FsObject> := [
    FolderRecord("Folder", ["File"]),
    FolderRecord("File", [])
  ]

  /** `createFile`: the new record keeps its text under `content`; a name the
      parent already lists is rejected. */
  lemma CreateFileScenario(freshId: string)
    ensures CreateEffect(FileParent, NewFile("newFile", "this is a new file"), "Folder", freshId).result ==
            Ok(Created(FsObject("newFile", "newFile", File(Some("this is a new file"), None)),
                       FolderRecord("Folder", ["File", "newFile"])))
    ensures CreateEffect(FileParent, NewFile("File", "this is a new file"), "Folder", freshId).result ==
            Err(NAME_NOT_UNIQUE)
  {
    var s := FileParent;
    assert UniqueIds(s);
    FetchUnique(s, 0);
    assert ["File"] + ["newFile"] == ["File", "newFile"];
  }

  const DeleteStore: seq<FsObject> := [
    FolderRecord("Folder", ["File", "Folder2"]),
    FileRecord("File", ""),
    FolderRecord("Folder2", ["File2"]),
    FileRecord("File2", "")
  ]

  lemma DeleteStoreLookups()
    ensures Fetch(DeleteStore, "Folder") == Some(DeleteStore[0])
    ensures Fetch(DeleteStore, "File") == Some(DeleteStore[1])
    ensures Fetch(DeleteStore, "Folder2") == Some(DeleteStore[2])
    ensures Fetch(DeleteStore, "nonexistentFolder") == None
  {
    var s := DeleteStore;
    assert UniqueIds(s);
    FetchUnique(s, 0);
    FetchUnique(s, 1);
    FetchUnique(s, 2);
    FetchSound(s, "nonexistentFolder");
  }

  /** The children of `Folder` in the delete test, fetched and searched. */
  lemma DeleteStoreChildren()
    ensures var xs := FetchAll(DeleteStore, DeleteStore[0].body.children);
            && xs == [Some(DeleteStore[1]), Some(DeleteStore[2])]
            && FindByName(xs, "File") == Found(DeleteStore[1])
            && FindByName(xs, "Folder2") == Found(DeleteStore[2])
            && FindByName(xs, "nonexistentFile") == Absent
  {
    DeleteStoreLookups();
    var xs := FetchAll(DeleteStore, DeleteStore[0].body.children);
    assert NoMatchBefore(xs, "nonexistentFile", 2);
  }

  /** `deleteObject`: the file is removed and its parent no longer lists it. */
  lemma DeleteObjectScenario()
    ensures DeleteEffect(DeleteStore, "File", "Folder").result ==
            Ok(Deleted(Some(FileRecord("File", "")), FolderRecord("Folder", ["Folder2"])))
  {
    var s := DeleteStore;
    DeleteStoreLookups();
    DeleteStoreChildren();
    WithoutFile();
    var parent := FolderRecord("Folder", ["Folder2"]);
    DeleteUnfolds(s, "File", "Folder", s[0], s[1]);
    DeletedRecord(parent);
  }

  /** The result of a delete whose target is found and may be removed. */
  lemma DeleteUnfolds(o: seq<FsObject>, targetName: string, parentId: string, p: FsObject, t: FsObject)
    requires Fetch(o, parentId) == Some(p) && p.IsFolder()
    requires FindByName(FetchAll(o, p.body.children), targetName) == Found(t)
    requires !(t.IsFolder() && |t.body.children| > 0)
    ensures var parent := WithChildren(p, Without(p.body.children, t.id));
            DeleteEffect(o, targetName, parentId).result == Ok(Deleted(FirstRecord(Replaced(o, parent), t.id), parent))
  {
  }

  lemma WithoutFile()
    ensures Without(["File", "Folder2"], "File") == ["Folder2"]
  {
    var s := ["File", "Folder2"];
    assert s[1..] == ["Folder2"];
    assert s[1..][1..] == [];
  }

  /** After the parent is written back, the first `File` record is still
      the file itself. */
  lemma DeletedRecord(parent: FsObject)
    requires parent.id == "Folder"
    ensures FirstRecord(Replaced(DeleteStore, parent), "File") == Some(FileRecord("File", ""))
  {
    var s := DeleteStore;
    FirstIndexIs(s, "Folder", 0);
    FirstIndexIs(s[0 := parent], "File", 1);
  }

  /** `deleteObject` rejects a missing parent and a file as parent. */
  lemma DeleteObjectInvalidParent()
    ensures DeleteEffect(DeleteStore, "File", "nonexistentFolder").result == Err(INVALID_PARENT)
    ensures DeleteEffect(DeleteStore, "File", "File").result == Err(INVALID_PARENT)
  {
    DeleteStoreLookups();
  }

  /** `deleteObject` rejects a name the parent does not list. */
  lemma DeleteObjectTargetNotFound()
    ensures DeleteEffect(DeleteStore, "nonexistentFile", "Folder").result == Err(TARGET_NOT_FOUND)
  {
    DeleteStoreLookups();
    DeleteStoreChildren();
  }

  /** `deleteObject` rejects a non-empty folder, yet the folder's record is
      gone from the store. */
  lemma DeleteObjectNotEmpty()
    ensures var out := DeleteEffect(DeleteStore, "Folder2", "Folder");
            out.result == Err(FOLDER_NOT_EMPTY) && Fetch(out.objects, "Folder2") == None
  {
    var s := DeleteStore;
    DeleteStoreLookups();
    DeleteStoreChildren();
    assert DeleteEffect(s, "Folder2", "Folder") == Outcome(Err(FOLDER_NOT_EMPTY), Removed(s, "Folder2"));
    RemovedFolder2();
  }

  lemma RemovedFolder2()
    ensures Fetch(Removed(DeleteStore, "Folder2"), "Folder2") == None
  {
    var s := DeleteStore;
    FirstIndexIs(s, "Folder2", 2);
    var r := Removed(s, "Folder2");
    assert r == [s[0], s[1], s[3]];
    FetchSound(r, "Folder2");
  }

  const MoveStore: seq<FsObject> := [
    FolderRecord("Folder", ["File", "Folder2", "File2"]),
    FileRecord("File", ""),
    FolderRecord("Folder2", ["File2"]),
    FileRecord("File2", "")
  ]

  lemma MoveStoreLookups()
    ensures Fetch(MoveStore, "Folder") == Some(MoveStore[0])
    ensures Fetch(MoveStore, "File") == Some(MoveStore[1])
    ensures Fetch(MoveStore, "Folder2") == Some(MoveStore[2])
    ensures Fetch(MoveStore, "File2") == Some(MoveStore[3])
  {
    var s := MoveStore;
    assert UniqueIds(s);
    FetchUnique(s, 0);
    FetchUnique(s, 1);
    FetchUnique(s, 2);
    FetchUnique(s, 3);
  }

  /** The children of `Folder` in the move test, fetched. */
  lemma MoveStoreChildren()
    ensures FetchAll(MoveStore, MoveStore[0].body.children) == [Some(MoveStore[1]), Some(MoveStore[2]), Some(MoveStore[3])]
  {
    MoveStoreLookups();
  }

  /** A one-segment path is one step from the fetched root. */
  lemma OneStep(objs: seq<FsObject>, rootId: string, segment: string)
    ensures MoveTo(objs, rootId, [segment]) == Step(objs, Ok(Fetch(objs, rootId)), segment)
  {
    assert [segment][..0] == [];
  }

  /** The searches of the move test among the children of `Folder`. */
  lemma MoveStoreSearches()
    ensures var xs := [Some(MoveStore[1]), Some(MoveStore[2]), Some(MoveStore[3])];
            && FindByName(xs, "Folder2") == Found(MoveStore[2])
            && FindByName(xs, "File") == Found(MoveStore[1])
            && FindByName(xs, "NonExistentFolder") == Absent
  {
    var xs := [Some(MoveStore[1]), Some(MoveStore[2]), Some(MoveStore[3])];
    assert NoMatchBefore(xs, "NonExistentFolder", 3);
  }

  /** Each one-segment path from `Folder` in the move test. */
  lemma MoveStoreDestinations()
    ensures MoveTo(MoveStore, "Folder", ["Folder2"]) == Ok(Some(MoveStore[2]))
    ensures MoveTo(MoveStore, "Folder", ["File"]) == Ok(Some(MoveStore[1]))
    ensures MoveTo(MoveStore, "Folder", ["NonExistentFolder"]) == Ok(None)
  {
    var s := MoveStore;
    MoveStoreLookups();
    MoveStoreChildren();
    MoveStoreSearches();
    OneStep(s, "Folder", "Folder2");
    OneStep(s, "Folder", "File");
    OneStep(s, "Folder", "NonExistentFolder");
  }

  /** `moveObject`: the file leaves its old parent and is appended to the
      new one. */
  lemma MoveObjectScenario()
    ensures MoveEffect(MoveStore, "File", "Folder", "Folder", ["Folder2"]).result ==
            Ok(Moved("File", FolderRecord("Folder", ["Folder2", "File2"]), FolderRecord("Folder2", ["File2", "File"])))
  {
    var s := MoveStore;
    MovePreconditions();
    MovedParents();
    MoveResultIs(s, "File", "Folder", "Folder", ["Folder2"], s[2], s[0], 0,
                 FolderRecord("Folder", ["Folder2", "File2"]), FolderRecord("Folder2", ["File2", "File"]));
  }

  /** `MoveEffectOk` with both written parents given by value. */
  lemma MoveResultIs(o: seq<FsObject>, targetName: string, rootId: string, currentParentId: string,
                     path: seq<string>, dest: FsObject, cp: FsObject, i: int, oldParent: FsObject, newParent: FsObject)
    requires MoveTo(o, rootId, path) == Ok(Some(dest)) && dest.IsFolder()
    requires Fetch(o, currentParentId) == Some(cp) && cp.IsFolder()
    requires i == Position(cp.body.children, targetName) && 0 <= i
    requires targetName !in dest.body.children
    requires var kids := cp.body.children;
             && WithChildren(cp, kids[..i] + kids[i + 1..]) == oldParent
             && WithChildren(dest, dest.body.children + [kids[i]]) == newParent
    ensures MoveEffect(o, targetName, rootId, currentParentId, path).result == Ok(Moved(targetName, oldParent, newParent))
  {
    MoveEffectOk(o, targetName, rootId, currentParentId, path, dest, cp, i);
  }

  /** The two parents the successful move in the move test writes. */
  lemma MovedParents()
    ensures var kids := MoveStore[0].body.children;
            && kids[0] == "File"
            && WithChildren(MoveStore[0], kids[..0] + kids[1..]) == FolderRecord("Folder", ["Folder2", "File2"])
            && WithChildren(MoveStore[2], MoveStore[2].body.children + [kids[0]]) == FolderRecord("Folder2", ["File2", "File"])
  {
    var kids := MoveStore[0].body.children;
    assert kids[..0] + kids[1..] == ["Folder2", "File2"];
    assert ["File2"] + ["File"] == ["File2", "File"];
  }

  /** The checks of the successful move in the move test all pass. */
  lemma MovePreconditions()
    ensures MoveTo(MoveStore, "Folder", ["Folder2"]) == Ok(Some(MoveStore[2]))
    ensures Fetch(MoveStore, "Folder") == Some(MoveStore[0])
    ensures Position(MoveStore[0].body.children, "File") == 0
  {
    MoveStoreLookups();
    MoveStoreDestinations();
  }

  /** `moveObject` rejects a name the destination already lists, a file as
      destination, a path that leads nowhere, and a target its parent does
      not list. */
  lemma MoveObjectRejects()
    ensures MoveEffect(MoveStore, "File2", "Folder", "Folder", ["Folder2"]).result == Err(NAME_NOT_UNIQUE)
    ensures MoveEffect(MoveStore, "Folder2", "Folder", "Folder", ["File"]).result == Err(INVALID_OPERATION)
    ensures MoveEffect(MoveStore, "File", "Folder", "Folder", ["NonExistentFolder"]).result == Err(INVALID_OPERATION)
    ensures MoveEffect(MoveStore, "NonExistentFile", "Folder", "Folder", ["Folder2"]).result == Err(TARGET_NOT_FOUND)
  {
    MoveStoreLookups();
    MoveStoreDestinations();
  }
}
