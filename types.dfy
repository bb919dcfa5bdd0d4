/**
 * Records of the virtual filesystem and the two error vocabularies it uses.
 *
 * A record is a JSON object with an `id`, a `name` and a `type` tag; folders
 * carry an ordered list of child ids, files a text payload. The payload is
 * written under the key `content` by file creation and read under the key
 * `contents` by every reader, so a file record keeps both keys, each of which
 * may be missing.
 */
module FsTypes {

  datatype Option<+T> = None | Some(value: T)

  /** The rejection reasons of the filesystem operations. */
  datatype Error =
    | INVALID_OPERATION
    | INVALID_PARENT
    | NAME_NOT_UNIQUE
    | TARGET_NOT_FOUND
    | FOLDER_NOT_EMPTY
      /** A JavaScript TypeError raised by reading a field of `undefined`
          (a missing record, or the `children` of a file), which the
          promise chain's final `.catch(reject)` turns into a rejection. */
    | TYPE_ERROR

  /** A settled operation: resolved with a value or rejected with a reason. */
  datatype Result<+T> = Ok(value: T) | Err(error: Error)

  /** The `type` tag and the fields that go with it. */
  datatype Body =
    | Folder(children: seq<string>)
    | File(content: Option<string>, contents: Option<string>)

  datatype FsObject = FsObject(id: string, name: string, body: Body)
  {
    predicate IsFolder() { body.Folder? }
    predicate IsFile() { body.File? }
  }

  /** The folder record built by `createFolder`: its id is its name. */
  function NewFolder(name: string): (r: FsObject)
    ensures r.id == name && r.name == name
    ensures r.IsFolder() && r.body.children == []
  {
    FsObject(name, name, Folder([]))
  }

  /** The file record built by `createFile`: the text goes under `content`. */
  function NewFile(name: string, content: string): (r: FsObject)
    ensures r.id == name && r.name == name
    ensures r.IsFile() && r.body.content == Some(content) && r.body.contents == None
  {
    FsObject(name, name, File(Some(content), None))
  }
}
