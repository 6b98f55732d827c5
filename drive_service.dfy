/** The part of the Drive host service that folder resolution talks to:
    files and their parent folders, folder lookup by id, the root folder,
    the iterator that `File.getParents` hands out, and folder creation. */
module DriveService {
  import opened Wrappers

  /** Drive ids and URLs are opaque strings handed out by the host. */
  type Id = string

  datatype Folder = Folder(id: Id, name: string, url: string)

  /** A file as the resolver sees it: its display name and its parent folders
      in the order the host enumerates them. */
  datatype DriveFile = DriveFile(id: Id, name: string, parents: seq<Folder>)

  /** Access grades `Folder.getAccess` reports for a user. */
  datatype Permission = View | Comment | Edit | Owner | Organizer | FileOrganizer | NoAccess

  datatype DriveError =
    | FileNotFound(fileId: Id)
    | FolderNotFound(folderId: Id)
    | CreationFailed

  /** What the host does when asked to create a folder: hand out a new id and
      URL, or throw (quota, invalid name, permission revoked, ...). */
  datatype CreateResponse = Created(newId: Id, newUrl: string) | Throws

  /** The iterator returned by `File.getParents`: what it has not yet yielded. */
  class FolderIterator {
    var remaining: seq<Folder>

    constructor (folders: seq<Folder>)
      ensures remaining == folders
    {
      remaining := folders;
    }

    function HasNext(): (b: bool)
      reads this
      ensures b <==> remaining != []
    {
      remaining != []
    }

    method Next() returns (f: Folder)
      requires remaining != []
      modifies this
      ensures [f] + remaining == old(remaining)
    {
      f := remaining[0];
      remaining := remaining[1..];
    }
  }

  class Drive {
    const root: Folder
    const files: map<Id, DriveFile>
    /** Every folder the host knows, by id. */
    var folders: map<Id, Folder>
    /** For each folder created through this model, the id of its parent. */
    var placement: map<Id, Id>

    constructor (root: Folder, files: map<Id, DriveFile>, folders: map<Id, Folder>)
      ensures this.root == root && this.files == files
      ensures this.folders == folders[root.id := root] && placement == map[]
    {
      this.root := root;
      this.files := files;
      this.folders := folders[root.id := root];
      placement := map[];
    }

    /** `DriveApp.getFileById`, which throws for an unknown id. */
    function FileById(id: Id): (r: Result<DriveFile, DriveError>)
      ensures r.Success? <==> id in files
      ensures r.Success? ==> r.value == files[id]
      ensures r.Failure? ==> r.error == FileNotFound(id)
    {
      if id in files then Success(files[id]) else Failure(FileNotFound(id))
    }

    /** `DriveApp.getFolderById`, which throws for an unknown id. */
    function FolderById(id: Id): (r: Result<Folder, DriveError>)
      reads this
      ensures r.Success? <==> id in folders
      ensures r.Success? ==> r.value == folders[id]
      ensures r.Failure? ==> r.error == FolderNotFound(id)
    {
      if id in folders then Success(folders[id]) else Failure(FolderNotFound(id))
    }

    /** `Folder.createFolder`: on success the new folder is registered under
        `parent`; when the host throws, nothing changes. */
    method CreateFolder(parent: Folder, name: string, response: CreateResponse)
      returns (r: Result<Folder, DriveError>)
      modifies this
      ensures response.Throws? ==> r == Failure(CreationFailed) && unchanged(this)
      ensures response.Created? ==>
        && r == Success(Folder(response.newId, name, response.newUrl))
        && folders == old(folders)[response.newId := r.value]
        && placement == old(placement)[response.newId := parent.id]
    {
      match response
      case Throws =>
        r := Failure(CreationFailed);
      case Created(newId, newUrl) =>
        var folder := Folder(newId, name, newUrl);
        folders := folders[newId := folder];
        placement := placement[newId := parent.id];
        r := Success(folder);
    }
  }
}
