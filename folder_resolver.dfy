/** Choosing the Drive folder that receives the merge output
    (`createTargetFolder`, `getParentsFolders_`) and the deprecated
    writable-folder filter (`selectAvailableFolders_`), which
    `createTargetFolder` does not call. */
module FolderResolver {
  import opened Wrappers
  import opened Seqs
  import opened DriveService

  /** Every merge folder is named after its template with this prefix. */
  const MergeFolderPrefix: string := "[差し込み文書]"

  function MergeFolderName(templateName: string): (name: string)
    ensures |name| == |MergeFolderPrefix| + |templateName|
    ensures name[..|MergeFolderPrefix|] == MergeFolderPrefix
    ensures name[|MergeFolderPrefix|..] == templateName
  {
    MergeFolderPrefix + templateName
  }

  /** JavaScript truthiness of the optional `parentId` argument: absent and
      the empty string are both falsy. */
  predicate IsProvided(parentId: Option<Id>): (b: bool)
    ensures !b <==> parentId == None || parentId == Some("")
  {
    parentId.Some? && parentId.value != ""
  }

  /** The candidate list `parentFolders` once the root fallback is applied:
      the requested folder alone, else the template's parents, else the root. */
  function Candidates(requested: Option<Folder>, parents: seq<Folder>, root: Folder): (c: seq<Folder>)
    ensures |c| >= 1
    ensures forall f :: f in c ==> f == root || f in parents || requested == Some(f)
    ensures requested.Some? ==> c == [requested.value]
  {
    var listed := if requested.Some? then [requested.value] else parents;
    if listed == [] then [root] else listed
  }

  /** The folder the merge folder is created in: always the first candidate. */
  function Destination(requested: Option<Folder>, parents: seq<Folder>, root: Folder): (d: Folder)
    ensures requested == Some(d) || (requested == None && (if parents == [] then d == root else d == parents[0]))
  {
    Candidates(requested, parents, root)[0]
  }

  /** An explicitly requested folder wins, whatever parents the template has. */
  lemma DestinationRequested(f: Folder, parents: seq<Folder>, root: Folder)
    ensures Candidates(Some(f), parents, root) == [f]
    ensures Destination(Some(f), parents, root) == f
  {
  }

  /** A template with no parents and no requested folder lands in the root. */
  lemma DestinationRootFallback(root: Folder)
    ensures Candidates(None, [], root) == [root]
    ensures Destination(None, [], root) == root
  {
  }

  /** Without a request the first parent is used; further parents never
      change the choice. */
  lemma DestinationFirstParent(first: Folder, others: seq<Folder>, root: Folder)
    ensures Candidates(None, [first] + others, root) == [first] + others
    ensures Destination(None, [first] + others, root) == first
  {
  }

  /** The candidate list is never empty and the destination is on it. */
  lemma DestinationIsCandidate(requested: Option<Folder>, parents: seq<Folder>, root: Folder)
    ensures |Candidates(requested, parents, root)| >= 1
    ensures Destination(requested, parents, root) in Candidates(requested, parents, root)
  {
  }

  /** `getParentsFolders_`: drains the parent iterator of `file` into a list. */
  method GetParentsFolders(file: DriveFile) returns (parentFolders: seq<Folder>)
    ensures parentFolders == file.parents
  {
    parentFolders := [];
    var folders := new FolderIterator(file.parents);
    while folders.HasNext()
      invariant parentFolders + folders.remaining == file.parents
      decreases |folders.remaining|
    {
      var folder := folders.Next();
      parentFolders := parentFolders + [folder];
    }
  }

  /** `createTargetFolder`: creates the merge folder for the template in the
      chosen destination and returns it, or returns the root folder when the
      host refuses to create it. Unknown template or folder ids are not
      caught and surface as failures. */
  method CreateTargetFolder(drive: Drive, templateDocumentId: Id, parentId: Option<Id>,
                            response: CreateResponse)
    returns (r: Result<Folder, DriveError>)
    modifies drive
    ensures r.Success? <==>
      templateDocumentId in drive.files &&
      (IsProvided(parentId) ==> parentId.value in old(drive.folders))
    ensures templateDocumentId !in drive.files ==>
      r == Failure(FileNotFound(templateDocumentId)) && unchanged(drive)
    ensures templateDocumentId in drive.files && IsProvided(parentId) &&
            parentId.value !in old(drive.folders) ==>
      r == Failure(FolderNotFound(parentId.value)) && unchanged(drive)
    ensures r.Success? ==>
      var template := drive.files[templateDocumentId];
      var requested := if IsProvided(parentId) then Some(old(drive.folders)[parentId.value]) else None;
      var destination := Destination(requested, template.parents, drive.root);
      match response
      case Throws =>
        r.value == drive.root && unchanged(drive)
      case Created(newId, newUrl) =>
        && r.value == Folder(newId, MergeFolderName(template.name), newUrl)
        && drive.folders == old(drive.folders)[newId := r.value]
        && drive.placement == old(drive.placement)[newId := destination.id]
  {
    var fileLookup := drive.FileById(templateDocumentId);
    if fileLookup.Failure? {
      return Failure(fileLookup.error);
    }
    var templateDocument := fileLookup.value;
    var parentFolders: seq<Folder> := [];
    if IsProvided(parentId) {
      var folderLookup := drive.FolderById(parentId.value);
      if folderLookup.Failure? {
        return Failure(folderLookup.error);
      }
      parentFolders := parentFolders + [folderLookup.value];
    } else {
      var parents := GetParentsFolders(templateDocument);
      parentFolders := parentFolders + parents;
    }

    if |parentFolders| == 0 {
      parentFolders := parentFolders + [drive.root];
    }

    var availableFolder := parentFolders[0];

    var targetFolder: Folder;
    var created := drive.CreateFolder(availableFolder, MergeFolderName(templateDocument.name), response);
    if created.Success? {
      targetFolder := created.value;
    } else {
      targetFolder := drive.root;
    }
    r := Success(targetFolder);
  }

  /** The grades that allow writing into a folder. */
  predicate CanWrite(p: Permission): (b: bool)
    ensures !b <==> p == View || p == Comment || p == NoAccess
  {
    p == Edit || p == Owner || p == Organizer || p == FileOrganizer
  }

  /** Whether the active user, whose grades `access` reports, can write to a folder. */
  function WritableUnder(access: Folder -> Permission): Folder -> bool
  {
    f => CanWrite(access(f))
  }

  /** What `selectAvailableFolders_` returns: the writable folders in input
      order, or the root alone when there is none. */
  function AvailableFolders(folders: seq<Folder>, access: Folder -> Permission, root: Folder): seq<Folder>
  {
    var writable := Filter(folders, WritableUnder(access));
    if writable == [] then [root] else writable
  }

  /** `selectAvailableFolders_` (deprecated): keeps the folders the active
      user may write to, falling back to the root folder. */
  method SelectAvailableFolders(drive: Drive, folders: seq<Folder>, access: Folder -> Permission)
    returns (availableFolders: seq<Folder>)
    ensures availableFolders == AvailableFolders(folders, access, drive.root)
  {
    availableFolders := [];
    for i := 0 to |folders|
      invariant availableFolders == Filter(folders[..i], WritableUnder(access))
    {
      var folder := folders[i];
      var permission := access(folder);
      FilterAppend(folders[..i], [folder], WritableUnder(access));
      assert folders[..i + 1] == folders[..i] + [folder];
      if CanWrite(permission) {
        availableFolders := availableFolders + [folder];
      }
    }
    assert folders[..|folders|] == folders;
    if |availableFolders| == 0 {
      availableFolders := availableFolders + [drive.root];
    }
  }

  /** The result of `selectAvailableFolders_` is never empty; it is the root
      alone when nothing is writable, and otherwise exactly the writable
      folders, in input order. */
  lemma AvailableFoldersSpec(folders: seq<Folder>, access: Folder -> Permission, root: Folder)
    ensures |AvailableFolders(folders, access, root)| >= 1
    ensures (forall i :: 0 <= i < |folders| ==> !CanWrite(access(folders[i]))) ==>
      AvailableFolders(folders, access, root) == [root]
    ensures (exists i :: 0 <= i < |folders| && CanWrite(access(folders[i]))) ==>
      && IsSubsequence(AvailableFolders(folders, access, root), folders)
      && (forall f :: f in AvailableFolders(folders, access, root) <==> f in folders && CanWrite(access(f)))
      && (forall f :: multiset(AvailableFolders(folders, access, root))[f] ==
            if CanWrite(access(f)) then multiset(folders)[f] else 0)
  {
    var writable := Filter(folders, WritableUnder(access));
    FilterEmpty(folders, WritableUnder(access));
    FilterIsSubsequence(folders, WritableUnder(access));
    forall f
      ensures f in writable <==> f in folders && CanWrite(access(f))
      ensures multiset(writable)[f] == if CanWrite(access(f)) then multiset(folders)[f] else 0
    {
      FilterMembership(folders, WritableUnder(access), f);
      FilterMultiplicity(folders, WritableUnder(access), f);
    }
  }

  /** With exactly one writable folder among the input, that folder alone is selected. */
  lemma AvailableFoldersSingleWritable(before: seq<Folder>, w: Folder, after: seq<Folder>,
                                       access: Folder -> Permission, root: Folder)
    requires forall i :: 0 <= i < |before| ==> !CanWrite(access(before[i]))
    requires CanWrite(access(w))
    requires forall i :: 0 <= i < |after| ==> !CanWrite(access(after[i]))
    ensures AvailableFolders(before + [w] + after, access, root) == [w]
  {
    var p := WritableUnder(access);
    FilterAppend(before + [w], after, p);
    FilterAppend(before, [w], p);
    FilterEmpty(before, p);
    FilterEmpty(after, p);
  }
}
