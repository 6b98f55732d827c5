# Mail-merge add-on: folder resolution and document transplant

This project models the selection and dispatch logic in the Google Docs
mail-merge add-on script `Code.js`. It has three parts:

- **Destination folder** (`createTargetFolder`, `getParentsFolders_`). The
  resolver takes either the explicitly requested parent folder or all parents
  of the template file. If there are none, it uses the Drive root. It always
  picks the first candidate. It then creates the folder
  `[差し込み文書]<template name>` there. If the host throws while creating
  that folder, the result is the root folder itself.
- **Writable-folder filter** (`selectAvailableFolders_`, deprecated). It keeps,
  in input order, the folders where the active user holds EDIT, OWNER,
  ORGANIZER or FILE_ORGANIZER, and falls back to `[root]`. As in the script,
  nothing calls it from the resolver.
- **Transplant** (`replaceAndAppendDocument`). It copies the active (template)
  document's body and runs `replaceText` on the copy once per field code of
  the merge data. It then walks the copy's top-level children in order. Each
  horizontal rule, inline image, list item, page break, paragraph or table goes
  to the matching `append` call on the target body. Any other type is logged
  and skipped. Finally the target is saved and closed once.

Host services are modelled only as far as these rules touch them:

- `DriveService` covers files with their parents, folders by id, the root
  folder, the parent iterator and folder creation.
- `DocumentService` covers a body as a sequence of typed elements, plus the
  `copy`, `replaceText`, `append*` and `saveAndClose` calls.
- `Seqs` holds the order-preserving filter that both the folder filter and the
  element dispatch rest on, with its lemmas.

Where the script depends on the outside world, the model takes that as an
input:

- The host's answer to `createFolder` is a parameter, `CreateResponse`: either
  `Created(newId, newUrl)` or `Throws`.
- The active user's permission grades are a function parameter, `access`.
- `replaceText` is an opaque function parameter, `rewrite`, applied to the
  whole copied body.
- The merge-data object is a sequence of (field code, value) pairs in
  enumeration order.

Three behaviours of the script are worth stating plainly:

- `createTargetFolder` does not filter its candidate folders by permission.
  It uses the first candidate whatever the active user's grade there.
- When folder creation throws, `createTargetFolder` returns the root folder
  itself. It does not try again to create the merge folder under the root.
- An unknown `parentId` or template id is not caught. The script throws, and
  the model returns a `Failure`.

## Model

| member | source | states |
|---|---|---|
| FolderResolver.GetParentsFolders | Code.js:303-311 | the list is exactly the file's parents as the iterator yields them, in order, nothing added or dropped |
| FolderResolver.CreateTargetFolder | Code.js:89-122 | fails only for an unknown template id or an unknown provided parent id, and then changes nothing; otherwise, if the host throws, returns the root folder and changes nothing; else returns the new folder named with the merge prefix and registers it under `Destination` of the requested folder or the template's parents |
| FolderResolver.MergeFolderName | Code.js:112 | the folder name is the fixed prefix followed by the template's name |
| FolderResolver.IsProvided | Code.js:92 | `parentId` counts as absent exactly when it is missing or the empty string (JavaScript falsiness) |
| FolderResolver.Candidates | Code.js:91-102 | the candidate list is never empty; each entry is the requested folder, a parent of the template or the root; a requested folder stands alone |
| FolderResolver.Destination | Code.js:104 | the destination is the requested folder if there is one, else the first parent, else the root |
| FolderResolver.CanWrite | Code.js:323-326 | a grade allows writing exactly when it is not VIEW, COMMENT or NONE, i.e. it is EDIT, OWNER, ORGANIZER or FILE_ORGANIZER |
| FolderResolver.DestinationRequested | Code.js:92-98 | with a requested folder the candidate list is that folder alone, whatever parents the template has |
| FolderResolver.DestinationRootFallback | Code.js:97-102 | no requested folder and no parents gives the root folder |
| FolderResolver.DestinationFirstParent | Code.js:104-107 | without a request the first parent is used; further parents do not change the choice |
| FolderResolver.DestinationIsCandidate | Code.js:100-104 | the candidate list is never empty and the folder used is on it |
| FolderResolver.SelectAvailableFolders | Code.js:318-338 | the result is `AvailableFolders`: the writable folders in input order, or `[root]` when none is writable |
| FolderResolver.AvailableFoldersSpec | Code.js:321-337 | the result is never empty; with no writable folder it is `[root]`; otherwise it is an order-preserving subsequence of the input holding exactly the folders with a writable grade, each as many times as it occurs in the input |
| FolderResolver.AvailableFoldersSingleWritable | Code.js:321-337 | with exactly one writable folder in the input, the result is that folder alone |
| DriveService.Drive.FileById | Code.js:90 | a known id yields that file; an unknown id is a `FileNotFound` failure |
| DriveService.Drive.FolderById | Code.js:93 | a known id yields that folder; an unknown id is a `FolderNotFound` failure |
| DriveService.Drive.CreateFolder | Code.js:112 | when the host throws, nothing changes and the call fails; otherwise the new folder is added with the given name and placed under the parent |
| DriveService.FolderIterator.HasNext | Code.js:306 | there is a next parent exactly when some parent has not been yielded yet |
| DriveService.FolderIterator.Next | Code.js:306-308 | yields the first remaining parent and removes it |
| Transplant.ReplaceAndAppendDocument | Code.js:209-251 | the target keeps its content, gains `Transplanted` of the substituted copy and is saved and closed once, after the appends, so the saved content is the final body; the reported types are `Skipped` of that copy; the template body is unchanged unless it is the target itself |
| Transplant.SubstitutedAppend | Code.js:216-219 | substitution applies the field codes one after another in enumeration order: two batches in sequence equal their concatenation |
| Transplant.TransplantedAllKnown | Code.js:221-248 | a body of known types is appended whole and in order, and nothing is reported |
| Transplant.TransplantedSkipsUnknown | Code.js:226-247 | one unknown element among known ones is the only one left out; the rest keep their order and only its type is reported |
| Transplant.TransplantedCount | Code.js:221-248 | every top-level child is either appended or reported: the target grows by the number of supported children |
| Transplant.TransplantedOrder | Code.js:222-244 | the appended elements are an order-preserving subsequence of the copy holding exactly its supported elements, each as many times as it occurs in the copy |
| DocumentService.Body.NumChildren | Code.js:221 | the count is the number of top-level children |
| DocumentService.Body.Child | Code.js:223 | the child at an index is that top-level element of the body |
| DocumentService.Body.Copy | Code.js:212-214 | the copy is a new body with the same children, detached from the template |
| DocumentService.Body.ReplaceText | Code.js:218 | the body becomes the host rewrite of its children |
| DocumentService.Body.AppendHorizontalRule | Code.js:227-228 | accepts only a horizontal rule and appends it at the end |
| DocumentService.Body.AppendImage | Code.js:230-231 | accepts only an inline image and appends it at the end |
| DocumentService.Body.AppendListItem | Code.js:233-234 | accepts only a list item and appends it at the end |
| DocumentService.Body.AppendPageBreak | Code.js:236-237 | accepts only a page break and appends it at the end |
| DocumentService.Body.AppendParagraph | Code.js:239-240 | accepts only a paragraph and appends it at the end |
| DocumentService.Body.AppendTable | Code.js:242-243 | accepts only a table and appends it at the end |
| DocumentService.Document.SaveAndClose | Code.js:250 | the body's current children become the saved content; the document is closed and its save count goes up by one |

## Left out

- `replaceMergeDocument` (Code.js:180-189): it passes the requests and the revision id to the Docs batch-update service. The revision guard is enforced by that service, not by the script.
- `createMergeDocument`, `createAndClearMergeDocument` and `getTemplateDocument` (Code.js:131-202): Drive and Docs copy, open and fetch wrappers.
- `getSpreadsheet` and `getSheetValues` (Code.js:258-296): Sheets service I/O.
- Menus, dialogs, the sidebar, `include_`, `getOAuthToken`, `getApiKey` and `getAppId` (Code.js:9-81, 345-374): UI and configuration plumbing.
- The meaning of `replaceText` (Code.js:218) is not modelled. The host reads the field code as a regular expression, so the model takes the rewrite as an opaque function.
- Console logging in `createTargetFolder` and `selectAvailableFolders_` is not modelled. The unknown-type log in the transplant is the `skipped` result.
- `Session.getActiveUser` and `Folder.getAccess` are the `access` parameter.
- Drive ids and URLs are opaque strings. The id and URL of a new folder come from the host's `CreateResponse`.
- `DocumentApp.openById` and `DocumentApp.getActiveDocument` are `Document` parameters. A failure to open the target is not modelled.
- Per-element `as*().copy()` is not modelled separately, because elements are values.
- Elements carry an opaque content string in place of their formatting payload.
- JavaScript enumerates integer-like keys of the merge-data object first, in ascending order. That ordering is folded into the order of the `mergeData` sequence.
- `createTargetFolder` returns `{name, url, id}`. The model returns the folder record, which carries exactly those three fields.
- Editing a document after `saveAndClose` is an error in the host, and that error is not modelled.
- ReplaceAndAppendDocument: host calls are assumed not to throw, so every modelled run reaches `saveAndClose`. In the script, a `replaceText` the host rejects (an invalid regular expression, Code.js:218) or a failing `append*` call aborts the function before `saveAndClose` (Code.js:250). The target is then left unsaved, and possibly part-appended if an append failed.
