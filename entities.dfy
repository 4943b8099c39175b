/**
 * The records the Zapier handlers read from the API (files, folders, sections,
 * room members, accounts) and the part of a handler's input data that the
 * handlers overwrite in place: the room `id` and the `folderId`.
 */
module Entities {
  import opened Outcomes

  /** A file or folder as a listing returns it; `originId` is set for trashed items. */
  datatype Item = Item(id: int, title: string, originId: Option<int>)

  /** One step of a section's path. */
  datatype PathPart = PathPart(id: int, title: string)

  /** A top-level section; its first path part names it. */
  datatype Section = Section(pathParts: seq<PathPart>)

  /** A user a room is shared with. */
  datatype SharedUser = SharedUser(id: string, displayName: string, activationStatus: int)

  /** One entry of a room's member list. */
  datatype Member = Member(sharedTo: SharedUser, access: int)

  /** A portal account. */
  datatype Account = Account(id: string, displayName: string)

  /**
   * `folderId || id`: the folder when it is given (truthy), else the room.
   */
  function FolderOrRoom(id: Option<int>, folderId: Option<int>): (r: Option<int>)
    ensures TruthyNumber(folderId) ==> r == folderId
    ensures !TruthyNumber(folderId) ==> r == id
  {
    if TruthyNumber(folderId) then folderId else id
  }

  /** The fallback yields a usable id exactly when one of the two is usable. */
  lemma FallbackIsUsable(id: Option<int>, folderId: Option<int>)
    ensures TruthyNumber(FolderOrRoom(id, folderId)) <==> TruthyNumber(id) || TruthyNumber(folderId)
    ensures TruthyNumber(FolderOrRoom(id, folderId)) ==>
      FolderOrRoom(id, folderId) == folderId || FolderOrRoom(id, folderId) == id
  {
  }

  /** The `id` and `folderId` fields of a handler's `bundle.inputData`. */
  class FolderInput {
    var id: Option<int>
    var folderId: Option<int>

    constructor(id: Option<int>, folderId: Option<int>)
      ensures this.id == id && this.folderId == folderId
    {
      this.id := id;
      this.folderId := folderId;
    }

    /**
     * `if (!folderId) folderId = id`, as `createFile`, `createFolder`,
     * `uploadFile` and `fileCreated` begin.
     */
    method FallBackToRoom()
      modifies this
      ensures id == old(id)
      ensures folderId == FolderOrRoom(old(id), old(folderId))
    {
      if !TruthyNumber(folderId) {
        folderId := id;
      }
    }
  }
}
