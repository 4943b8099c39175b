/**
 * The file and room triggers (app/zapier/files/triggers.js): the fallback,
 * filter and selection rules of their `perform` handlers once the listing
 * calls are given as functions.
 */
module FileTriggers {
  import opened Outcomes
  import opened Entities
  import Seqs
  import DocspaceClient
  import DocspaseClient

  type Filters = DocspaceClient.Filters

  /** The newest-first listing filters of the triggers, for one item kind. */
  function NewestFirst(filterType: string): Filters {
    [("filterType", DocspaceClient.Text(filterType)),
     ("sortBy", DocspaceClient.Text("DateAndTime")),
     ("sortOrder", DocspaceClient.Text("descending"))]
  }

  /**
   * `fileCreated`: falls back from the folder to the room, halts when neither
   * is given, and otherwise lists that folder's files newest first.
   */
  method FileCreated(input: FolderInput, listFiles: (int, Filters) -> Result<seq<Item>>)
    returns (r: Result<seq<Item>>)
    modifies input
    ensures input.id == old(input.id) && input.folderId == FolderOrRoom(old(input.id), old(input.folderId))
    ensures !TruthyNumber(input.folderId) ==> r == Err(Halted(CheckFields))
    ensures TruthyNumber(input.folderId) ==> r == listFiles(input.folderId.value, NewestFirst("FilesOnly"))
  {
    input.FallBackToRoom();
    if TruthyNumber(input.folderId) {
      r := listFiles(input.folderId.value, NewestFirst("FilesOnly"));
      return;
    }
    return Err(Halted(CheckFields));
  }

  /** The test `item.originId === target`. */
  function OriginIs(target: Option<int>): Item -> bool {
    (item: Item) => item.originId == target
  }

  /** Filtering by origin keeps an item exactly when it came from `target`, in the listing's order. */
  lemma {:induction false} OriginFilterIsExact(trash: seq<Item>, target: Option<int>)
    ensures forall x :: x in trash ==> (x in Seqs.Keep(trash, OriginIs(target)) <==> x.originId == target)
    ensures forall x :: x in Seqs.Keep(trash, OriginIs(target)) ==> x in trash && x.originId == target
    ensures Seqs.IsSubsequence(Seqs.Keep(trash, OriginIs(target)), trash)
  {
    var kept := Seqs.Keep(trash, OriginIs(target));
    forall x | x in trash && x.originId == target
      ensures x in kept
    {
      assert multiset(kept)[x] == multiset(trash)[x];
    }
    Seqs.KeepIsSubsequence(trash, OriginIs(target));
  }

  /**
   * `fileDeleted`: lists the trashed files; when a room or folder is given,
   * keeps those that came from `folderId || id` (writing that back into the
   * input), and otherwise returns them all.
   */
  method FileDeleted(input: FolderInput, listTrash: Filters -> Result<seq<Item>>)
    returns (r: Result<seq<Item>>)
    modifies input
    ensures input.id == old(input.id)
    ensures var trash := listTrash(NewestFirst("FilesOnly"));
      (trash.Err? ==> r == trash && input.folderId == old(input.folderId)) &&
      (trash.Ok? && (TruthyNumber(old(input.id)) || TruthyNumber(old(input.folderId))) ==>
        input.folderId == FolderOrRoom(old(input.id), old(input.folderId)) &&
        r == Ok(Seqs.Keep(trash.value, OriginIs(input.folderId)))) &&
      (trash.Ok? && !(TruthyNumber(old(input.id)) || TruthyNumber(old(input.folderId))) ==>
        r == trash && input.folderId == old(input.folderId))
  {
    var trash := listTrash(NewestFirst("FilesOnly"));
    if trash.Err? {
      return Err(trash.error);
    }
    if TruthyNumber(input.id) || TruthyNumber(input.folderId) {
      input.FallBackToRoom();
      var target := input.folderId;
      return Ok(Seqs.Keep(trash.value, OriginIs(target)));
    }
    return trash;
  }

  /**
   * `filesList`: nothing without a room; otherwise `fileCreated` on a copy of
   * the input whose folder is `folderId || id`. The caller's input is not written.
   */
  method FilesList(input: FolderInput, listFiles: (int, Filters) -> Result<seq<Item>>)
    returns (r: Result<seq<Item>>)
    ensures !TruthyNumber(input.id) ==> r == Ok([])
    ensures TruthyNumber(input.id) ==>
      TruthyNumber(FolderOrRoom(input.id, input.folderId)) &&
      r == listFiles(FolderOrRoom(input.id, input.folderId).value, NewestFirst("FilesOnly"))
  {
    if !TruthyNumber(input.id) {
      return Ok([]);
    }
    var refined := new FolderInput(input.id, FolderOrRoom(input.id, input.folderId));
    r := FileCreated(refined, listFiles);
  }

  /** Reading `pathParts[0].id` of a section with no path. */
  const EmptyPath := TypeError("Cannot read properties of undefined (reading 'id')")

  /** `filteredSections`: each section as the `{id, title}` of its first path part. */
  function FilteredSections(sections: seq<Section>): (r: Result<seq<PathPart>>)
    ensures r.Ok? <==> forall i :: 0 <= i < |sections| ==> sections[i].pathParts != []
    ensures r.Err? ==> r.error == EmptyPath
    ensures r.Ok? ==> |r.value| == |sections|
    ensures r.Ok? ==> forall i :: 0 <= i < |sections| ==> r.value[i] == sections[i].pathParts[0]
  {
    if sections == [] then Ok([])
    else if sections[0].pathParts == [] then Err(EmptyPath)
    else match FilteredSections(sections[1..])
      case Err(e) => Err(e)
      case Ok(rest) => Ok([sections[0].pathParts[0]] + rest)
  }

  /**
   * `folderCreated`: the reverse fallback, from the room to the folder; halts
   * when neither is given, and otherwise lists that room's folders newest first.
   */
  method FolderCreated(input: FolderInput, listFolders: (int, Filters) -> Result<seq<Item>>)
    returns (r: Result<seq<Item>>)
    modifies input
    ensures input.folderId == old(input.folderId)
    ensures input.id == if TruthyNumber(old(input.id)) then old(input.id) else old(input.folderId)
    ensures !TruthyNumber(input.id) ==> r == Err(Halted(CheckFields))
    ensures TruthyNumber(input.id) ==> r == listFolders(input.id.value, NewestFirst("FoldersOnly"))
  {
    if !TruthyNumber(input.id) {
      input.id := input.folderId;
    }
    if TruthyNumber(input.id) {
      r := listFolders(input.id.value, NewestFirst("FoldersOnly"));
      return;
    }
    return Err(Halted(CheckFields));
  }

  /**
   * `folderDeleted`: the trashed folders from `folderId` if given, else from
   * `id` if given, else all of them.
   */
  function FolderDeleted(id: Option<int>, folderId: Option<int>, listTrash: Filters -> Result<seq<Item>>)
    : (r: Result<seq<Item>>)
    ensures listTrash(NewestFirst("FoldersOnly")).Err? ==> r == listTrash(NewestFirst("FoldersOnly"))
    ensures r.Ok? ==> listTrash(NewestFirst("FoldersOnly")).Ok?
    ensures r.Ok? ==> forall x :: x in r.value ==> x in listTrash(NewestFirst("FoldersOnly")).value
    // with a folder or room given, every folder returned was trashed from `folderId || id`
    ensures r.Ok? && (TruthyNumber(id) || TruthyNumber(folderId)) ==>
      forall x :: x in r.value ==> x.originId == FolderOrRoom(id, folderId)
  {
    match listTrash(NewestFirst("FoldersOnly"))
    case Err(e) => Err(e)
    case Ok(folders) =>
      if TruthyNumber(folderId) then Ok(Seqs.Keep(folders, OriginIs(folderId)))
      else if TruthyNumber(id) then Ok(Seqs.Keep(folders, OriginIs(id)))
      else Ok(folders)
  }

  /**
   * `folderDeleted` applies the same rule as `fileDeleted`, written without
   * the fallback: the origin filtered on is `folderId || id`.
   */
  lemma FolderDeletedFiltersByFallback(id: Option<int>, folderId: Option<int>, listTrash: Filters -> Result<seq<Item>>)
    ensures var trash := listTrash(NewestFirst("FoldersOnly"));
      (trash.Err? ==> FolderDeleted(id, folderId, listTrash) == trash) &&
      (trash.Ok? && (TruthyNumber(id) || TruthyNumber(folderId)) ==>
        FolderDeleted(id, folderId, listTrash) == Ok(Seqs.Keep(trash.value, OriginIs(FolderOrRoom(id, folderId))))) &&
      (trash.Ok? && !(TruthyNumber(id) || TruthyNumber(folderId)) ==>
        FolderDeleted(id, folderId, listTrash) == trash)
  {
  }

  /** The activation status of an active user. */
  const ActivationStatus := 1

  /** The users of a member list, in order. */
  function SharedUsers(members: seq<Member>): (r: seq<SharedUser>)
    ensures |r| == |members|
    ensures forall i :: 0 <= i < |members| ==> r[i] == members[i].sharedTo
  {
    if members == [] then [] else [members[0].sharedTo] + SharedUsers(members[1..])
  }

  function IsActive(m: Member): bool {
    m.sharedTo.activationStatus == ActivationStatus
  }

  /** `userInvited`: the room's users, only the active ones when `active` is set. */
  function UserInvited(members: seq<Member>, active: bool): (r: seq<SharedUser>)
    ensures !active ==> r == SharedUsers(members)
    ensures active ==> r == SharedUsers(Seqs.Keep(members, IsActive))
    ensures |r| <= |members|
    ensures active ==> forall u :: u in r ==> u.activationStatus == ActivationStatus
    ensures active ==> forall m :: m in members && IsActive(m) ==> m.sharedTo in r
    ensures forall u :: u in r ==> exists m :: m in members && m.sharedTo == u
  {
    var users := if active then Seqs.Keep(members, IsActive) else members;
    var r := SharedUsers(users);
    assert forall u :: u in r ==> exists i :: 0 <= i < |users| && users[i].sharedTo == u;
    assert active ==> forall u :: u in r ==> u.activationStatus == ActivationStatus by {
      if active {
        forall u | u in r
          ensures u.activationStatus == ActivationStatus
        {
          var i :| 0 <= i < |users| && users[i].sharedTo == u;
          assert users[i] in users;
        }
      }
    }
    assert active ==> forall m :: m in members && IsActive(m) ==> m in users && multiset(users)[m] > 0;
    r
  }

  /** A subsequence of members gives a subsequence of their users. */
  lemma {:induction false} SharedUsersOfSubsequence(sub: seq<Member>, members: seq<Member>)
    requires Seqs.IsSubsequence(sub, members)
    ensures Seqs.IsSubsequence(SharedUsers(sub), SharedUsers(members))
    decreases |members|
  {
    if sub != [] {
      if sub[0] == members[0] && Seqs.IsSubsequence(sub[1..], members[1..]) {
        SharedUsersOfSubsequence(sub[1..], members[1..]);
        assert SharedUsers(sub)[1..] == SharedUsers(sub[1..]);
        assert SharedUsers(members)[1..] == SharedUsers(members[1..]);
      } else {
        SharedUsersOfSubsequence(sub, members[1..]);
        assert SharedUsers(members)[1..] == SharedUsers(members[1..]);
      }
    }
  }

  /** With `active` set, the users returned keep the order in which the room lists its members. */
  lemma ActiveUsersKeepOrder(members: seq<Member>)
    ensures Seqs.IsSubsequence(UserInvited(members, true), SharedUsers(members))
  {
    Seqs.KeepIsSubsequence(members, IsActive);
    SharedUsersOfSubsequence(Seqs.Keep(members, IsActive), members);
  }

  /** `shareRoles` as written: its module does not export `publicRoomRoles`, so a public room fails. */
  const PublicRolesMissing := TypeError("publicRoomRoles is not a function")

  /** `shareRoles` as the code stands. */
  function ShareRolesAsWritten(roomType: int): (r: Result<seq<DocspaceClient.RoleData>>)
    ensures DocspaceClient.IsPublicRoom(roomType) ==> r == Err(PublicRolesMissing)
  {
    if DocspaceClient.IsPublicRoom(roomType) then Err(PublicRolesMissing)
    else if DocspaceClient.IsCustomRoom(roomType) then Ok(DocspaceClient.CustomRoomRoles())
    else Ok([])
  }

  /** A public room's role list cannot be fetched as the code stands. */
  lemma ShareRolesAsWrittenFailsForPublicRooms()
    ensures ShareRolesAsWritten(5).Err?
    ensures ShareRoles(5) == Ok(DocspaseClient.PublicRoomRoles())
  {
  }

  /**
   * `shareRoles` as intended: the public-room table for type 5, the
   * custom-room table for type 6, and no roles otherwise; it never fails.
   */
  function ShareRoles(roomType: int): (r: Result<seq<DocspaceClient.RoleData>>)
    ensures r.Ok?
    ensures roomType == 5 ==> r.value == DocspaseClient.PublicRoomRoles()
    ensures roomType == 6 ==> r.value == DocspaceClient.CustomRoomRoles()
    ensures roomType != 5 && roomType != 6 ==> r.value == []
    ensures !DocspaceClient.IsPublicRoom(roomType) ==> r == ShareRolesAsWritten(roomType)
  {
    if DocspaceClient.IsPublicRoom(roomType) then Ok(DocspaseClient.PublicRoomRoles())
    else if DocspaceClient.IsCustomRoom(roomType) then Ok(DocspaceClient.CustomRoomRoles())
    else Ok([])
  }
}
