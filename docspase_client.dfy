/**
 * The room-type tests and role tables of the second DocSpace client copy
 * (app/docspase/client/client.js). Its `url`, `request` and `Progress.complete`
 * are the same code as in app/docspace/client/client.js and are modelled once,
 * in modules DocspaceClient and Poller.
 */
module DocspaseClient {
  import DocspaceClient

  type RoleData = DocspaceClient.RoleData

  predicate IsPublicRoom(roomType: int) { roomType == 5 }
  predicate IsCustomRoom(roomType: int) { roomType == 6 }

  function PublicRoomRoles(): seq<RoleData> {
    [DocspaceClient.RoleData(2, "Viewer"), DocspaceClient.RoleData(10, "Editor")]
  }

  function CustomRoomRoles(): seq<RoleData> {
    [DocspaceClient.RoleData(9, "Room admin"), DocspaceClient.RoleData(11, "Power user")]
  }

  /** The ids of a role table. */
  function RoleIds(roles: seq<RoleData>): set<int> {
    set r | r in roles :: r.id
  }

  /** The public-room table offers Viewer and Editor, the custom-room table Room admin and Power user. */
  lemma RoleTables(t: int)
    ensures IsPublicRoom(t) <==> t == 5
    ensures IsCustomRoom(t) <==> t == 6
    ensures !(IsPublicRoom(t) && IsCustomRoom(t))
    ensures PublicRoomRoles() == [DocspaceClient.RoleData(2, "Viewer"), DocspaceClient.RoleData(10, "Editor")]
    ensures CustomRoomRoles() == [DocspaceClient.RoleData(9, "Room admin"), DocspaceClient.RoleData(11, "Power user")]
    ensures forall r :: r in PublicRoomRoles() ==> r.id !in RoleIds(CustomRoomRoles()) && r !in CustomRoomRoles()
  {
  }
}
