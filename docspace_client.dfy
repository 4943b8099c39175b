/**
 * The DocSpace API client (app/docspace/client/client.js): room-type tests,
 * the role tables offered for each room type, the URL builder and the
 * response-envelope check every API call goes through. The copy in
 * app/docspase/client/client.js has the same `url` and `request`; its role
 * tables differ and live in module DocspaseClient.
 */
module DocspaceClient {
  import opened Outcomes
  import Decimal

  /** The API version prefix every path is placed under. */
  const Version := "/api/2.0"

  predicate IsPublicRoom(roomType: int) { roomType == 5 }
  predicate IsCustomRoom(roomType: int) { roomType == 6 }
  predicate IsCollaborationRoom(roomType: int) { roomType == 2 }
  predicate IsBasicFormRoom(roomType: int) { roomType == 1 }

  /** A role a room member can be given. */
  datatype RoleData = RoleData(id: int, name: string)

  function CustomRoomRoles(): (r: seq<RoleData>)
    // a role is offered once
    ensures forall i, j :: 0 <= i < j < |r| ==> r[i].id != r[j].id && r[i].name != r[j].name
    ensures |r| == 5 && RoleData(10, "Editor") in r && RoleData(2, "Viewer") in r
  {
    [RoleData(10, "Editor"), RoleData(7, "Form filler"), RoleData(5, "Reviewer"),
     RoleData(6, "Commenter"), RoleData(2, "Viewer")]
  }

  function BasicFormRoomRoles(): (r: seq<RoleData>)
    // a role is offered once
    ensures forall i, j :: 0 <= i < j < |r| ==> r[i].id != r[j].id && r[i].name != r[j].name
    ensures |r| == 2 && RoleData(2, "Viewer") in r && RoleData(7, "Form filler") in r
  {
    [RoleData(2, "Viewer"), RoleData(7, "Form filler")]
  }

  function CollaborationRoomRoles(): (r: seq<RoleData>)
    // a role is offered once
    ensures forall i, j :: 0 <= i < j < |r| ==> r[i].id != r[j].id && r[i].name != r[j].name
    ensures |r| == 2 && RoleData(10, "Editor") in r && RoleData(2, "Viewer") in r
  {
    [RoleData(10, "Editor"), RoleData(2, "Viewer")]
  }

  /** No room type is of two kinds, and each kind is one fixed code. */
  lemma RoomKindsAreExclusive(t: int)
    ensures IsPublicRoom(t) <==> t == 5
    ensures IsCustomRoom(t) <==> t == 6
    ensures !(IsPublicRoom(t) && IsCustomRoom(t))
    ensures !(IsCollaborationRoom(t) && IsBasicFormRoom(t))
    ensures (IsPublicRoom(t) || IsCustomRoom(t)) ==> !IsCollaborationRoom(t) && !IsBasicFormRoom(t)
  {
  }

  /** The value of one filter entry; `Undefined` is a key whose value is `undefined`. */
  datatype FilterValue = Undefined | Text(text: string) | Number(number: int) | Flag(flag: bool)

  /** `String(value)` for a defined filter value. */
  function Render(v: FilterValue): string
    requires !v.Undefined?
  {
    match v
    case Text(t) => t
    case Number(n) => Decimal.Show(n)
    case Flag(b) => if b then "true" else "false"
  }

  /** A filter object: its entries in insertion order. */
  type Filters = seq<(string, FilterValue)>

  /** The query parameters a filter object yields: its defined entries, in order. */
  function QueryPairs(filters: Filters): (r: seq<(string, string)>)
    ensures |r| <= |filters|
  {
    if filters == [] then []
    else
      var rest := QueryPairs(filters[1..]);
      if filters[0].1.Undefined? then rest
      else [(filters[0].0, Render(filters[0].1))] + rest
  }

  /**
   * Every defined entry becomes a query parameter and nothing else does; there
   * is no parameter exactly when every value is `undefined`.
   */
  lemma {:induction false} QueryPairsAreDefinedEntries(filters: Filters)
    ensures QueryPairs(filters) == [] <==> forall i :: 0 <= i < |filters| ==> filters[i].1.Undefined?
    ensures forall i :: 0 <= i < |filters| && !filters[i].1.Undefined? ==>
      (filters[i].0, Render(filters[i].1)) in QueryPairs(filters)
    ensures forall q :: q in QueryPairs(filters) ==>
      exists i :: 0 <= i < |filters| && !filters[i].1.Undefined? && q == (filters[i].0, Render(filters[i].1))
  {
    if filters != [] {
      var tail := filters[1..];
      QueryPairsAreDefinedEntries(tail);
      assert forall i :: 1 <= i < |filters| ==> filters[i] == tail[i - 1];
      forall q | q in QueryPairs(filters)
        ensures exists i :: 0 <= i < |filters| && !filters[i].1.Undefined? && q == (filters[i].0, Render(filters[i].1))
      {
        if q !in QueryPairs(tail) {
          assert q == (filters[0].0, Render(filters[0].1));
        } else {
          var j :| 0 <= j < |tail| && !tail[j].1.Undefined? && q == (tail[j].0, Render(tail[j].1));
          assert filters[j + 1] == tail[j];
        }
      }
    }
  }

  /** `key=value` pairs joined with `&`. */
  function Serialize(pairs: seq<(string, string)>): string {
    if pairs == [] then ""
    else
      var head := pairs[0].0 + "=" + pairs[0].1;
      if |pairs| == 1 then head else head + "&" + Serialize(pairs[1..])
  }

  /** The search part of the URL: empty when there is no parameter. */
  function SearchPart(pairs: seq<(string, string)>): string {
    if pairs == [] then "" else "?" + Serialize(pairs)
  }

  /**
   * `url(path, filters)`. The URL constructor resolves the absolute path
   * `"/api/2.0" + path` against the base URL, which keeps only the base's
   * origin; `origin` is that origin.
   */
  method Url(origin: string, path: string, filters: Filters) returns (url: string)
    ensures url == origin + Version + path + SearchPart(QueryPairs(filters))
    ensures QueryPairs(filters) == [] ==> url == origin + Version + path
  {
    var search: seq<(string, string)> := [];
    var i := 0;
    assert filters[i..] == filters;
    while i < |filters|
      invariant 0 <= i <= |filters|
      invariant search + QueryPairs(filters[i..]) == QueryPairs(filters)
    {
      QueryPairsStep(filters, i);
      if !filters[i].1.Undefined? {
        search := search + [(filters[i].0, Render(filters[i].1))];
      }
      i := i + 1;
    }
    assert filters[i..] == [];
    assert search == QueryPairs(filters);
    url := origin + Version + path + SearchPart(search);
  }

  /** One entry of the filters, then the rest: how the loop in `Url` walks them. */
  lemma QueryPairsStep(filters: Filters, i: int)
    requires 0 <= i < |filters|
    ensures QueryPairs(filters[i..]) ==
      (if filters[i].1.Undefined? then [] else [(filters[i].0, Render(filters[i].1))]) + QueryPairs(filters[i + 1..])
  {
    assert filters[i..][1..] == filters[i + 1..];
  }

  /** The `data` object of a response: the envelope the API wraps every result in. */
  datatype Envelope<T> = Envelope(status: Option<int>, success: Option<bool>, response: Option<T>, data: Option<T>)

  /**
   * The check `request` applies to a response's `data`: a missing envelope, or
   * one whose status is not 0 and whose success is not `true`, throws; otherwise
   * the result is `response`, or `data` when `response` is absent or falsy.
   * (`None` for `response` or `data` stands for an absent or falsy value.)
   */
  function Unwrap<T>(data: Option<Envelope<T>>): (r: Result<Option<T>>)
    ensures data.None? ==> r == Err(Error("TODO"))
    ensures r.Ok? <==> data.Some? && (data.value.status == Some(0) || data.value.success == Some(true))
    ensures r.Err? ==> r.error == Error("TODO")
    ensures r.Ok? && data.value.response.Some? ==> r.value == data.value.response
    ensures r.Ok? && data.value.response.None? ==> r.value == data.value.data
  {
    match data
    case None => Err(Error("TODO"))
    case Some(e) =>
      if e.status != Some(0) && e.success != Some(true) then Err(Error("TODO"))
      else if e.response.Some? then Ok(e.response)
      else Ok(e.data)
  }
}
