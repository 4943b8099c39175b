# ONLYOFFICE DocSpace Zapier adapter — a Dafny model of its core

The adapter connects the Zapier automation platform to an ONLYOFFICE DocSpace
portal. Its triggers, actions and searches call the portal's REST API, and the
answers come back in a common envelope. This project models the parts of the
adapter that make decisions:

- **The operation poller `Progress.complete`** (module `Poller`). A long
  server-side operation, such as deleting a folder or archiving a room, is
  followed by listing the running operations. Polling repeats until the
  followed operation reports an error or 100 %, or until the retry budget runs
  out. The model is a class whose `Complete` method is a `while` loop. The loop
  is proved equal to a recursive specification, `Poll`, and the lemmas about
  `Poll` give exact call counts and the returned state.
- **The older client** in `app/client.js` (module `LegacyClient`):
  - its envelope check, which wraps a response into a `Progress` object;
  - its self-recursive `Progress.finish`, which returns the original object,
    not the last result, when the budget runs out.
- **The chunked uploader** (module `Uploader`):
  - the 10 MiB range plan, whose last range is not clamped to the file size;
  - the strictly sequential upload loop;
  - the defaults `headers` applies;
  - the `stash` shortcut for URLs already in the platform's store.
- **The DocSpace client** (module `DocspaceClient`): URL building from ordered
  filters, the response-envelope check, the room-type predicates and the role
  tables. The second client copy (module `DocspaseClient`) has its own role
  tables.
- **The error classifier** run on every HTTP response (module `Middleware`).
- **The decision rules of the Zapier handlers**: file actions, file triggers,
  searches and the invite action. These are the folder/room id fallbacks in
  place, the "check fields" halts, title trimming, trash and active-user
  filters, role-table selection, substring search and find-or-invite.
- **Session authentication** (module `Auth`): the header hook, the sign-in
  requests and the connection test.

Every network call, and every call into the platform, is a parameter: a
function from the request to what it returns (`Result.Ok`) or throws
(`Result.Err`). A poller's listing callback is indexed by call number, so the
number of calls is an exact output. Absent JavaScript fields are `None`.
JavaScript truthiness is `TruthyText`/`TruthyNumber`.

Duplicated code is modelled once:

- `url`, `request` and `Progress.complete` in app/docspase/client/client.js are
  the same code as in app/docspace/client/client.js.
- `appendSessionAuthHeader` is the same function in app/docspace/auth/auth.js,
  app/docspase/auth/auth.js and app/auth.js.
- `Auth.PlainAuth` is the `auth` request of both app/docspase/auth/auth.js:69-76
  and app/auth.js:139-145.

Two behaviours of the code are worth knowing, and the model keeps both:

- The uploader's last byte range is never clamped to the file size: every
  chunk `i` asks for bytes `i*C` to `i*C + C - 1` (`Uploader.LastRangeIsNotClamped`).
- Room-creation choices disagree with the client's predicates. The choice
  labelled "Custom room" sends type 5, which the client's predicates take for a
  public room, and "Public room" sends 6
  (`FileActions.RoomCreateLabelsDisagreeWithClient`).

## Model

| member | source | states |
|---|---|---|
| DocspaceClient.RoomKindsAreExclusive | app/docspace/client/client.js:32-58 | `isPublicRoom` holds exactly for 5 and `isCustomRoom` exactly for 6; no type is of two kinds |
| DocspaceClient.CustomRoomRoles | app/docspace/client/client.js:63-71 | the custom-room table offers five roles, Editor and Viewer among them, no id or name twice |
| DocspaceClient.BasicFormRoomRoles | app/docspace/client/client.js:76-81 | the basic-form table offers Viewer (2) and Form filler (7), no id or name twice |
| DocspaceClient.CollaborationRoomRoles | app/docspace/client/client.js:86-91 | the collaboration table offers Editor (10) and Viewer (2), no id or name twice |
| DocspaceClient.QueryPairs | app/docspace/client/client.js:115-124 | at most one query parameter per filter entry (which ones: the next row) |
| DocspaceClient.QueryPairsAreDefinedEntries | app/docspace/client/client.js:117-124 | the query pairs are the defined filter entries rendered with `String`: every defined entry is there, nothing else is, and there are none exactly when every value is `undefined` |
| DocspaceClient.Url | app/docspace/client/client.js:109-129 | the URL is origin + "/api/2.0" + path followed by the search part of the defined filters in insertion order, with no query string when no filter is defined |
| DocspaceClient.Unwrap | app/docspace/client/client.js:142-152 | a missing envelope throws; the call succeeds exactly when status is 0 or success is true; the result is `response`, or `data` when `response` is absent |
| DocspaseClient.RoleTables | app/docspase/client/client.js:32-62 | 5 is public and 6 custom; the public table is exactly [2 Viewer, 10 Editor] and the custom table [9 Room admin, 11 Power user], ids and names included; no public role or role id is in the custom table |
| Poller.FindIndex | app/docspace/client/client.js:173 | the index found holds the tracked id and no earlier entry does; none is found only when no entry has the id |
| Poller.Poll | app/docspace/client/client.js:170-195 | a state returned is the last one seen or an entry of the followed operation; polling ends before the budget is spent only with an error or a terminal state |
| Poller.CompleteSpec | app/docspace/client/client.js:166-196 | only a positive limit returns a state, which is the operation itself or an entry with its id; fewer calls than the limit means that state is terminal |
| Poller.Progress.constructor | app/docspace/client/client.js:161-164 | the poller keeps the endpoint and the operation it is given |
| Poller.Progress.Complete | app/docspace/client/client.js:166-196 | a non-positive limit throws "todo" with no call; otherwise the loop's result and call count are those of the polling specification, with between 1 and `limit` calls |
| Poller.PollCallBound | app/docspace/client/client.js:171-194 | with budget left at least one call is made, and never more calls than the budget |
| Poller.PollExhaustsBudget | app/docspace/client/client.js:171-195 | when no poll throws or shows a terminal state, exactly `limit` calls are made and the last state seen is returned, not an error |
| Poller.PollStopsAtFirstTerminal | app/docspace/client/client.js:174-190 | the first poll that throws or matches an operation with a truthy error or an own progress/percents of 100 ends polling after exactly that many calls, with that error or state |
| Poller.PollReturnsLastMatch | app/docspace/client/client.js:170-175 | a returned state is the initial operation when no listing matched the id, else the entry of the last listing that matched |
| Poller.SteadyOperationUsesWholeBudget | app/docspace/client/client.js:166-196 | an operation listed unchanged and never terminal is polled exactly `limit` times (20 by default, 10 with limit 10) and returned |
| Poller.ErrorOnFirstPollStops | app/docspace/client/client.js:176-178 | an error on the first poll returns that state after one call |
| Poller.RisingProgressStopsOnSecondPoll | app/docspace/client/client.js:180-184 | `progress` rising by 50 per poll stops polling on the second call with progress 100 |
| Poller.RisingPercentsStopsOnSecondPoll | app/docspace/client/client.js:186-190 | `percents` rising by 50 per poll stops polling on the second call with percents 100 |
| LegacyClient.RequestUrl | app/client.js:29 | the URL is the base URL, "/api/2.0" and the path, as consecutive slices |
| LegacyClient.RequestSpec | app/client.js:32-54 | a missing envelope or a status other than 0 throws; a missing `response` is a type error; otherwise the response is the result |
| LegacyClient.Progress.constructor | app/client.js:62-70 | a new progress starts with id "", operation 0, progress 0, error "", processed "" and finished false |
| LegacyClient.Finish | app/client.js:77-89 | what `finish` returns is the original object or a finished result, never an unfinished intermediate one |
| LegacyClient.Request | app/client.js:24-55 | a rejected platform request propagates unchanged; otherwise the envelope errors of the specification, a response with its own `finished` field becomes a new `Progress` carrying its six fields, and any other response is returned as is |
| LegacyClient.FinishCallBound | app/client.js:77-89 | a finished progress or a non-positive limit returns itself with no call; otherwise `next` is called at least once and at most `limit` times |
| LegacyClient.FinishExhaustedReturnsSelf | app/client.js:78-88 | when no result within the budget is finished, all `limit` calls are made and the original progress is returned, not the last result |
| LegacyClient.FinishReturnsFirstFinished | app/client.js:82-85 | the first finished result, or the first error, ends `finish` after exactly that many calls and is its outcome |
| LegacyClient.NewProgressDefaultBudget | app/client.js:62-88 | a new progress with the default budget of 20 against never-finished results makes 20 calls and is returned unchanged |
| Uploader.ChunkCount | app/zapier/files/uploader.js:93-94 | no chunk is sent exactly when the size is 0, negative or NaN |
| Uploader.ChunkCountIsCeiling | app/zapier/files/uploader.js:92-93 | for a positive size the chunk count is the ceiling of size / 10 MiB |
| Uploader.RangeOf | app/zapier/files/uploader.js:95-96 | each range starts at a byte offset of 0 or more and spans exactly 10 MiB |
| Uploader.RangeHeader | app/zapier/files/uploader.js:96 | the header value starts with "bytes=" |
| Uploader.RangeHeaderReadsBack | app/zapier/files/uploader.js:96 | reading the header back gives the first byte after "bytes=", then a dash, then the last byte |
| Uploader.RangesAreContiguous | app/zapier/files/uploader.js:95-96 | each range spans exactly 10 MiB and the next one starts right after it |
| Uploader.RangesAreAscending | app/zapier/files/uploader.js:94-96 | ranges of different chunks do not overlap and ascend with the chunk index |
| Uploader.RangesCoverFile | app/zapier/files/uploader.js:93-96 | every byte of the file lies in the range of chunk byte / 10 MiB, which is one of the chunks sent |
| Uploader.LastRangeIsNotClamped | app/zapier/files/uploader.js:95-96 | the last range ends at chunk count × 10 MiB − 1, at or past the last byte, and exactly at it only when the size is a multiple of 10 MiB |
| Uploader.TwentyFiveMebibytes | app/zapier/files/uploader.js:92-96 | a 25 MiB file takes 3 chunks, the last asking for bytes 20971520 to 31457279 |
| Uploader.Upload | app/zapier/files/uploader.js:90-110 | chunks are read and sent in ascending range order, each after the previous upload succeeded; the result is the last upload's value; no chunk or a falsy last result halts with "Unknown error"; a read or upload error ends the loop with that error |
| Uploader.HeadersOf | app/zapier/files/uploader.js:76-83 | the size is `parseInt` of a present content-length, else 0; the name comes from the content disposition, else "File from Zapier.docx" |
| Uploader.HeadersReadAnnouncedSize | app/zapier/files/uploader.js:78-80 | a size announced in decimal is read back as that size |
| Decimal.ParseInt | app/zapier/files/actions.js:572 | a number is read exactly when a digit starts the text after an optional sign; text made only of digits is read as its value |
| Decimal.ParseShow | app/zapier/files/actions.js:572 | the decimal text of any integer is read back as that integer |
| Uploader.Stash | app/zapier/files/uploader.js:61-70 | a URL under "https://zapier.com/engine/hydrate/" is returned unchanged without stashing; any other URL is stashed |
| Uploader.StashIsIdempotent | app/zapier/files/uploader.js:63-65 | stashing the URL a stash returned gives the same URL again |
| Middleware.ErrorCode | app/zapier/middleware.js:71 | the error code is the event's method when present, else the request's method, a space and its URL |
| Middleware.FallbackMessage | app/zapier/middleware.js:57 | the message is `error.message`, else `message`, else "Unknown error", and never empty |
| Middleware.Classify | app/zapier/middleware.js:18-75 | the throttling error is thrown for status 429 and nothing else; every other error is a rejection carrying the error code, or the missing-body type error of a 400..500 response without a body |
| Middleware.ThrottlingComesFirst | app/zapier/middleware.js:20-23 | status 429 throws the throttling error with a retry after 60 seconds, whatever the body, even for a rejected upload |
| Middleware.RejectedUploadFails | app/zapier/middleware.js:26-49 | a FormData request whose body has its own `success` false fails with status 400 and the error code, at any status but 429 |
| Middleware.ClientErrorsFail | app/zapier/middleware.js:52-73 | a status from 400 to 500 inclusive fails with the fallback message, the error code and the body's status code |
| Middleware.PassThroughIsExact | app/zapier/middleware.js:18-75 | a response passes through exactly when it is not 429, not a rejected upload and outside 400..500 |
| Middleware.HttpResponse.ErrorHandling | app/zapier/middleware.js:18-75 | throws what the classifier says after setting `skipThrowForStatus`, or returns the same response with the flag untouched |
| Entities.FolderOrRoom | app/zapier/files/actions.js:181-183 | the folder when it is truthy, else the room |
| Entities.FallbackIsUsable | app/zapier/files/actions.js:181-184 | the fallback is truthy exactly when the room or the folder is |
| Entities.FolderInput.FallBackToRoom | app/zapier/files/actions.js:181-183 | overwrites a falsy `folderId` with `id` in place and keeps `id` |
| FileActions.LastDot | app/zapier/files/actions.js:191 | the index of the last "." or -1 when there is none |
| FileActions.TrimExtension | app/zapier/files/actions.js:191 | the result is a prefix of the title ending right before its last dot, and empty when the title has no dot |
| FileActions.TrimExtensionRemovesExtension | app/zapier/files/actions.js:237 | trimming `name.ext` with a dot-free extension gives back `name` |
| FileActions.Trimmed | app/zapier/files/actions.js:190-192 | a created file comes back with its title trimmed; a failed call is passed on |
| FileActions.CreateFile | app/zapier/files/actions.js:180-195 | falls back to the room in place, halts with "Check that all Zap fields are entered correctly" when neither is given, else creates the file in that folder and trims its title |
| FileActions.CreateFileInMyDocuments | app/zapier/files/actions.js:230-239 | with a folder it is `createFile`; without one it creates in My Documents with the same trimming; the input is left as it was |
| FileActions.CreateFolder | app/zapier/files/actions.js:279-292 | the same fallback and halt as `createFile`; the created folder is returned as is |
| FileActions.ArchiveRoom | app/zapier/files/actions.js:131-137 | the archive operation is polled with the default budget: the poller's result and 1 to 20 calls |
| FileActions.PollUntracked | app/zapier/files/actions.js:373-375 | following `undefined`: when every listing is empty, `undefined` after the whole budget; otherwise the first listing that fails or is not empty ends polling, with that failure or the type error of reading `undefined.id` |
| FileActions.DeleteFolder | app/zapier/files/actions.js:370-376 | the first operation of the reply is polled with the default budget; an empty reply polls `undefined` |
| FileActions.RoomCreateSendsChosenType | app/zapier/files/actions.js:571-575 | a room type chosen as decimal text reaches the server as that number, with the title |
| FileActions.RoomCreate | app/zapier/files/actions.js:568-576 | a room type written in digits is sent as its decimal value; text with no number at its start is sent as `NaN` |
| FileActions.RoomCreateLabelsDisagreeWithClient | app/zapier/files/actions.js:552-556 | the "Custom room" choice sends 5 and "Public room" sends 6, which the client calls public and custom |
| FileActions.ShareRoom | app/zapier/files/actions.js:618-634 | an empty member list halts with "Failed to invite user"; otherwise the first member's user is returned |
| FileActions.ShareBodyInvitesOneUser | app/zapier/files/actions.js:621-628 | the share request invites exactly the given user with the given access, notified |
| FileActions.Prepare | app/zapier/files/actions.js:684-692 | a failed stash is passed on; the headers are read from the stashed file, and the session is opened in the target folder announcing that name and size |
| FileActions.HaltWith | app/zapier/files/actions.js:702-707 | every caught failure becomes a halt with its message, or "Unknown error" for a thrown non-error |
| FileActions.UploadPrepared | app/zapier/files/actions.js:693-707 | the chunks are the planned ranges of the stashed file, read and uploaded to the session in order, each after the previous upload succeeded; a failed upload or read ends it with the halt of its error; once every chunk is through, the last upload's value, or a halt with "Unknown error" when it has none |
| FileActions.UploadOutcomeIsDetermined | app/zapier/files/uploader.js:90-110 | two runs against the same session and call results send the same chunks and end the same way |
| FileActions.UploadSucceedsWhenEveryCallDoes | app/zapier/files/actions.js:698-701 | when every read and upload succeeds, every chunk is sent and the result is Ok exactly when the last upload returned a value, which is then the result |
| FileActions.UploadFile | app/zapier/files/actions.js:675-711 | the fallback and halt of `createFile`; a failed preparation is the halt of its error with nothing sent; otherwise the outcome of the upload into the opened session, as in the row above; every failure is a halt |
| FileTriggers.FileCreated | app/zapier/files/triggers.js:126-142 | falls back to the room in place, halts when neither is given, else lists that folder's files, newest first |
| FileTriggers.OriginFilterIsExact | app/zapier/files/triggers.js:225 | the origin filter keeps exactly the trashed items from the target, in the listing's order |
| FileTriggers.FileDeleted | app/zapier/files/triggers.js:212-228 | with a room or folder, the trashed files from `folderId \|\| id`, written back into the input; without either, all trashed files |
| FileTriggers.FilesList | app/zapier/files/triggers.js:282-294 | no room gives []; otherwise the files of `folderId \|\| id`, and the caller's input is not written |
| FileTriggers.FilteredSections | app/zapier/files/triggers.js:343-347 | each section becomes its first path part, same length and order; a section without a path fails |
| FileTriggers.FolderCreated | app/zapier/files/triggers.js:383-399 | falls back from the room to the folder in place, halts when neither is given, else lists the folders newest first |
| FileTriggers.FolderDeleted | app/zapier/files/triggers.js:469-484 | a failed trash listing is passed on; only trashed folders are returned, and with a folder or room given only those trashed from `folderId \|\| id` |
| FileTriggers.FolderDeletedFiltersByFallback | app/zapier/files/triggers.js:469-484 | the trashed folders from `folderId \|\| id` when either is given, else all |
| FileTriggers.SharedUsers | app/zapier/files/triggers.js:674 | the users of a member list, position by position |
| FileTriggers.UserInvited | app/zapier/files/triggers.js:664-675 | without `active` every member's user in order; with it the users of exactly the active members, as `Keep` selects them, every active member's user among them |
| FileTriggers.ActiveUsersKeepOrder | app/zapier/files/triggers.js:671-674 | the active users come in the order the room lists its members |
| FileTriggers.ShareRolesAsWritten | app/zapier/files/triggers.js:620-631 | a public room fails because `publicRoomRoles` is not exported by the client module it is taken from |
| FileTriggers.ShareRolesAsWrittenFailsForPublicRooms | app/zapier/files/triggers.js:14 | type 5 fails as written, while the corrected rule returns the public-room table |
| FileTriggers.ShareRoles | app/zapier/files/triggers.js:624-630 | never fails; public-room roles for 5, custom-room roles for 6, none otherwise; equal to the code for every other type |
| FileSearches.MatchingIsExact | app/zapier/files/searches.js:60-61 | a search keeps exactly the listed items whose title contains the query at some position, as a subsequence of the listing |
| FileSearches.SearchesUseFixedFilters | app/zapier/files/searches.js:99-105 | both searches list with sortBy DateAndTime, sortOrder descending and withSubfolders true |
| FileSearches.EmptyQueryKeepsAll | app/zapier/files/searches.js:105 | an empty query keeps every item |
| FileSearches.SearchFile | app/zapier/files/searches.js:52-62 | fails exactly when the listing fails, with its error; every file returned was listed and has the query in its title |
| FileSearches.SearchFolder | app/zapier/files/searches.js:96-106 | fails exactly when the listing fails, with its error; every folder returned was listed and has the query in its title |
| PeopleActions.FirstNamed | app/zapier/people/actions.js:59-65 | the first account whose display name is the address, or none when no account has it |
| PeopleActions.FindUser | app/zapier/people/actions.js:60-64 | the loop returns the first account whose display name equals the address, or nothing |
| PeopleActions.FirstNamedIsFirst | app/zapier/people/actions.js:61-63 | the first index holding the name is the one found |
| PeopleActions.InviteUser | app/zapier/people/actions.js:53-85 | an existing account is returned with no invite sent; otherwise one invitation with the address and role is sent and the account of that name in the reply returned, or a halt; a returned account always has the address |
| Auth.WithSessionHeader | app/docspace/auth/auth.js:60-66 | without a key the headers are untouched; with one, `Authorization` is the key, created if needed, and every other header is kept |
| Auth.SessionHeaderIsIdempotent | app/docspace/auth/auth.js:61-65 | running the hook twice with the same key equals running it once |
| Auth.AppendSessionAuthHeader | app/docspace/auth/auth.js:59-67 | updates the request's headers in place as above and returns the same request |
| Auth.DocspaceAuth | app/docspace/auth/auth.js:78-89 | POST with `UserName` and `Password`; a truthy code is added to the body and appended to the path "/authentication" |
| Auth.PlainAuth | app/docspase/auth/auth.js:69-76 | POST on "/authentication" with `UserName` and `Password`; a code among the credentials is never sent |
| Auth.DocspaceAuthExtendsPlainAuth | app/docspase/auth/auth.js:69-76 | without a code the DocSpace sign-in is the plain one; with one, the code is the path's last segment and the only body difference |
| Auth.Check | app/docspace/auth/auth.js:97-100 | GET on "/authentication" with no body |
| Auth.SessionTest | app/auth.js:75-93 | nothing without a base URL or when the check is falsy; the signed-in user only after a true check |

## Left out

- Percent-encoding of query strings is not modelled. Keys and values appear
  verbatim, joined by `=` and `&`, and the URL's origin is an input instead of
  being resolved by the `URL` constructor.
- Parsing of the content-disposition header is a function parameter; it comes
  from a library.
- Building the `FormData` chunk body and its headers is not modelled. A chunk
  is its byte range, its bytes and the file name.
- `normalize-url` on the sign-in URL is not modelled, and neither is the
  `sessionAuth.perform` call around it.
- Timers (`wait`, `setTimeout`) are not modelled: they only order the calls.
  `delay` is accepted and unused.
- The console logging in the error classifier is not modelled.
- Handlers that only look up My Documents and then delegate are not modelled:
  `createFolderInMyDocuments`, `uploadFileToMyDocuments` and the
  `*InMyDocuments` triggers (`pathParts[0].id`). Route wrappers with no logic
  are not modelled either.
- Decimal.ParseInt: models only an optional sign followed by the longest run
  of decimal digits. It does not skip leading white space, and it reads
  "0x"-prefixed text as 0, where the radix-less `parseInt(length)` of
  app/zapier/files/uploader.js:80 reads it as hexadecimal.
- `Auth.AppendSessionAuthHeader` gives the request a header map value. The
  source mutates the existing header object, which other holders of that
  object would also see; that aliasing is not modelled.
- DocspaceClient.Unwrap: `None` for `response` stands for an absent value and
  also for a present but falsy one (`0`, `""`, `false`); the source falls back
  to `data` in both cases, and the model does not tell them apart.
- Number fields are integers. Non-integer ids, floating-point sizes and
  `Math.ceil` on fractions of negative sizes are modelled only through their
  effect on the loop count.
- Only the `progress` and `percents` fields, and the `error` string of an
  operation, decide when polling stops. Other field types that JavaScript
  would compare with `===` are not modelled.

## Findings

| source | as written | input that shows it | evidently intended | confidence | as-written member | corrected member |
|---|---|---|---|---|---|---|
| app/zapier/files/triggers.js:14 | `shareRoles` takes `publicRoomRoles` from app/docspace/client/client.js, which does not export it, and calls it for public rooms | a room whose `roomType` is 5 | return the public-room role table [2 Viewer, 10 Editor] that app/docspase/client/client.js defines | not executed; high | FileTriggers.ShareRolesAsWritten | FileTriggers.ShareRoles |
