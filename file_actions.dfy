/**
 * The file and room actions (app/zapier/files/actions.js): the decision rules
 * of their `perform` handlers once the API calls are given as functions. The
 * handlers that overwrite `bundle.inputData` in place take a `FolderInput`
 * object and say what they leave in it.
 */
module FileActions {
  import opened Outcomes
  import opened Entities
  import Poller
  import Uploader
  import Decimal
  import DocspaceClient

  /** `s.lastIndexOf(".")`: the position of the last dot, or -1. */
  function LastDot(s: string): (r: int)
    ensures -1 <= r < |s|
    ensures r >= 0 ==> s[r] == '.' && forall j :: r < j < |s| ==> s[j] != '.'
    ensures r == -1 ==> forall j :: 0 <= j < |s| ==> s[j] != '.'
  {
    if s == [] then -1
    else if s[|s| - 1] == '.' then |s| - 1
    else LastDot(s[..|s| - 1])
  }

  /**
   * `title.substring(0, title.lastIndexOf("."))`: the text before the last dot.
   * `substring` treats the end -1 as 0, so a title without a dot becomes empty.
   */
  function TrimExtension(title: string): (r: string)
    ensures r <= title
    ensures '.' !in title ==> r == ""
    ensures '.' in title ==> |r| < |title| && title[|r|] == '.' && '.' !in title[|r| + 1..]
  {
    var k := LastDot(title);
    if k < 0 then "" else title[..k]
  }

  /** Trimming a name with a dot-free extension gives back the name. */
  lemma TrimExtensionRemovesExtension(name: string, ext: string)
    requires '.' !in ext
    ensures TrimExtension(name + "." + ext) == name
  {
    var s := name + "." + ext;
    var k := LastDot(s);
    assert s[|name|] == '.';
    assert forall j :: |name| < j < |s| ==> s[j] == ext[j - |name| - 1];
    assert k == |name|;
    assert s[..k] == name;
  }

  /** A created file with its title trimmed, or the failure of the call. */
  function Trimmed(created: Result<Item>): (r: Result<Item>)
    ensures created.Err? ==> r == created
    ensures created.Ok? ==> r == Ok(created.value.(title := TrimExtension(created.value.title)))
  {
    match created
    case Err(e) => Err(e)
    case Ok(file) => Ok(file.(title := TrimExtension(file.title)))
  }

  /**
   * `createFile`: falls back from the folder to the room, halts when neither
   * is given, and otherwise creates the file and trims its title's extension.
   */
  method CreateFile(input: FolderInput, title: string, createFile: (int, string) -> Result<Item>)
    returns (r: Result<Item>)
    modifies input
    ensures input.id == old(input.id) && input.folderId == FolderOrRoom(old(input.id), old(input.folderId))
    ensures !TruthyNumber(input.folderId) ==> r == Err(Halted(CheckFields))
    ensures TruthyNumber(input.folderId) ==> r == Trimmed(createFile(input.folderId.value, title))
  {
    input.FallBackToRoom();
    if TruthyNumber(input.folderId) {
      var created := createFile(input.folderId.value, title);
      if created.Err? {
        return Err(created.error);
      }
      var file := created.value;
      file := file.(title := TrimExtension(file.title));
      return Ok(file);
    }
    return Err(Halted(CheckFields));
  }

  /**
   * `createFileInMyDocuments`: with a folder it is `createFile`; without one
   * the file is created in My Documents, and its title trimmed the same way.
   */
  method CreateFileInMyDocuments(input: FolderInput, title: string, createFile: (int, string) -> Result<Item>,
                                 createInMyDocuments: string -> Result<Item>)
    returns (r: Result<Item>)
    modifies input
    ensures input.id == old(input.id) && input.folderId == old(input.folderId)
    ensures TruthyNumber(input.folderId) ==> r == Trimmed(createFile(input.folderId.value, title))
    ensures !TruthyNumber(input.folderId) ==> r == Trimmed(createInMyDocuments(title))
  {
    if TruthyNumber(input.folderId) {
      r := CreateFile(input, title, createFile);
      return;
    }
    var created := createInMyDocuments(title);
    if created.Err? {
      return Err(created.error);
    }
    var file := created.value;
    file := file.(title := TrimExtension(file.title));
    return Ok(file);
  }

  /** `createFolder`: the same fallback and halt as `createFile`; the folder is returned as created. */
  method CreateFolder(input: FolderInput, title: string, createFolder: (int, string) -> Result<Item>)
    returns (r: Result<Item>)
    modifies input
    ensures input.id == old(input.id) && input.folderId == FolderOrRoom(old(input.id), old(input.folderId))
    ensures !TruthyNumber(input.folderId) ==> r == Err(Halted(CheckFields))
    ensures TruthyNumber(input.folderId) ==> r == createFolder(input.folderId.value, title)
  {
    input.FallBackToRoom();
    if TruthyNumber(input.folderId) {
      r := createFolder(input.folderId.value, title);
      return;
    }
    return Err(Halted(CheckFields));
  }

  /** `archiveRoom`: polls the one operation the archive call returns, with the default budget. */
  method ArchiveRoom(id: Option<int>, archiveRoom: Option<int> -> Result<Poller.ProgressData>, listOperations: Poller.Endpoint)
    returns (r: Result<Poller.ProgressData>, calls: nat)
    ensures archiveRoom(id).Err? ==> r == Err(archiveRoom(id).error) && calls == 0
    ensures archiveRoom(id).Ok? ==>
      Poller.Polled(r, calls) == Poller.CompleteSpec(archiveRoom(id).value, listOperations, 20) && 1 <= calls <= 20
  {
    var operation := archiveRoom(id);
    if operation.Err? {
      return Err(operation.error), 0;
    }
    var progress := new Poller.Progress(listOperations, operation.value);
    r, calls := progress.Complete(100, 20);
  }

  /** Reading `id` of the `undefined` operation an empty deletion reply leaves. */
  const UndefinedOperation := TypeError("Cannot read properties of undefined (reading 'id')")

  /**
   * `complete()` on a poller built from `undefined`: a non-empty listing makes
   * the lookup read `undefined.id` and throw; when every listing is empty the
   * loop ends with `undefined` (`None`).
   */
  function PollUntracked(endpoint: Poller.Endpoint, calls: nat, remaining: nat): (r: (Result<Option<Poller.ProgressData>>, nat))
    ensures calls <= r.1 <= calls + remaining
    ensures r.0.Ok? ==> r.0.value.None? && r.1 == calls + remaining
    ensures r.0.Ok? ==> forall j :: calls <= j < calls + remaining ==> endpoint(j) == Ok([])
    // every listing empty: the poll ends with `undefined` after the whole budget
    ensures (forall j :: calls <= j < calls + remaining ==> endpoint(j) == Ok([])) ==> r == (Ok(None), calls + remaining)
    // otherwise the first listing that fails or is not empty ends it: with that failure, or the `undefined.id` type error
    ensures r.0.Err? ==> calls < r.1 && forall j :: calls <= j < r.1 - 1 ==> endpoint(j) == Ok([])
    ensures r.0.Err? && endpoint(r.1 - 1).Err? ==> r.0.error == endpoint(r.1 - 1).error
    ensures r.0.Err? && endpoint(r.1 - 1).Ok? ==> endpoint(r.1 - 1).value != [] && r.0.error == UndefinedOperation
    decreases remaining
  {
    if remaining == 0 then (Ok(None), calls)
    else match endpoint(calls)
      case Err(e) => (Err(e), calls + 1)
      case Ok(listing) =>
        if listing != [] then (Err(UndefinedOperation), calls + 1)
        else PollUntracked(endpoint, calls + 1, remaining - 1)
  }

  /**
   * `deleteFolder`: polls the first operation of the returned list with the
   * default budget (an empty list leaves the poller following `undefined`).
   */
  method DeleteFolder(folderId: Option<int>, deleteFolder: Option<int> -> Result<seq<Poller.ProgressData>>,
                      listOperations: Poller.Endpoint)
    returns (r: Result<Option<Poller.ProgressData>>, calls: nat)
    ensures deleteFolder(folderId).Err? ==> r == Err(deleteFolder(folderId).error) && calls == 0
    ensures deleteFolder(folderId).Ok? && deleteFolder(folderId).value != [] ==>
      var polled := Poller.CompleteSpec(deleteFolder(folderId).value[0], listOperations, 20);
      calls == polled.calls && 1 <= calls <= 20 &&
      r == if polled.outcome.Ok? then Ok(Some(polled.outcome.value)) else Err(polled.outcome.error)
    ensures deleteFolder(folderId) == Ok([]) ==> (r, calls) == PollUntracked(listOperations, 0, 20)
  {
    var operations := deleteFolder(folderId);
    if operations.Err? {
      return Err(operations.error), 0;
    }
    if operations.value == [] {
      var untracked := PollUntracked(listOperations, 0, 20);
      return untracked.0, untracked.1;
    }
    var progress := new Poller.Progress(listOperations, operations.value[0]);
    var outcome;
    outcome, calls := progress.Complete(100, 20);
    r := if outcome.Ok? then Ok(Some(outcome.value)) else Err(outcome.error);
  }

  /** The body `roomCreate` posts; `None` for `roomType` stands for `NaN`. */
  datatype RoomBody = RoomBody(roomType: Option<int>, title: string)

  /** `roomCreate`: posts the room type parsed as a base-10 integer, with the title. */
  function RoomCreate<T>(roomType: string, title: string, createRoom: RoomBody -> Result<T>): (r: Result<T>)
    // a choice written in digits is sent as its decimal value
    ensures roomType != [] && Decimal.AllDigits(roomType) ==>
      r == createRoom(RoomBody(Some(Decimal.DigitsValue(roomType)), title))
    // text with no number at its start is sent as `NaN`
    ensures Decimal.ParseInt(roomType).None? ==> r == createRoom(RoomBody(None, title))
  {
    createRoom(RoomBody(Decimal.ParseInt(roomType), title))
  }

  /** Any room type chosen as decimal text reaches the server as that number. */
  lemma RoomCreateSendsChosenType<T>(roomType: int, title: string, createRoom: RoomBody -> Result<T>)
    ensures RoomCreate(Decimal.Show(roomType), title, createRoom) == createRoom(RoomBody(Some(roomType), title))
  {
    Decimal.ParseShow(roomType);
  }

  /**
   * The choice the action labels "Custom room" sends 5, which the client's
   * predicates take for a public room; "Public room" sends 6, a custom room.
   */
  lemma RoomCreateLabelsDisagreeWithClient<T>(title: string, createRoom: RoomBody -> Result<T>)
    ensures RoomCreate("5", title, createRoom) == createRoom(RoomBody(Some(5), title))
    ensures RoomCreate("6", title, createRoom) == createRoom(RoomBody(Some(6), title))
    ensures DocspaceClient.IsPublicRoom(5) && DocspaceClient.IsCustomRoom(6)
  {
    RoomCreateSendsChosenType(5, title, createRoom);
    RoomCreateSendsChosenType(6, title, createRoom);
  }

  /** One invitation of a share request. */
  datatype Invitation = Invitation(access: int, id: string)

  /** The body `shareRoom` sends. */
  datatype ShareBody = ShareBody(invitations: seq<Invitation>, message: string, notify: bool)

  /** A single invitation of `userId` with `access`, notified, with the fixed message. */
  function ShareBodyFor(userId: string, access: int): ShareBody {
    ShareBody([Invitation(access, userId)], "Invitation from Zapier", true)
  }

  const FailedToInvite := "Failed to invite user"

  /**
   * `shareRoom`: shares the room with one user and returns the first member
   * of the reply; an empty member list halts.
   */
  function ShareRoom(roomId: int, userId: string, access: int, shareRoom: (int, ShareBody) -> Result<seq<Member>>)
    : (r: Result<SharedUser>)
    ensures var reply := shareRoom(roomId, ShareBodyFor(userId, access));
      (reply.Err? ==> r == Err(reply.error)) &&
      (reply.Ok? && reply.value == [] ==> r == Err(Halted(FailedToInvite))) &&
      (reply.Ok? && reply.value != [] ==> r == Ok(reply.value[0].sharedTo))
  {
    match shareRoom(roomId, ShareBodyFor(userId, access))
    case Err(e) => Err(e)
    case Ok(members) =>
      if |members| <= 0 then Err(Halted(FailedToInvite))
      else Ok(members[0].sharedTo)
  }

  /** A share request invites exactly the given user with the given access. */
  lemma ShareBodyInvitesOneUser(userId: string, access: int)
    ensures |ShareBodyFor(userId, access).invitations| == 1
    ensures ShareBodyFor(userId, access).invitations[0] == Invitation(access, userId)
    ensures ShareBodyFor(userId, access).notify
  {
  }

  /** What a HEAD request answers: the content-length and content-disposition header values. */
  datatype HeadReply = HeadReply(contentLength: Option<string>, disposition: Option<string>)

  /** The body that opens an upload session. */
  datatype SessionBody = SessionBody(createOn: string, fileName: string, fileSize: Option<int>, folderId: int)

  /**
   * The calls `uploadFile` makes: stashing a URL, the HEAD request, the
   * content-disposition file name, opening a session (its id), the ranged
   * read, and uploading a chunk to a session.
   */
  datatype UploadEnv<T> = UploadEnv(
    stashFile: string -> Result<string>,
    head: string -> Result<HeadReply>,
    fileNameOf: string -> string,
    createSession: (int, SessionBody) -> Result<int>,
    fetch: (string, string) -> Result<Uploader.Bytes>,
    uploadChunk: (int, Uploader.Chunk) -> Result<Option<T>>)

  /** What is known once the upload session is open. */
  datatype Prepared = Prepared(fileStash: string, headers: Uploader.Headers, session: int)

  /** The steps before the first chunk: stash the URL, read its headers, open a session in the folder. */
  function Prepare<T>(url: string, folderId: int, createOn: string, env: UploadEnv<T>): (r: Result<Prepared>)
    ensures Uploader.Stash(url, env.stashFile).Err? ==> r == Err(Uploader.Stash(url, env.stashFile).error)
    ensures r.Ok? ==> Uploader.Stash(url, env.stashFile) == Ok(r.value.fileStash)
    // the headers are read from the stashed file, not from the original URL
    ensures r.Ok? ==> env.head(r.value.fileStash).Ok?
    ensures r.Ok? ==> r.value.headers == Uploader.HeadersOf(env.head(r.value.fileStash).value.contentLength,
        env.head(r.value.fileStash).value.disposition, env.fileNameOf)
    // the session is opened in the target folder, announcing the name and size read
    ensures r.Ok? ==> env.createSession(folderId,
      SessionBody(createOn, r.value.headers.fileName, r.value.headers.fileSize, folderId)) == Ok(r.value.session)
  {
    match Uploader.Stash(url, env.stashFile)
    case Err(e) => Err(e)
    case Ok(fileStash) =>
      match env.head(fileStash)
      case Err(e) => Err(e)
      case Ok(reply) =>
        var headers := Uploader.HeadersOf(reply.contentLength, reply.disposition, env.fileNameOf);
        match env.createSession(folderId, SessionBody(createOn, headers.fileName, headers.fileSize, folderId))
        case Err(e) => Err(e)
        case Ok(session) => Ok(Prepared(fileStash, headers, session))
  }

  /** The halt `uploadFile` turns a caught failure into: its message, or "Unknown error" for a non-error value. */
  function HaltWith(f: Failure): (h: Failure)
    ensures h.Halted?
    ensures f.NonError? ==> h.message == UnknownError
    ensures !f.NonError? ==> h.message == f.message
  {
    if f.NonError? then Halted(UnknownError) else Halted(f.message)
  }

  /** What the upload reads the stashed file as: its name, its announced size and the stash URL. */
  function UploadBody(p: Prepared): Uploader.BodyUpload {
    Uploader.BodyUpload(p.headers.fileName, p.headers.fileSize, p.fileStash)
  }

  /** The ranged read of chunk `i` of the stashed file. */
  function Read<T>(p: Prepared, env: UploadEnv<T>, i: nat): Result<Uploader.Bytes> {
    env.fetch(p.fileStash, Uploader.RangeHeader(Uploader.RangeOf(i)))
  }

  /**
   * The upload into an open session went as `upload` runs it: `sent` are the
   * planned chunks in order, each read successfully and uploaded after the
   * previous upload succeeded. The outcome is the halt of the failed upload,
   * or of the failed read; once every chunk is through, the last upload's
   * result, or a halt with "Unknown error" when there is none.
   */
  ghost predicate UploadedAsPlanned<T>(p: Prepared, env: UploadEnv<T>, r: Result<T>, sent: seq<Uploader.Chunk>) {
    var n := Uploader.ChunkCount(p.headers.fileSize);
    |sent| <= n &&
    (forall i :: 0 <= i < |sent| ==> Read(p, env, i).Ok? && sent[i] == Uploader.ChunkOf(UploadBody(p), i, Read(p, env, i).value)) &&
    (forall i :: 0 <= i < |sent| - 1 ==> env.uploadChunk(p.session, sent[i]).Ok?) &&
    (|sent| > 0 && env.uploadChunk(p.session, sent[|sent| - 1]).Err? ==>
      r == Err(HaltWith(env.uploadChunk(p.session, sent[|sent| - 1]).error))) &&
    ((|sent| == 0 || env.uploadChunk(p.session, sent[|sent| - 1]).Ok?) && |sent| < n ==>
      Read(p, env, |sent|).Err? && r == Err(HaltWith(Read(p, env, |sent|).error))) &&
    ((|sent| == 0 || env.uploadChunk(p.session, sent[|sent| - 1]).Ok?) && |sent| == n ==>
      r == if |sent| > 0 && env.uploadChunk(p.session, sent[|sent| - 1]).value.Some?
           then Ok(env.uploadChunk(p.session, sent[|sent| - 1]).value.value)
           else Err(Halted(UnknownError)))
  }

  /** The chunks an upload sends, and so its outcome, are fixed by the session and the calls' results. */
  lemma UploadOutcomeIsDetermined<T>(p: Prepared, env: UploadEnv<T>,
                                     r1: Result<T>, sent1: seq<Uploader.Chunk>, r2: Result<T>, sent2: seq<Uploader.Chunk>)
    requires UploadedAsPlanned(p, env, r1, sent1) && UploadedAsPlanned(p, env, r2, sent2)
    ensures sent1 == sent2 && r1 == r2
  {
    SentIsPrefix(p, env, r1, sent1, r2, sent2);
    SentIsPrefix(p, env, r2, sent2, r1, sent1);
    assert sent1 == sent2;
  }

  lemma SentIsPrefix<T>(p: Prepared, env: UploadEnv<T>,
                        r1: Result<T>, sent1: seq<Uploader.Chunk>, r2: Result<T>, sent2: seq<Uploader.Chunk>)
    requires UploadedAsPlanned(p, env, r1, sent1) && UploadedAsPlanned(p, env, r2, sent2)
    ensures |sent1| <= |sent2|
    ensures forall i :: 0 <= i < |sent1| ==> sent1[i] == sent2[i]
  {
    if |sent1| > |sent2| {
      assert false;
    }
  }

  /**
   * When every ranged read and every chunk upload succeeds, all chunks are
   * sent, and the result is the last upload's value when it has one.
   */
  lemma UploadSucceedsWhenEveryCallDoes<T>(p: Prepared, env: UploadEnv<T>, r: Result<T>, sent: seq<Uploader.Chunk>)
    requires UploadedAsPlanned(p, env, r, sent)
    requires forall i :: 0 <= i < Uploader.ChunkCount(p.headers.fileSize) ==>
      Read(p, env, i).Ok? && env.uploadChunk(p.session, Uploader.ChunkOf(UploadBody(p), i, Read(p, env, i).value)).Ok?
    ensures |sent| == Uploader.ChunkCount(p.headers.fileSize)
    ensures r.Ok? <==> |sent| > 0 && env.uploadChunk(p.session, sent[|sent| - 1]).value.Some?
    ensures r.Ok? ==> r.value == env.uploadChunk(p.session, sent[|sent| - 1]).value.value
  {
    var n := Uploader.ChunkCount(p.headers.fileSize);
    if |sent| > 0 {
      assert env.uploadChunk(p.session, sent[|sent| - 1]).Ok?;
    }
    if |sent| < n {
      assert false;
    }
  }

  /**
   * The chunked upload once the session is open: the stashed file in 10 MiB
   * ranges into that session, a failure turned into a halt.
   */
  method UploadPrepared<T>(p: Prepared, env: UploadEnv<T>) returns (r: Result<T>, sent: seq<Uploader.Chunk>)
    ensures r.Err? ==> r.error.Halted?
    ensures UploadedAsPlanned(p, env, r, sent)
  {
    var uploaded;
    uploaded, sent := Uploader.Upload(UploadBody(p), env.fetch, c => env.uploadChunk(p.session, c));
    if uploaded.Err? {
      return Err(HaltWith(uploaded.error)), sent;
    }
    r := uploaded;
  }

  /**
   * `uploadFile`: the folder-to-room fallback and the halt of `createFile`;
   * then stash, headers, session and the chunked upload into that session,
   * every failure on the way turned into a halt. `createOn` is the clock's
   * time of the call.
   */
  method UploadFile<T>(input: FolderInput, url: string, createOn: string, env: UploadEnv<T>)
    returns (r: Result<T>, sent: seq<Uploader.Chunk>)
    modifies input
    ensures input.id == old(input.id) && input.folderId == FolderOrRoom(old(input.id), old(input.folderId))
    ensures r.Err? ==> r.error.Halted?
    ensures !TruthyNumber(input.folderId) ==> r == Err(Halted(CheckFields)) && sent == []
    ensures TruthyNumber(input.folderId) ==>
      var prepared := Prepare(url, input.folderId.value, createOn, env);
      (prepared.Err? ==> r == Err(HaltWith(prepared.error)) && sent == []) &&
      (prepared.Ok? ==> UploadedAsPlanned(prepared.value, env, r, sent))
  {
    input.FallBackToRoom();
    if !TruthyNumber(input.folderId) {
      return Err(Halted(CheckFields)), [];
    }
    var prepared := Prepare(url, input.folderId.value, createOn, env);
    if prepared.Err? {
      return Err(HaltWith(prepared.error)), [];
    }
    r, sent := UploadPrepared(prepared.value, env);
  }
}
