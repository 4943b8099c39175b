/**
 * The chunked uploader (app/zapier/files/uploader.js): `stash` keeps a URL
 * that already points into the platform's hydrate store, `headers` reads the
 * size and name of a remote file, and `upload` reads the file in 10 MiB byte
 * ranges and sends each range as one chunk, strictly in order, returning what
 * the last chunk upload returned.
 *
 * The network (the HEAD and ranged GET requests, the platform's file stash
 * and the chunk upload endpoint) is given as functions.
 */
module Uploader {
  import opened Outcomes
  import Decimal

  /** The size of every requested byte range: 10 MiB. */
  const ChunkSize: nat := 10 * 1024 * 1024

  /** URLs starting with this are already in the platform's store. */
  const HydratePrefix := "https://zapier.com/engine/hydrate/"

  /** The file name used when the server sends no content disposition. */
  const DefaultFileName := "File from Zapier.docx"

  /**
   * The number of loop rounds, `Math.ceil(fileSize / chunkSize)`: `None`
   * stands for a size that is `NaN`, for which, as for any size that is not
   * positive, the loop does not run.
   */
  function ChunkCount(fileSize: Option<int>): (n: nat)
    ensures n == 0 <==> fileSize.None? || fileSize.value <= 0
  {
    if fileSize.None? || fileSize.value <= 0 then 0
    else (fileSize.value + ChunkSize - 1) / ChunkSize
  }

  /** For a positive size the count is the ceiling of size / 10 MiB. */
  lemma ChunkCountIsCeiling(fileSize: int)
    requires fileSize > 0
    ensures var n := ChunkCount(Some(fileSize));
      n > 0 && (n - 1) * ChunkSize < fileSize <= n * ChunkSize
  {
    DivisionBounds(fileSize + ChunkSize - 1, ChunkSize);
  }

  lemma DivisionBounds(x: nat, d: nat)
    requires d > 0
    ensures (x / d) * d <= x < (x / d) * d + d
  {
  }

  /** An inclusive byte range, as sent in a `Range` header. */
  datatype ByteRange = ByteRange(first: int, last: int)

  /** The range chunk `i` asks for. The end is never clamped to the file size. */
  function RangeOf(i: nat): (r: ByteRange)
    ensures 0 <= r.first <= r.last && r.last - r.first + 1 == ChunkSize
  {
    ByteRange(i * ChunkSize, i * ChunkSize + ChunkSize - 1)
  }

  /** The `Range` header value for a range. */
  function RangeHeader(range: ByteRange): (h: string)
    ensures |h| > 6 && h[..6] == "bytes="
  {
    "bytes=" + Decimal.Show(range.first) + "-" + Decimal.Show(range.last)
  }

  /**
   * A `Range` header reads back as the range it was made from: after
   * "bytes=" come the first byte in digits, a dash and the last byte.
   */
  lemma RangeHeaderReadsBack(range: ByteRange)
    requires 0 <= range.first && 0 <= range.last
    ensures var h := RangeHeader(range);
      Decimal.ParseInt(h[6..]) == Some(range.first) &&
      var dash := 6 + |Decimal.Show(range.first)|;
      dash < |h| && h[dash] == '-' && Decimal.ParseInt(h[dash + 1..]) == Some(range.last)
  {
    var h := RangeHeader(range);
    var first := Decimal.Show(range.first);
    var rest := "-" + Decimal.Show(range.last);
    assert h[6..] == first + rest;
    Decimal.ParseShowFollowed(range.first, rest);
    assert h[6 + |first| + 1..] == Decimal.Show(range.last);
    Decimal.ParseShow(range.last);
  }

  /** Every range holds exactly one chunk's worth of bytes, and each one starts right after the previous. */
  lemma RangesAreContiguous(i: nat)
    ensures RangeOf(i).last - RangeOf(i).first + 1 == ChunkSize
    ensures RangeOf(i + 1).first == RangeOf(i).last + 1
  {
  }

  /** Ranges of different chunks never overlap, and a later chunk lies above an earlier one. */
  lemma {:induction false} RangesAreAscending(i: nat, j: nat)
    requires i < j
    ensures RangeOf(i).last < RangeOf(j).first
  {
    assert i * ChunkSize + ChunkSize <= j * ChunkSize by {
      MultiplyMonotone(i + 1, j, ChunkSize);
    }
  }

  lemma MultiplyMonotone(a: nat, b: nat, c: nat)
    requires a <= b
    ensures a * c <= b * c
  {
  }

  /**
   * The ranges of the planned chunks cover the whole file: byte `b` lies in
   * the range of chunk `b / chunkSize`, which is one of the chunks sent.
   */
  lemma {:induction false} RangesCoverFile(fileSize: int, b: int)
    requires 0 <= b < fileSize
    ensures b / ChunkSize < ChunkCount(Some(fileSize))
    ensures RangeOf(b / ChunkSize).first <= b <= RangeOf(b / ChunkSize).last
  {
    var i := b / ChunkSize;
    var n := ChunkCount(Some(fileSize));
    ChunkCountIsCeiling(fileSize);
    DivisionBounds(b, ChunkSize);
    if i >= n {
      MultiplyMonotone(n, i, ChunkSize);
      assert false;
    }
  }

  /**
   * The last range ends at the end of its chunk, at or beyond the file's last
   * byte; it ends exactly there only when the size is a multiple of the chunk size.
   */
  lemma {:induction false} LastRangeIsNotClamped(fileSize: int)
    requires fileSize > 0
    ensures var n := ChunkCount(Some(fileSize));
      RangeOf(n - 1).last == n * ChunkSize - 1 && RangeOf(n - 1).last >= fileSize - 1 &&
      (RangeOf(n - 1).last == fileSize - 1 <==> fileSize % ChunkSize == 0)
  {
    var n := ChunkCount(Some(fileSize));
    DivisionBounds(fileSize, ChunkSize);
    var q := fileSize / ChunkSize;
    if fileSize % ChunkSize == 0 {
      DivisionIsUnique(fileSize + ChunkSize - 1, q);
    } else {
      DivisionIsUnique(fileSize + ChunkSize - 1, q + 1);
    }
  }

  /** `x / chunkSize` is the one `a` whose chunk holds `x`. */
  lemma {:induction false} DivisionIsUnique(x: nat, a: nat)
    requires a * ChunkSize <= x < a * ChunkSize + ChunkSize
    ensures x / ChunkSize == a
  {
    DivisionBounds(x, ChunkSize);
    var b := x / ChunkSize;
    if b < a {
      MultiplyMonotone(b + 1, a, ChunkSize);
    }
  }

  /** A 25 MiB file is sent as three chunks; the last asks for bytes 20971520 to 31457279. */
  lemma TwentyFiveMebibytes()
    ensures ChunkCount(Some(25 * 1024 * 1024)) == 3
    ensures RangeOf(2) == ByteRange(20971520, 31457279)
  {
  }

  /** The body `upload` gets: the file's name, its size and the stashed URL to read it from. */
  datatype BodyUpload = BodyUpload(fileName: string, fileSize: Option<int>, fileStash: string)

  type Bytes = seq<bv8>

  /** One chunk as sent: the range it was read with, the bytes read, and the file name of its form. */
  datatype Chunk = Chunk(range: ByteRange, data: Bytes, fileName: string)

  /** The chunk for round `i` once its bytes are read. */
  function ChunkOf(body: BodyUpload, i: nat, data: Bytes): Chunk {
    Chunk(RangeOf(i), data, body.fileName)
  }

  /**
   * `upload(bodyUpload, uploadChunk)`. `fetch(url, range)` is the ranged read
   * of the stashed file; `uploadChunk` returns `None` for a falsy result.
   * `sent` lists the chunks handed to `uploadChunk`, in call order.
   */
  method Upload<T>(body: BodyUpload, fetch: (string, string) -> Result<Bytes>, uploadChunk: Chunk -> Result<Option<T>>)
    returns (r: Result<T>, sent: seq<Chunk>)
    ensures |sent| <= ChunkCount(body.fileSize)
    ensures forall i :: 0 <= i < |sent| ==>
      fetch(body.fileStash, RangeHeader(RangeOf(i))).Ok? &&
      sent[i] == ChunkOf(body, i, fetch(body.fileStash, RangeHeader(RangeOf(i))).value)
    ensures forall i :: 0 <= i < |sent| - 1 ==> uploadChunk(sent[i]).Ok?
    // the last upload call failed: its error is the outcome
    ensures |sent| > 0 && uploadChunk(sent[|sent| - 1]).Err? ==> r == Err(uploadChunk(sent[|sent| - 1]).error)
    // a read failed before all chunks were sent: its error is the outcome
    ensures (|sent| == 0 || uploadChunk(sent[|sent| - 1]).Ok?) && |sent| < ChunkCount(body.fileSize) ==>
      fetch(body.fileStash, RangeHeader(RangeOf(|sent|))).Err? &&
      r == Err(fetch(body.fileStash, RangeHeader(RangeOf(|sent|))).error)
    // every chunk went through: the last call's result, or a halt when there is none
    ensures (|sent| == 0 || uploadChunk(sent[|sent| - 1]).Ok?) && |sent| == ChunkCount(body.fileSize) ==>
      r == if |sent| > 0 && uploadChunk(sent[|sent| - 1]).value.Some?
           then Ok(uploadChunk(sent[|sent| - 1]).value.value)
           else Err(Halted(UnknownError))
  {
    var chunks := ChunkCount(body.fileSize);
    var result: Option<T> := None;
    sent := [];
    for i := 0 to chunks
      invariant |sent| == i
      invariant forall k :: 0 <= k < i ==>
        fetch(body.fileStash, RangeHeader(RangeOf(k))).Ok? &&
        sent[k] == ChunkOf(body, k, fetch(body.fileStash, RangeHeader(RangeOf(k))).value)
      invariant forall k :: 0 <= k < i ==> uploadChunk(sent[k]).Ok?
      invariant result == if i == 0 then None else uploadChunk(sent[i - 1]).value
    {
      var range := RangeOf(i);
      var data := fetch(body.fileStash, RangeHeader(range));
      if data.Err? {
        return Err(data.error), sent;
      }
      var chunk := Chunk(range, data.value, body.fileName);
      sent := sent + [chunk];
      var reply := uploadChunk(chunk);
      if reply.Err? {
        return Err(reply.error), sent;
      }
      result := reply.value;
    }
    if result.None? {
      return Err(Halted(UnknownError)), sent;
    }
    r := Ok(result.value);
  }

  /** What `headers` reads from a HEAD response. `None` for `fileSize` stands for `NaN`. */
  datatype Headers = Headers(fileName: string, fileSize: Option<int>)

  /**
   * `headers(url)` given the response's content-length and content-disposition
   * header values; `fileNameOf` is the content-disposition parser's file name.
   */
  function HeadersOf(contentLength: Option<string>, disposition: Option<string>, fileNameOf: string -> string): (h: Headers)
    ensures !TruthyText(contentLength) ==> h.fileSize == Some(0)
    ensures TruthyText(contentLength) ==> h.fileSize == Decimal.ParseInt(contentLength.value)
    ensures !TruthyText(disposition) ==> h.fileName == DefaultFileName
    ensures TruthyText(disposition) ==> h.fileName == fileNameOf(disposition.value)
  {
    var fileSize := if TruthyText(contentLength) then Decimal.ParseInt(contentLength.value) else Some(0);
    var fileName := if TruthyText(disposition) then fileNameOf(disposition.value) else DefaultFileName;
    Headers(fileName, fileSize)
  }

  /** The size a server announces in decimal is the size `upload` plans chunks for. */
  lemma HeadersReadAnnouncedSize(size: nat, disposition: Option<string>, fileNameOf: string -> string)
    ensures HeadersOf(Some(Decimal.Show(size)), disposition, fileNameOf).fileSize == Some(size)
  {
    Decimal.ParseShow(size);
  }

  /** `stash(url)`; `stashFile` stands for fetching `url` and stashing it on the platform. */
  function Stash(url: string, stashFile: string -> Result<string>): (r: Result<string>)
    ensures HydratePrefix <= url ==> r == Ok(url)
    ensures !(HydratePrefix <= url) ==> r == stashFile(url)
  {
    if HydratePrefix <= url then Ok(url) else stashFile(url)
  }

  /** Stashing a URL the platform's store returned is a no-op: stashing twice equals stashing once. */
  lemma StashIsIdempotent(url: string, stashFile: string -> Result<string>)
    requires forall u :: stashFile(u).Ok? ==> HydratePrefix <= stashFile(u).value
    ensures Stash(url, stashFile).Ok? ==> Stash(Stash(url, stashFile).value, stashFile) == Stash(url, stashFile)
  {
  }
}
