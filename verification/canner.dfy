/**
 * The Canner data source: profile lookup, positional placeholders, the
 * chunked read-ahead stream over a backend cursor, the connection-release
 * discipline, the export pre-checks and the download file-name rule.
 *
 * The backend is abstract. A pooled connection is a `Client` that counts its
 * releases. A cursor holds the rows the backend has not delivered yet and,
 * optionally, the error it reports once those run out.
 */
module Canner {
  import opened Wrappers
  import opened Decimal

  /** A result row; its contents are opaque to the data source. */
  datatype Row = Row(fields: map<string, string>)

  /** A column descriptor of the first chunk's result (name and backend type id). */
  datatype Field = Field(name: string, dataTypeID: int)

  /** A column as `getColumns` reports it. */
  datatype Column = Column(name: string, dataType: string)

  /** The connection options of a profile; only the page size matters here. */
  datatype PGOptions = PGOptions(chunkSize: Option<nat>)

  datatype Profile = Profile(name: string, connection: Option<PGOptions>)

  datatype Error =
    | ProfileNotFound(profileName: string)
    | DirectoryNotFound(directory: string)
    | Backend(message: string)

  const DefaultChunkSize: nat := 100

  /**
   * The chunk size `getResultFromCursor` reads with: absent options default to
   * no options (a default parameter, so only `undefined` triggers it), and an
   * absent `chunkSize` defaults to 100.
   */
  function ChunkSize(options: Option<PGOptions>): nat {
    match options
    case None => DefaultChunkSize
    case Some(o) => o.chunkSize.GetOr(DefaultChunkSize)
  }

  /** `prepare`: the placeholder for the 1-based bind position `parameterIndex`, `$` and the index in decimal. */
  function Prepare(parameterIndex: nat): string {
    "$" + NatToDecimal(parameterIndex)
  }

  /** A placeholder is `$` followed by digits that read back as the bind position. */
  lemma PrepareRoundTrip(parameterIndex: nat)
    ensures |Prepare(parameterIndex)| >= 2 && Prepare(parameterIndex)[0] == '$'
    ensures IsDigits(Prepare(parameterIndex)[1..])
    ensures DecimalValue(Prepare(parameterIndex)[1..]) == parameterIndex
  {
    assert Prepare(parameterIndex)[1..] == NatToDecimal(parameterIndex);
    DecimalRoundTrip(parameterIndex);
  }

  /** Two bind positions never share a placeholder. */
  lemma PrepareInjective(i: nat, j: nat)
    requires Prepare(i) == Prepare(j)
    ensures i == j
  {
    PrepareRoundTrip(i);
    PrepareRoundTrip(j);
  }

  // ---------------------------------------------------------------------------
  // Download file names
  // ---------------------------------------------------------------------------

  /** `s.split('/').pop()`: the text after the last '/', or all of `s` when it has none. */
  function AfterLastSlash(s: string): (r: string)
    ensures '/' !in r
    ensures |r| <= |s| && r == s[|s| - |r|..]
    ensures |r| < |s| ==> s[|s| - |r| - 1] == '/'
  {
    if s == [] || s[|s| - 1] == '/' then []
    else AfterLastSlash(s[..|s| - 1]) + [s[|s| - 1]]
  }

  /** `t.split('?')[0]`: the text before the first '?', or all of `t` when it has none. */
  function BeforeFirstQuestionMark(t: string): (r: string)
    ensures '?' !in r
    ensures |r| <= |t| && r == t[..|r|]
    ensures |r| < |t| ==> t[|r|] == '?'
  {
    if t == [] || t[0] == '?' then []
    else [t[0]] + BeforeFirstQuestionMark(t[1..])
  }

  /** The stem of the file a presigned URL is saved under: the last path segment without its query, or `part<index>`. */
  function FileStem(url: string, index: nat): string {
    var name := BeforeFirstQuestionMark(AfterLastSlash(url));
    if name == [] then "part" + NatToDecimal(index) else name
  }

  /** The name of the file the `index`-th presigned URL is downloaded to. */
  function DownloadFileName(url: string, index: nat): (fileName: string)
    ensures |fileName| > |".parquet"| && fileName[|fileName| - |".parquet"|..] == ".parquet"
    ensures fileName[..|fileName| - |".parquet"|] == FileStem(url, index)
  {
    FileStem(url, index) + ".parquet"
  }

  /**
   * The stem never leaves the export directory and carries no query string:
   * it has no '/' and no '?', and it is never empty.
   */
  lemma FileStemIsPlainName(url: string, index: nat)
    ensures |FileStem(url, index)| > 0
    ensures '/' !in FileStem(url, index) && '?' !in FileStem(url, index)
  {
    var name := BeforeFirstQuestionMark(AfterLastSlash(url));
    if name == [] {
      PartNameIsPlain(index);
    } else {
      PrefixKeepsOut(AfterLastSlash(url), |name|, '/');
    }
  }

  /** `part<index>` holds only letters and digits. */
  lemma PartNameIsPlain(index: nat)
    ensures '/' !in "part" + NatToDecimal(index) && '?' !in "part" + NatToDecimal(index)
  {
    var digits := NatToDecimal(index);
    NatToDecimalDigits(index);
    var stem := "part" + digits;
    forall k | 0 <= k < |stem| ensures stem[k] != '/' && stem[k] != '?' {
      if k >= 4 {
        assert stem[k] == digits[k - 4];
      }
    }
  }

  /** A prefix of a string without `c` has no `c` either. */
  lemma PrefixKeepsOut(s: string, n: nat, c: char)
    requires n <= |s| && c !in s
    ensures c !in s[..n]
  {
    forall k | 0 <= k < n ensures s[..n][k] != c {
      assert s[..n][k] == s[k];
    }
  }

  /** A URL whose last segment is `name?query` is saved as `name.parquet`, whatever precedes that segment. */
  lemma {:induction false} FileStemOfPresignedUrl(prefix: string, name: string, query: string, index: nat)
    requires '/' !in name && '?' !in name && '/' !in query && name != []
    ensures FileStem(prefix + "/" + name + "?" + query, index) == name
  {
    var url := prefix + "/" + name + "?" + query;
    var last := name + "?" + query;
    AfterLastSlashOfSuffix(prefix + "/", last);
    assert url == (prefix + "/") + last;
    BeforeQuestionMarkOfPrefix(name, query);
  }

  /**
   * Only the last '/' counts, wherever it is: a URL whose query string holds a
   * '/' takes its stem from the part of the query after that '/'.
   */
  lemma SlashInQuery(head: string, tail: string, index: nat)
    requires '/' !in tail && '?' !in tail && tail != []
    ensures FileStem(head + "/" + tail, index) == tail
  {
    AfterLastSlashOfSuffix(head + "/", tail);
    assert head + "/" + tail == (head + "/") + tail;
    assert |BeforeFirstQuestionMark(tail)| == |tail|;
  }

  /** For instance `h/p/file?a=b/c` is saved under the stem `c`, not `file`. */
  lemma SlashInQueryExample()
    ensures FileStem("h/p/file?a=b/c", 0) == "c"
  {
    SlashInQuery("h/p/file?a=b", "c", 0);
    assert "h/p/file?a=b" + "/" + "c" == "h/p/file?a=b/c";
  }

  lemma {:induction false} AfterLastSlashOfSuffix(p: string, t: string)
    requires |p| > 0 && p[|p| - 1] == '/' && '/' !in t
    ensures AfterLastSlash(p + t) == t
    decreases |t|
  {
    if t == [] {
      assert p + t == p;
    } else {
      var s := p + t;
      assert s[..|s| - 1] == p + t[..|t| - 1];
      AfterLastSlashOfSuffix(p, t[..|t| - 1]);
      assert t == t[..|t| - 1] + [t[|t| - 1]];
    }
  }

  lemma {:induction false} BeforeQuestionMarkOfPrefix(name: string, query: string)
    requires '?' !in name
    ensures BeforeFirstQuestionMark(name + "?" + query) == name
    decreases |name|
  {
    var t := name + "?" + query;
    if name != [] {
      assert t[1..] == name[1..] + "?" + query;
      BeforeQuestionMarkOfPrefix(name[1..], query);
      assert name == [name[0]] + name[1..];
    }
  }

  /** The paths `downloadFiles` writes to, one per URL, in URL order (`path.join` taken as a plain '/' join). */
  function DownloadTargets(directory: string, urls: seq<string>): (paths: seq<string>)
    ensures |paths| == |urls|
    ensures forall i :: 0 <= i < |urls| ==> paths[i] == directory + "/" + DownloadFileName(urls[i], i)
  {
    seq(|urls|, i requires 0 <= i < |urls| => directory + "/" + DownloadFileName(urls[i], i))
  }

  /**
   * Every download lands directly in the export directory: its path is the
   * directory, one '/', and a non-empty stem free of '/' and '?' followed by
   * `.parquet`, so nothing after the directory holds a '/'.
   */
  lemma DownloadTargetsInDirectory(directory: string, urls: seq<string>, i: nat)
    requires i < |urls|
    ensures var path := DownloadTargets(directory, urls)[i];
      var stem := FileStem(urls[i], i);
      && path == directory + "/" + stem + ".parquet"
      && |stem| > 0 && '/' !in stem && '?' !in stem
      && path[..|directory| + 1] == directory + "/"
      && '/' !in path[|directory| + 1..]
  {
    var stem := FileStem(urls[i], i);
    var path := DownloadTargets(directory, urls)[i];
    FileStemIsPlainName(urls[i], i);
    assert path == (directory + "/") + (stem + ".parquet");
    assert path[|directory| + 1..] == stem + ".parquet";
  }

  /** `getColumns`: one column per result field, in field order, with the mapped type. */
  function GetColumns(fields: seq<Field>, typeOf: int -> string): (columns: seq<Column>)
    ensures |columns| == |fields|
    ensures forall i :: 0 <= i < |fields| ==> columns[i] == Column(fields[i].name, typeOf(fields[i].dataTypeID))
  {
    seq(|fields|, i requires 0 <= i < |fields| => Column(fields[i].name, typeOf(fields[i].dataTypeID)))
  }

  // ---------------------------------------------------------------------------
  // Connections, cursors and the row stream
  // ---------------------------------------------------------------------------

  /**
   * The rows one read with row limit `n` hands over: the first `n` of `s`,
   * or all of `s` when it holds fewer or when `n` is 0, which asks for no
   * row limit at all.
   */
  function Take(s: seq<Row>, n: nat): (r: seq<Row>)
    ensures |r| <= |s| && r == s[..|r|]
    ensures n > 0 ==> |r| <= n
    ensures |r| < |s| ==> |r| == n
    ensures n == 0 ==> r == s
  {
    if 0 < n < |s| then s[..n] else s
  }

  /** The rows left behind by that read. */
  function Drop(s: seq<Row>, n: nat): (r: seq<Row>)
    ensures Take(s, n) + r == s
  {
    if 0 < n < |s| then s[n..] else []
  }

  /** A connection checked out of a pool; `releases` counts `client.release()` calls. */
  class Client {
    var releases: nat

    constructor ()
      ensures releases == 0
    {
      releases := 0;
    }

    method Release()
      modifies this
      ensures releases == old(releases) + 1
    {
      releases := releases + 1;
    }
  }

  /** A `pg-cursor` over one query. */
  class Cursor {
    const client: Client
    /** Rows the backend has not delivered yet, in result order. */
    var rows: seq<Row>
    /** The error the backend reports once `rows` run out, if any. */
    var failure: Option<string>
    var closed: bool
    /** The `once('done')` listener is registered and has not run yet. */
    var doneListener: bool

    constructor (client: Client, rows: seq<Row>, failure: Option<string>)
      ensures this.client == client && this.rows == rows && this.failure == failure
      ensures !closed && !doneListener
    {
      this.client := client;
      this.rows := rows;
      this.failure := failure;
      closed := false;
      doneListener := false;
    }

    /**
     * `cursor.read(maxRows, cb)`: up to `maxRows` further rows (every remaining
     * row when `maxRows` is 0, the driver's "no row limit"), or the backend's
     * error once the rows run out.
     */
    method Read(maxRows: nat) returns (r: Result<seq<Row>, string>)
      modifies this`rows
      ensures old(rows) == [] && failure.Some? ==> r == Failure(failure.value) && rows == old(rows)
      ensures old(rows) != [] || failure.None? ==>
        r == Success(Take(old(rows), maxRows)) && rows == Drop(old(rows), maxRows)
    {
      if rows == [] && failure.Some? {
        r := Failure(failure.value);
      } else {
        r := Success(Take(rows, maxRows));
        rows := Drop(rows, maxRows);
      }
    }

    /** `cursor.once('done', …)`: register the listener that closes the cursor and releases the client. */
    method OnceDone()
      modifies this`doneListener
      ensures doneListener
    {
      doneListener := true;
    }

    /** `cursor.removeAllListeners('done')`: a later `done` finds no listener. */
    method RemoveDoneListener()
      modifies this`doneListener
      ensures !doneListener
    {
      doneListener := false;
    }

    /** `cursor.emit('done')`: a `once` listener runs at most once, closing the cursor before releasing. */
    method EmitDone()
      modifies this`doneListener, this`closed, client
      ensures !doneListener
      ensures old(doneListener) ==> closed && client.releases == old(client.releases) + 1
      ensures !old(doneListener) ==> closed == old(closed) && client.releases == old(client.releases)
    {
      if doneListener {
        doneListener := false;
        closed := true;
        client.Release();
      }
    }
  }

  /** The `fetchNext` closure's state: the buffer, its read index, and the rows the cursor still holds. */
  datatype FetchState = FetchState(bufferedRows: seq<Row>, bufferReadIndex: nat, cursorRows: seq<Row>)

  /** Rows not handed out yet: the unread part of the buffer, then the cursor's. */
  function Remaining(st: FetchState): seq<Row> {
    (if st.bufferReadIndex <= |st.bufferedRows| then st.bufferedRows[st.bufferReadIndex..] else []) + st.cursorRows
  }

  /**
   * One `fetchNext` call. When the read index has reached the end of the
   * buffer, the buffer is replaced by one cursor read of `chunkSize` rows and
   * the index reset; a failed read leaves both as they were. Then the row at
   * the index is handed out (`None` for `null` past the end) and the index
   * moves on.
   */
  function FetchStep(st: FetchState, chunkSize: nat, failure: Option<string>): (Result<Option<Row>, string>, FetchState) {
    if st.bufferReadIndex >= |st.bufferedRows| then
      if st.cursorRows == [] && failure.Some? then
        (Failure(failure.value), st)
      else
        var refill := Take(st.cursorRows, chunkSize);
        (Success(if refill == [] then None else Some(refill[0])), FetchState(refill, 1, Drop(st.cursorRows, chunkSize)))
    else
      (Success(Some(st.bufferedRows[st.bufferReadIndex])), st.(bufferReadIndex := st.bufferReadIndex + 1))
  }

  /** A refill hands out the first row read, and every other row read stays remaining, in order. */
  lemma RefillInOrder(rows: seq<Row>, chunkSize: nat)
    ensures var refill := Take(rows, chunkSize);
      var next := FetchState(refill, 1, Drop(rows, chunkSize));
      && (refill != [] ==> [refill[0]] + Remaining(next) == rows)
      && (refill == [] ==> Remaining(next) == rows && rows == [])
      && (chunkSize > 0 ==> |refill| <= chunkSize)
      && (chunkSize == 0 ==> refill == rows)
  {
    var refill := Take(rows, chunkSize);
    var next := FetchState(refill, 1, Drop(rows, chunkSize));
    if refill != [] {
      assert refill == [refill[0]] + refill[1..];
      assert Remaining(next) == refill[1..] + Drop(rows, chunkSize);
    } else {
      assert Remaining(next) == Drop(rows, chunkSize);
    }
  }

  /** Reading from the buffer hands out the row at the index, and the rest stays remaining. */
  lemma BufferHitInOrder(st: FetchState)
    requires st.bufferReadIndex < |st.bufferedRows|
    ensures [st.bufferedRows[st.bufferReadIndex]] + Remaining(st.(bufferReadIndex := st.bufferReadIndex + 1)) == Remaining(st)
  {
    var buf, i := st.bufferedRows, st.bufferReadIndex;
    assert buf[i..] == [buf[i]] + buf[i + 1..];
  }

  /**
   * `fetchNext` hands out rows in result order, none skipped or repeated;
   * `null` and read errors come only once every row was handed out; with a
   * positive chunk size the buffer never holds more than `chunkSize` rows.
   */
  lemma FetchStepInOrder(st: FetchState, chunkSize: nat, failure: Option<string>)
    ensures var (r, next) := FetchStep(st, chunkSize, failure);
      && (r.Success? && r.value.Some? ==> [r.value.value] + Remaining(next) == Remaining(st))
      && (!(r.Success? && r.value.Some?) ==> Remaining(next) == Remaining(st))
      && (r == Success(None) ==> Remaining(st) == [])
      && (r.Failure? ==> Remaining(st) == [] && failure == Some(r.error))
      && ((chunkSize > 0 ==> |st.bufferedRows| <= chunkSize) && st.bufferReadIndex <= |st.bufferedRows| + 1 ==>
            (chunkSize > 0 ==> |next.bufferedRows| <= chunkSize) && next.bufferReadIndex <= |next.bufferedRows| + 1)
  {
    if st.bufferReadIndex >= |st.bufferedRows| {
      assert Remaining(st) == st.cursorRows;
      RefillInOrder(st.cursorRows, chunkSize);
    } else {
      BufferHitInOrder(st);
    }
  }

  /**
   * The object-mode `Readable` built by `getResultFromCursor` together with its
   * `fetchNext` closure state (`bufferedRows`, `bufferReadIndex`).
   */
  class RowStream {
    const cursor: Cursor
    const chunkSize: nat
    var bufferedRows: seq<Row>
    var bufferReadIndex: nat
    /** Rows pushed to the consumer so far. */
    var pushed: seq<Row>
    /** `push(null)` happened: the stream reached its end. */
    var ended: bool
    var destroyed: bool
    /** The error the stream was destroyed with, if any. */
    var error: Option<string>
    /** The query's whole result set, in backend order. */
    ghost const result: seq<Row>

    function State(): FetchState
      reads this`bufferedRows, this`bufferReadIndex, cursor`rows
    {
      FetchState(bufferedRows, bufferReadIndex, cursor.rows)
    }

    ghost predicate BufferValid()
      reads this`bufferedRows, this`bufferReadIndex
    {
      (chunkSize > 0 ==> |bufferedRows| <= chunkSize) && bufferReadIndex <= |bufferedRows| + 1
    }

    /** Rows reach the consumer in result order, none skipped or repeated. */
    ghost predicate InOrder()
      reads this`pushed, this`bufferedRows, this`bufferReadIndex, cursor`rows
    {
      pushed + Remaining(State()) == result
    }

    /**
     * The client is released exactly when the stream has been destroyed, and
     * then once, after the cursor was closed.
     */
    ghost predicate ReleasedOnDestroy()
      reads this`destroyed, this`ended, this`error, cursor`doneListener, cursor`closed, cursor.client`releases
    {
      && (destroyed <==> !cursor.doneListener)
      && cursor.client.releases == (if destroyed then 1 else 0)
      && (destroyed ==> cursor.closed)
      && (!destroyed ==> error.None?)
      && (ended ==> destroyed)
    }

    ghost predicate Valid()
      reads this, cursor, cursor.client
    {
      && BufferValid()
      && InOrder()
      && ReleasedOnDestroy()
      && (ended ==> pushed == result)
    }

    constructor (cursor: Cursor, chunkSize: nat, firstChunk: seq<Row>, ghost result: seq<Row>)
      requires cursor.doneListener && cursor.client.releases == 0
      requires (chunkSize > 0 ==> |firstChunk| <= chunkSize) && result == firstChunk + cursor.rows
      ensures this.cursor == cursor && this.chunkSize == chunkSize && this.result == result
      ensures bufferedRows == firstChunk && bufferReadIndex == 0
      ensures pushed == [] && !ended && !destroyed && error == None
      ensures Valid()
    {
      this.cursor := cursor;
      this.chunkSize := chunkSize;
      this.result := result;
      bufferedRows := firstChunk;
      bufferReadIndex := 0;
      pushed := [];
      ended := false;
      destroyed := false;
      error := None;
      new;
      assert bufferedRows[0..] == firstChunk;
    }

    /** `fetchNext`, one step of `FetchStep` on the closure's state and the cursor. */
    method FetchNext() returns (r: Result<Option<Row>, string>)
      modifies this`bufferedRows, this`bufferReadIndex, cursor`rows
      ensures (r, State()) == FetchStep(old(State()), chunkSize, cursor.failure)
    {
      if bufferReadIndex >= |bufferedRows| {
        var chunk := cursor.Read(chunkSize);
        if chunk.Failure? {
          return Failure(chunk.error);
        }
        bufferedRows := chunk.value;
        bufferReadIndex := 0;
      }
      r := Success(if bufferReadIndex < |bufferedRows| then Some(bufferedRows[bufferReadIndex]) else None);
      bufferReadIndex := bufferReadIndex + 1;
    }

    /** `destroy()`: emits `done` on the cursor, so the client is released; a second call changes nothing. */
    method Destroy(error: Option<string>)
      requires Valid()
      modifies this`destroyed, this`error, cursor`doneListener, cursor`closed, cursor.client
      ensures Valid() && destroyed && cursor.client.releases == 1 && cursor.closed
      ensures old(destroyed) ==> this.error == old(this.error)
      ensures !old(destroyed) ==> this.error == error
    {
      if !destroyed {
        destroyed := true;
        this.error := error;
        cursor.EmitDone();
      }
    }

    /**
     * One `read()` call of the stream machinery: push the fetched row, or end
     * the stream on `null` (auto-destroy), or destroy it with the read error.
     */
    method Pull()
      requires Valid() && !destroyed
      modifies this`bufferedRows, this`bufferReadIndex, this`pushed, this`ended, this`destroyed, this`error
      modifies cursor`rows, cursor`doneListener, cursor`closed, cursor.client
      ensures Valid()
      ensures |Remaining(State())| < old(|Remaining(State())|) || destroyed
      ensures !destroyed ==> |pushed| == old(|pushed|) + 1
      ensures destroyed ==> cursor.client.releases == 1 && pushed == old(pushed)
      ensures destroyed ==> pushed == result
      ensures error.Some? ==> error == cursor.failure
    {
      ghost var before := State();
      FetchStepInOrder(before, chunkSize, cursor.failure);
      var r := FetchNext();
      assert BufferValid();
      if r.Failure? {
        assert Remaining(State()) == Remaining(before) == [];
        assert InOrder();
        Destroy(Some(r.error));
      } else if r.value.None? {
        assert Remaining(State()) == Remaining(before);
        assert InOrder();
        assert pushed == result;
        Destroy(None);
        ended := true;
      } else {
        ghost var earlier := pushed;
        pushed := pushed + [r.value.value];
        assert pushed + Remaining(State()) == earlier + ([r.value.value] + Remaining(State()));
      }
    }
  }

  /**
   * A consumer reading the stream to its end: the client is released exactly
   * once, and every row of the result arrives, in order.
   */
  method Drain(stream: RowStream)
    requires stream.Valid() && !stream.destroyed
    modifies stream, stream.cursor, stream.cursor.client
    ensures stream.Valid() && stream.destroyed
    ensures stream.cursor.client.releases == 1 && stream.cursor.closed
    ensures stream.pushed == stream.result
    ensures stream.error.Some? ==> stream.error == stream.cursor.failure
  {
    while !stream.destroyed
      invariant stream.Valid()
      invariant stream.error.Some? ==> stream.error == stream.cursor.failure
      invariant stream.destroyed ==> stream.pushed == stream.result
      decreases |Remaining(stream.State())|, if stream.destroyed then 0 else 1
    {
      stream.Pull();
    }
  }

  /**
   * The part of `execute` after the SQL was built, as written: open a cursor
   * on the client, register its `done` listener, read the first chunk, and
   * wrap the cursor in a row stream. A failed first read releases the client
   * in the catch block but leaves the `done` listener registered.
   */
  method OpenRowStreamAsWritten(client: Client, chunkSize: nat, backendRows: seq<Row>, backendFailure: Option<string>)
    returns (r: Result<RowStream, string>, cursor: Cursor)
    requires client.releases == 0
    modifies client
    ensures fresh(cursor) && cursor.client == client
    ensures backendRows == [] && backendFailure.Some? ==>
      r == Failure(backendFailure.value) && client.releases == 1 && cursor.doneListener
    ensures backendRows != [] || backendFailure.None? ==>
      && r.Success? && fresh(r.value) && r.value.cursor == cursor
      && r.value.Valid() && client.releases == 0
      && r.value.result == backendRows && cursor.failure == backendFailure
      && r.value.chunkSize == chunkSize && r.value.pushed == [] && !r.value.destroyed
  {
    cursor := new Cursor(client, backendRows, backendFailure);
    cursor.OnceDone();
    var firstChunk := cursor.Read(chunkSize);
    if firstChunk.Failure? {
      client.Release();
      return Failure(firstChunk.error), cursor;
    }
    var stream := new RowStream(cursor, chunkSize, firstChunk.value, backendRows);
    r := Success(stream);
  }

  /**
   * As written, if anything emits `done` on the cursor after a failed first
   * read, it still finds the listener, so the client is released a second time.
   */
  method DoneAfterFailedReadAsWritten(chunkSize: nat, failure: string) returns (releases: nat)
    ensures releases == 2
  {
    var client := new Client();
    var _, cursor := OpenRowStreamAsWritten(client, chunkSize, [], Some(failure));
    cursor.EmitDone();
    releases := client.releases;
  }

  /**
   * The same step with the listener removed before the catch block releases
   * the client: a failed first read releases it once, and no later `done`
   * can release it again; a successful one is as written.
   */
  method OpenRowStream(client: Client, chunkSize: nat, backendRows: seq<Row>, backendFailure: Option<string>)
    returns (r: Result<RowStream, string>, cursor: Cursor)
    requires client.releases == 0
    modifies client
    ensures fresh(cursor) && cursor.client == client
    ensures backendRows == [] && backendFailure.Some? ==>
      r == Failure(backendFailure.value) && client.releases == 1 && !cursor.doneListener
    ensures backendRows != [] || backendFailure.None? ==>
      && r.Success? && fresh(r.value) && r.value.cursor == cursor
      && r.value.Valid() && client.releases == 0
      && r.value.result == backendRows && cursor.failure == backendFailure
      && r.value.chunkSize == chunkSize && r.value.pushed == [] && !r.value.destroyed
  {
    cursor := new Cursor(client, backendRows, backendFailure);
    cursor.OnceDone();
    var firstChunk := cursor.Read(chunkSize);
    if firstChunk.Failure? {
      cursor.RemoveDoneListener();
      client.Release();
      return Failure(firstChunk.error), cursor;
    }
    var stream := new RowStream(cursor, chunkSize, firstChunk.value, backendRows);
    r := Success(stream);
  }

  /** With the listener removed, a `done` after a failed first read leaves the client released once. */
  method DoneAfterFailedRead(chunkSize: nat, failure: string) returns (releases: nat)
    ensures releases == 1
  {
    var client := new Client();
    var _, cursor := OpenRowStream(client, chunkSize, [], Some(failure));
    cursor.EmitDone();
    releases := client.releases;
  }

  /** What `execute` hands back: the first chunk's columns and the row stream. */
  datatype DataResult = DataResult(columns: seq<Column>, data: RowStream)

  // ---------------------------------------------------------------------------
  // The pool registry filled by `onActivate`
  // ---------------------------------------------------------------------------

  /** Every registered name has exactly one position in `order`, and every position a registered name. */
  ghost predicate PoolsValid(mapping: map<string, Option<PGOptions>>, order: seq<string>) {
    && (forall n :: n in mapping <==> n in order)
    && (forall i, j :: 0 <= i < j < |order| ==> order[i] != order[j])
  }

  /**
   * The registry after adding one pool per profile in turn: a name seen for
   * the first time is appended to the order, a repeated name only has its
   * options replaced.
   */
  function AddPools(mapping: map<string, Option<PGOptions>>, order: seq<string>, profiles: seq<Profile>)
    : (map<string, Option<PGOptions>>, seq<string>)
  {
    if profiles == [] then (mapping, order)
    else
      var (m, o) := AddPools(mapping, order, profiles[..|profiles| - 1]);
      var p := profiles[|profiles| - 1];
      (m[p.name := p.connection], if p.name in m then o else o + [p.name])
  }

  /** Adding pools keeps the registry well formed and only ever extends the order. */
  lemma {:induction false} AddPoolsValid(mapping: map<string, Option<PGOptions>>, order: seq<string>, profiles: seq<Profile>)
    requires PoolsValid(mapping, order)
    ensures PoolsValid(AddPools(mapping, order, profiles).0, AddPools(mapping, order, profiles).1)
    ensures var o := AddPools(mapping, order, profiles).1; |order| <= |o| && o[..|order|] == order
  {
    if profiles != [] {
      var front := profiles[..|profiles| - 1];
      AddPoolsValid(mapping, order, front);
      var (m, o) := AddPools(mapping, order, front);
      var p := profiles[|profiles| - 1];
      if p.name !in m {
        var o' := o + [p.name];
        assert o'[..|order|] == o[..|order|];
        forall i, j | 0 <= i < j < |o'| ensures o'[i] != o'[j] {
          if j == |o| {
            assert o[i] in o;
          }
        }
      }
    }
  }

  /** The registered names are the earlier ones plus the profile names. */
  lemma {:induction false} AddPoolsKeys(mapping: map<string, Option<PGOptions>>, order: seq<string>, profiles: seq<Profile>)
    ensures AddPools(mapping, order, profiles).0.Keys == mapping.Keys + set p | p in profiles :: p.name
  {
    if profiles != [] {
      var front := profiles[..|profiles| - 1];
      AddPoolsKeys(mapping, order, front);
      assert forall p :: p in profiles <==> p in front || p == profiles[|profiles| - 1];
    }
  }

  /** A name no profile carries keeps its earlier options, or stays unregistered. */
  lemma {:induction false} AddPoolsUntouched(mapping: map<string, Option<PGOptions>>, order: seq<string>, profiles: seq<Profile>, name: string)
    requires forall p :: p in profiles ==> p.name != name
    ensures var m := AddPools(mapping, order, profiles).0;
      (name in m <==> name in mapping) && (name in mapping ==> m[name] == mapping[name])
  {
    if profiles != [] {
      var front := profiles[..|profiles| - 1];
      assert forall p :: p in front ==> p in profiles;
      AddPoolsUntouched(mapping, order, front, name);
    }
  }

  /** A name is bound to the options of the last profile carrying it. */
  lemma {:induction false} AddPoolsLastWins(mapping: map<string, Option<PGOptions>>, order: seq<string>, profiles: seq<Profile>, i: nat)
    requires i < |profiles|
    requires forall j :: i < j < |profiles| ==> profiles[j].name != profiles[i].name
    ensures var m := AddPools(mapping, order, profiles).0;
      profiles[i].name in m && m[profiles[i].name] == profiles[i].connection
  {
    if i < |profiles| - 1 {
      var front := profiles[..|profiles| - 1];
      assert front[i] == profiles[i];
      forall j | i < j < |front| ensures front[j].name != front[i].name {
        assert front[j] == profiles[j];
      }
      AddPoolsLastWins(mapping, order, front, i);
    }
  }

  /** The data source's state: one pool per profile, in activation order. */
  class CannerDataSource {
    var poolMapping: map<string, Option<PGOptions>>
    /** Profile names in the order their pools were added (the map's iteration order). */
    var poolOrder: seq<string>
    /** `pool.connect()` calls. */
    var connectionsAcquired: nat
    /** Profiles whose pool was ended, in the order `destroy` ended them. */
    var endedPools: seq<string>
    var adaptersCreated: nat
    /** Network requests issued by `export`. */
    var requestsIssued: nat

    ghost predicate Valid()
      reads this
    {
      PoolsValid(poolMapping, poolOrder)
    }

    constructor ()
      ensures Valid() && poolMapping == map[] && poolOrder == [] && endedPools == []
      ensures connectionsAcquired == 0 && adaptersCreated == 0 && requestsIssued == 0
    {
      poolMapping := map[];
      poolOrder := [];
      connectionsAcquired := 0;
      endedPools := [];
      adaptersCreated := 0;
      requestsIssued := 0;
    }

    /**
     * `onActivate`: one pool per profile, keyed by profile name. A later
     * profile with the same name replaces the options but keeps the position.
     */
    method OnActivate(profiles: seq<Profile>)
      requires Valid()
      modifies this`poolMapping, this`poolOrder
      ensures Valid()
      ensures (poolMapping, poolOrder) == AddPools(old(poolMapping), old(poolOrder), profiles)
    {
      for i := 0 to |profiles|
        invariant (poolMapping, poolOrder) == AddPools(old(poolMapping), old(poolOrder), profiles[..i])
      {
        var profile := profiles[i];
        assert profiles[..i + 1][..i] == profiles[..i];
        if profile.name !in poolMapping {
          poolOrder := poolOrder + [profile.name];
        }
        poolMapping := poolMapping[profile.name := profile.connection];
      }
      assert profiles[..|profiles|] == profiles;
      AddPoolsValid(old(poolMapping), old(poolOrder), profiles);
    }

    /**
     * `execute`: an unknown profile fails before any connection is acquired.
     * Otherwise one client is checked out; if building the SQL or the first
     * read fails it is released in the catch block and the error rethrown;
     * on success it is left to the cursor's `done` listener.
     * `compiled` is the outcome of `buildSQL`, `fields` and `typeOf` the
     * first chunk's field list and the type mapping, `backendRows` and
     * `backendFailure` what the backend returns for the query.
     */
    method Execute(profileName: string, compiled: Result<string, string>, fields: seq<Field>, typeOf: int -> string,
                   backendRows: seq<Row>, backendFailure: Option<string>)
      returns (r: Result<DataResult, Error>, client: Client?)
      modifies this`connectionsAcquired
      ensures profileName !in poolMapping ==>
        r == Failure(ProfileNotFound(profileName)) && client == null && connectionsAcquired == old(connectionsAcquired)
      ensures profileName in poolMapping ==>
        client != null && fresh(client) && connectionsAcquired == old(connectionsAcquired) + 1
      ensures profileName in poolMapping && compiled.Failure? ==>
        client != null && r == Failure(Backend(compiled.error)) && client.releases == 1
      ensures profileName in poolMapping && compiled.Success? && backendRows == [] && backendFailure.Some? ==>
        client != null && r == Failure(Backend(backendFailure.value)) && client.releases == 1
      ensures profileName in poolMapping && compiled.Success? && (backendRows != [] || backendFailure.None?) ==>
        && client != null && r.Success?
        && fresh(r.value.data) && fresh(r.value.data.cursor)
        && r.value.data.Valid() && r.value.data.cursor.client == client && client.releases == 0
        && r.value.data.result == backendRows && r.value.data.cursor.failure == backendFailure
        && r.value.data.chunkSize == ChunkSize(poolMapping[profileName])
        && r.value.data.pushed == [] && !r.value.data.destroyed
        && r.value.columns == GetColumns(fields, typeOf)
    {
      if profileName !in poolMapping {
        return Failure(ProfileNotFound(profileName)), null;
      }
      var options := poolMapping[profileName];
      client := new Client();
      connectionsAcquired := connectionsAcquired + 1;
      if compiled.Failure? {
        client.Release();
        return Failure(Backend(compiled.error)), client;
      }
      var stream, _ := OpenRowStream(client, ChunkSize(options), backendRows, backendFailure);
      if stream.Failure? {
        return Failure(Backend(stream.error)), client;
      }
      r := Success(DataResult(GetColumns(fields, typeOf), stream.value));
    }

    /** The checks `export` makes, in order, before it creates an adapter or issues any request. */
    function ExportPrecheck(profileName: string, directory: string, existingDirectories: set<string>): (r: Result<Option<PGOptions>, Error>)
      reads this
      ensures r == Failure(ProfileNotFound(profileName)) <==> profileName !in poolMapping
      ensures r == Failure(DirectoryNotFound(directory)) <==> profileName in poolMapping && directory !in existingDirectories
      ensures r.Success? <==> profileName in poolMapping && directory in existingDirectories
      ensures r.Success? ==> r.value == poolMapping[profileName]
    {
      if profileName !in poolMapping then Failure(ProfileNotFound(profileName))
      else if directory !in existingDirectories then Failure(DirectoryNotFound(directory))
      else Success(poolMapping[profileName])
    }

    /**
     * `export`: after the checks, one adapter is created and one request asks
     * for presigned URLs; then every URL is downloaded at once, and a single
     * failed download fails the export. Returns the written file paths.
     * `presignedUrls` is the adapter's answer and `failedDownloads` the
     * indices of the downloads that fail.
     */
    method Export(sql: string, directory: string, profileName: string, existingDirectories: set<string>,
                  presignedUrls: Result<seq<string>, string>, failedDownloads: set<nat>)
      returns (r: Result<seq<string>, Error>)
      modifies this`adaptersCreated, this`requestsIssued
      ensures ExportPrecheck(profileName, directory, existingDirectories).Failure? ==>
        && r == Failure(ExportPrecheck(profileName, directory, existingDirectories).error)
        && adaptersCreated == old(adaptersCreated) && requestsIssued == old(requestsIssued)
      ensures ExportPrecheck(profileName, directory, existingDirectories).Success? ==>
        adaptersCreated == old(adaptersCreated) + 1
      ensures ExportPrecheck(profileName, directory, existingDirectories).Success? && presignedUrls.Failure? ==>
        r == Failure(Backend(presignedUrls.error)) && requestsIssued == old(requestsIssued) + 1
      ensures ExportPrecheck(profileName, directory, existingDirectories).Success? && presignedUrls.Success? ==>
        && requestsIssued == old(requestsIssued) + 1 + |presignedUrls.value|
        && (r.Failure? <==> exists i :: i in failedDownloads && i < |presignedUrls.value|)
        && (r.Success? ==> r.value == DownloadTargets(directory, presignedUrls.value))
    {
      var checked := ExportPrecheck(profileName, directory, existingDirectories);
      if checked.Failure? {
        return Failure(checked.error);
      }
      adaptersCreated := adaptersCreated + 1;
      requestsIssued := requestsIssued + 1;
      if presignedUrls.Failure? {
        return Failure(Backend(presignedUrls.error));
      }
      var urls := presignedUrls.value;
      requestsIssued := requestsIssued + |urls|;
      if exists i :: i in failedDownloads && i < |urls| {
        return Failure(Backend("download failed"));
      }
      r := Success(DownloadTargets(directory, urls));
    }

    /** `destroy`: end every pool, in the mapping's order, each registered pool once. */
    method Destroy()
      requires Valid()
      modifies this`endedPools
      ensures endedPools == old(endedPools) + poolOrder
      ensures forall n :: n in poolMapping <==> n in endedPools[|old(endedPools)|..]
      ensures forall i, j :: |old(endedPools)| <= i < j < |endedPools| ==> endedPools[i] != endedPools[j]
    {
      for i := 0 to |poolOrder|
        invariant endedPools == old(endedPools) + poolOrder[..i]
      {
        endedPools := endedPools + [poolOrder[i]];
        assert poolOrder[..i + 1] == poolOrder[..i] + [poolOrder[i]];
      }
      assert poolOrder[..|poolOrder|] == poolOrder;
      assert endedPools[|old(endedPools)|..] == poolOrder;
    }
  }
}
