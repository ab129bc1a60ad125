/** `DataframeStream`: a stream of Arrow IPC-encoded record batches carrying
    reader parameters. The writer encodes each batch into a stream chunk; the
    reader decodes chunks, stamps every batch's schema metadata with the
    stream's parameters, and `ReadRecordBatches` stops at the first chunk it
    cannot read, reporting success whatever stopped it. */
module DataframeStream {
  import opened Common

  /** A chunk on the stream, as the reader meets it: one that decodes to a
      batch, or one whose Arrow decoding fails with an error code. */
  datatype Chunk = Decodable(batch: Batch) | Corrupt(code: nat)

  /** A key/value metadata after every parameter has been `Set` into it:
      parameters overwrite keys of the same name, other keys are kept. */
  predicate StampedWith(m: map<string, string>, base: map<string, string>, params: map<string, string>)
  {
    && m.Keys == base.Keys + params.Keys
    && (forall k :: k in params ==> m[k] == params[k])
    && (forall k :: k in base && k !in params ==> m[k] == base[k])
  }

  /** The loop of `ReadBatch` that `Set`s each parameter into the batch's
      (copied) metadata. */
  method MergeParams(base: map<string, string>, params: map<string, string>) returns (m: map<string, string>)
    ensures StampedWith(m, base, params)
  {
    m := base;
    var todo := params.Keys;
    while todo != {}
      invariant todo <= params.Keys
      invariant forall k :: k in m <==> k in base || (k in params && k !in todo)
      invariant forall k :: k in params && k !in todo ==> m[k] == params[k]
      invariant forall k :: k in base && (k !in params || k in todo) ==> m[k] == base[k]
      decreases todo
    {
      var k :| k in todo;
      m := m[k := params[k]];
      todo := todo - {k};
    }
  }

  /** The batch `ReadBatch` hands out for a decoded batch `b`: the same
      columns, with metadata stamped with the parameters (a batch without
      metadata starts from an empty one). */
  function WithParams(b: Batch, params: map<string, string>): (r: Batch)
    ensures r.payload == b.payload && r.numRows == b.numRows
    ensures r.metadata.Some?
    ensures StampedWith(r.metadata.value, if b.metadata.Some? then b.metadata.value else map[], params)
  {
    Batch(b.payload, b.numRows, Some((if b.metadata.Some? then b.metadata.value else map[]) + params))
  }

  /** Number of chunks before the first one that cannot be decoded. */
  function DecodablePrefix(chunks: seq<Chunk>): (k: nat)
    ensures k <= |chunks|
    ensures forall i :: 0 <= i < k ==> chunks[i].Decodable?
    ensures k < |chunks| ==> chunks[k].Corrupt?
  {
    if chunks == [] || chunks[0].Corrupt? then 0 else 1 + DecodablePrefix(chunks[1..])
  }

  /** The batches `ReadRecordBatches` collects from `chunks`. */
  function Stamped(chunks: seq<Chunk>, params: map<string, string>): (r: seq<Batch>)
    requires forall i :: 0 <= i < |chunks| ==> chunks[i].Decodable?
    ensures |r| == |chunks|
    ensures forall i :: 0 <= i < |r| ==> r[i] == WithParams(chunks[i].batch, params)
  {
    if chunks == [] then [] else Stamped(chunks[..|chunks| - 1], params) + [WithParams(chunks[|chunks| - 1].batch, params)]
  }

  /** A chunk as the writer leaves it on the stream: the encoding of a batch,
      or a chunk that was allocated but never completely encoded. */
  datatype WrittenChunk = Encoded(batch: Batch) | Unfinished

  /** The server's and Arrow's answers while one batch is written: `alloc`
      is the first failure of sizing the batch and of allocating its chunk
      with `GetNext`, `encode` the first failure of opening the IPC writer,
      writing the batch into the chunk and closing the writer. */
  datatype WriteAnswer = WriteAnswer(alloc: Status, encode: Status)

  /** The status `WriteBatch` returns for these answers. */
  function WriteStatus(a: WriteAnswer): (st: Status)
    ensures st.OK? <==> a.alloc.OK? && a.encode.OK?
    ensures !a.alloc.OK? ==> st == a.alloc
  {
    if !a.alloc.OK? then a.alloc else a.encode
  }

  /** The chunks `WriteBatch` leaves on the stream: none when no chunk was
      allocated, the batch's encoding when everything succeeded, and an
      unfinished chunk when encoding failed after the allocation. */
  function WrittenBy(b: Batch, a: WriteAnswer): (cs: seq<WrittenChunk>)
    ensures cs == [] <==> !a.alloc.OK?
    ensures cs == [Encoded(b)] <==> WriteStatus(a).OK?
  {
    if !a.alloc.OK? then [] else if a.encode.OK? then [Encoded(b)] else [Unfinished]
  }

  /** The statuses of writing several batches, one per answer. */
  function WriteStatuses(answers: seq<WriteAnswer>): (ss: seq<Status>)
    ensures |ss| == |answers|
    ensures forall i :: 0 <= i < |answers| ==> ss[i] == WriteStatus(answers[i])
  {
    if answers == [] then [] else WriteStatuses(answers[..|answers| - 1]) + [WriteStatus(answers[|answers| - 1])]
  }

  /** The encodings of batches that were all written successfully. */
  function EncodedAll(bs: seq<Batch>): (cs: seq<WrittenChunk>)
    ensures |cs| == |bs|
    ensures forall i :: 0 <= i < |bs| ==> cs[i] == Encoded(bs[i])
  {
    if bs == [] then [] else EncodedAll(bs[..|bs| - 1]) + [Encoded(bs[|bs| - 1])]
  }

  /** `DataframeStreamWriter`. `written` are the chunks left on the stream;
      `stopRequests` the `StopStream` calls issued (their `failed` argument). */
  class DataframeStreamWriter {
    const id: nat
    var stopped: bool
    var written: seq<WrittenChunk>
    var stopRequests: seq<bool>

    constructor (id: nat)
      ensures this.id == id && !stopped && written == [] && stopRequests == []
    {
      this.id := id;
      stopped := false;
      written := [];
      stopRequests := [];
    }

    /** `Abort`: the first stop issues `StopStream(failed = true)` and returns
        its status; later stops answer OK and issue nothing. There is no mode
        check here, unlike the generic stream handle. */
    method Abort(stopStatus: Status) returns (st: Status)
      modifies this
      ensures old(stopped) ==> st == OK && unchanged(this)
      ensures !old(stopped) ==> st == stopStatus && stopped && stopRequests == old(stopRequests) + [true]
      ensures written == old(written)
    {
      if stopped {
        return OK;
      }
      stopped := true;
      stopRequests := stopRequests + [true];
      st := stopStatus;
    }

    /** `Finish`: as `Abort`, with `StopStream(failed = false)`. */
    method Finish(stopStatus: Status) returns (st: Status)
      modifies this
      ensures old(stopped) ==> st == OK && unchanged(this)
      ensures !old(stopped) ==> st == stopStatus && stopped && stopRequests == old(stopRequests) + [false]
      ensures written == old(written)
    {
      if stopped {
        return OK;
      }
      stopped := true;
      stopRequests := stopRequests + [false];
      st := stopStatus;
    }

    /** `WriteBatch` (and `WriteDataframe`, which writes the dataframe as one
        batch): a failure to size the batch or to allocate its chunk leaves
        nothing on the stream; once `GetNext` has allocated the chunk, it stays
        on the stream, holding the batch only when encoding succeeds. */
    method WriteBatch(b: Batch, answer: WriteAnswer) returns (st: Status)
      modifies this
      ensures st == WriteStatus(answer)
      ensures written == old(written) + WrittenBy(b, answer)
      ensures stopped == old(stopped) && stopRequests == old(stopRequests)
    {
      if !answer.alloc.OK? {
        return answer.alloc;
      }
      if !answer.encode.OK? {
        written := written + [Unfinished];
        return answer.encode;
      }
      written := written + [Encoded(b)];
      st := OK;
    }

    /** `WriteTable`: splitting the table into batches may fail
        (`splitStatus`); then the batches are written in order, and the first
        batch that fails ends the call with its status, leaving its
        unfinished chunk behind when the chunk had been allocated. */
    method WriteTable(table: Table, splitStatus: Status, answers: seq<WriteAnswer>) returns (st: Status)
      requires |answers| == |table.batches|
      modifies this
      ensures !splitStatus.OK? ==> st == splitStatus && unchanged(this)
      ensures splitStatus.OK? ==> st == FirstError(WriteStatuses(answers))
      ensures splitStatus.OK? ==>
        var k := FirstFailure(WriteStatuses(answers));
        written == old(written) + EncodedAll(table.batches[..k]) +
                   (if k < |answers| then WrittenBy(table.batches[k], answers[k]) else [])
      ensures stopped == old(stopped) && stopRequests == old(stopRequests)
    {
      if !splitStatus.OK? {
        return splitStatus;
      }
      ghost var statuses := WriteStatuses(answers);
      var i := 0;
      while i < |table.batches|
        invariant 0 <= i <= |table.batches|
        invariant forall j :: 0 <= j < i ==> statuses[j].OK?
        invariant written == old(written) + EncodedAll(table.batches[..i])
        invariant stopped == old(stopped) && stopRequests == old(stopRequests)
      {
        var wst := WriteBatch(table.batches[i], answers[i]);
        if !wst.OK? {
          FirstFailureAt(statuses, i);
          assert written == old(written) + EncodedAll(table.batches[..i]) + WrittenBy(table.batches[i], answers[i]);
          return wst;
        }
        EncodedAllSnoc(table.batches, i);
        i := i + 1;
      }
      FirstFailureAt(statuses, i);
      st := OK;
    }
  }

  /** The chunks a reader meets on a written stream, when an unfinished
      chunk fails to decode with error `code`. */
  function AsRead(ws: seq<WrittenChunk>, code: nat): (cs: seq<Chunk>)
    ensures |cs| == |ws|
    ensures forall i :: 0 <= i < |ws| ==>
      cs[i] == (if ws[i].Encoded? then Decodable(ws[i].batch) else Corrupt(code))
  {
    if ws == [] then []
    else AsRead(ws[..|ws| - 1], code) + [if ws[|ws| - 1].Encoded? then Decodable(ws[|ws| - 1].batch) else Corrupt(code)]
  }

  /** The decodable prefix is the first index holding a corrupt chunk. */
  lemma {:induction false} DecodablePrefixAt(chunks: seq<Chunk>, k: nat)
    requires k <= |chunks|
    requires forall i :: 0 <= i < k ==> chunks[i].Decodable?
    requires k < |chunks| ==> chunks[k].Corrupt?
    ensures DecodablePrefix(chunks) == k
    decreases k
  {
    if k > 0 {
      DecodablePrefixAt(chunks[1..], k - 1);
    }
  }

  /** The unfinished chunk a failed write leaves behind ends a later
      reader's drain right there: the reader returns the batches written
      before it, and nothing written after it. */
  lemma UnfinishedChunkTruncatesReaders(bs: seq<Batch>, rest: seq<WrittenChunk>, code: nat)
    ensures DecodablePrefix(AsRead(EncodedAll(bs) + [Unfinished] + rest, code)) == |bs|
  {
    var cs := AsRead(EncodedAll(bs) + [Unfinished] + rest, code);
    assert (EncodedAll(bs) + [Unfinished] + rest)[|bs|] == Unfinished;
    DecodablePrefixAt(cs, |bs|);
  }

  lemma EncodedAllSnoc(bs: seq<Batch>, i: nat)
    requires i < |bs|
    ensures EncodedAll(bs[..i + 1]) == EncodedAll(bs[..i]) + [Encoded(bs[i])]
  {
    assert bs[..i + 1][..i] == bs[..i];
  }

  /** `DataframeStreamReader`: `unread` are the chunks not yet pulled and
      `endStatus` what the server answers once they are used up. */
  class DataframeStreamReader {
    const id: nat
    const params: map<string, string>
    var unread: seq<Chunk>
    var endStatus: Status

    ghost predicate Valid()
      reads this
    {
      !endStatus.OK?
    }

    constructor (id: nat, params: map<string, string>, unread: seq<Chunk>, endStatus: Status)
      requires !endStatus.OK?
      ensures Valid()
      ensures this.id == id && this.params == params && this.unread == unread && this.endStatus == endStatus
    {
      this.id := id;
      this.params := params;
      this.unread := unread;
      this.endStatus := endStatus;
    }

    /** `ReadBatch`: pulls one chunk. A decodable chunk yields its batch
        stamped with the parameters; a corrupt one is consumed and its error
        returned; with no chunk left the end status is returned. */
    method ReadBatch() returns (st: Status, batch: Option<Batch>)
      requires Valid()
      modifies this
      ensures Valid()
      ensures batch.Some? <==> st.OK?
      ensures old(unread) == [] ==> st == endStatus && unread == []
      ensures old(unread) != [] && old(unread)[0].Decodable? ==>
        st == OK && batch == Some(WithParams(old(unread)[0].batch, params))
      ensures old(unread) != [] && old(unread)[0].Corrupt? ==> st == Failed(old(unread)[0].code)
      ensures old(unread) != [] ==> unread == old(unread)[1..]
      ensures endStatus == old(endStatus)
    {
      if unread == [] {
        return endStatus, None;
      }
      var chunk := unread[0];
      unread := unread[1..];
      if chunk.Corrupt? {
        return Failed(chunk.code), None;
      }
      var b := chunk.batch;
      var m := MergeParams(if b.metadata.Some? then b.metadata.value else map[], params);
      StampedIsUnique(m, WithParams(b, params).metadata.value,
                      if b.metadata.Some? then b.metadata.value else map[], params);
      st, batch := OK, Some(Batch(b.payload, b.numRows, Some(m)));
    }

    /** `ReadRecordBatches`: reads until the first `ReadBatch` that fails and
        reports OK regardless, so a corrupt chunk silently truncates the
        result (and is consumed), exactly like the end of the stream. */
    method ReadRecordBatches(batches: seq<Batch>) returns (st: Status, out: seq<Batch>)
      requires Valid()
      modifies this
      ensures Valid() && endStatus == old(endStatus)
      ensures st == OK
      ensures var k := DecodablePrefix(old(unread));
        out == batches + Stamped(old(unread)[..k], params) &&
        unread == (if k < |old(unread)| then old(unread)[k + 1..] else [])
    {
      ghost var all := unread;
      ghost var k := DecodablePrefix(all);
      out := batches;
      ghost var n := 0;
      var status, batch := ReadBatch();
      while status.OK?
        invariant Valid() && endStatus == old(endStatus)
        invariant 0 <= n <= k
        invariant status.OK? <==> batch.Some?
        invariant status.OK? ==> n < k && unread == all[n + 1..] && batch.value == WithParams(all[n].batch, params)
        invariant !status.OK? ==> n == k && unread == (if k < |all| then all[k + 1..] else [])
        invariant out == batches + Stamped(all[..n], params)
        decreases |unread| + (if status.OK? then 1 else 0)
      {
        assert all[..n + 1][..n] == all[..n];
        out := out + [batch.value];
        n := n + 1;
        status, batch := ReadBatch();
      }
      st := OK;
    }

    /** `ReadTable`: builds the table from whatever `ReadRecordBatches`
        collected; `buildStatus` is Arrow's answer to building it. */
    method ReadTable(buildStatus: Status) returns (st: Status, table: Option<Table>)
      requires Valid()
      modifies this
      ensures Valid()
      ensures st == buildStatus
      ensures table == (if buildStatus.OK?
                        then Some(TableOf(Stamped(old(unread)[..DecodablePrefix(old(unread))], params)))
                        else None)
    {
      var batches;
      st, batches := ReadRecordBatches([]);
      assert batches == Stamped(old(unread)[..DecodablePrefix(old(unread))], params);
      st := buildStatus;
      table := if buildStatus.OK? then Some(TableOf(batches)) else None;
    }
  }

  /** Two metadata maps stamped from the same base and parameters are equal. */
  lemma StampedIsUnique(m1: map<string, string>, m2: map<string, string>,
                        base: map<string, string>, params: map<string, string>)
    requires StampedWith(m1, base, params) && StampedWith(m2, base, params)
    ensures m1 == m2
  {
    assert m1.Keys == m2.Keys;
  }

  /** `GetHeaderLine`: a header row is present exactly when the parameter
      `header_row` is "1"; the header line is `header_line` when both
      parameters are given and empty otherwise. */
  function GetHeaderLine(params: map<string, string>): (r: (bool, string))
    ensures r.0 <==> "header_row" in params && params["header_row"] == "1"
    ensures "header_row" in params && "header_line" in params ==> r.1 == params["header_line"]
    ensures "header_row" !in params || "header_line" !in params ==> r.1 == ""
  {
    if "header_row" in params then
      (params["header_row"] == "1", if "header_line" in params then params["header_line"] else "")
    else
      (false, "")
  }

  /** `OpenReader`: a reader exists only when the server opens the stream for
      reading, and it carries the stream's parameters. */
  method OpenReader(id: nat, params: map<string, string>, openStatus: Status,
                    chunks: seq<Chunk>, endStatus: Status)
    returns (st: Status, reader: DataframeStreamReader?)
    requires !endStatus.OK?
    ensures st == openStatus
    ensures (reader != null) <==> openStatus.OK?
    ensures reader != null ==> fresh(reader) && reader.Valid() && reader.id == id && reader.params == params
    ensures reader != null ==> reader.unread == chunks && reader.endStatus == endStatus
  {
    if !openStatus.OK? {
      return openStatus, null;
    }
    reader := new DataframeStreamReader(id, params, chunks, endStatus);
    st := OK;
  }

  /** `OpenWriter`: a writer exists only when the server opens the stream for
      writing; it starts not stopped and has written nothing. */
  method OpenWriter(id: nat, openStatus: Status) returns (st: Status, writer: DataframeStreamWriter?)
    ensures st == openStatus
    ensures (writer != null) <==> openStatus.OK?
    ensures writer != null ==> fresh(writer) && writer.id == id && !writer.stopped
    ensures writer != null ==> writer.written == [] && writer.stopRequests == []
  {
    if !openStatus.OK? {
      return openStatus, null;
    }
    writer := new DataframeStreamWriter(id);
    st := OK;
  }

  /** A reader drains a stream completely exactly when no chunk is corrupt;
      otherwise it returns fewer batches than there are chunks, still with OK. */
  lemma DrainIsCompleteIffNoCorruptChunk(chunks: seq<Chunk>)
    ensures DecodablePrefix(chunks) == |chunks| <==> forall i :: 0 <= i < |chunks| ==> chunks[i].Decodable?
  {
  }
}
