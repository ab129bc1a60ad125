/** `RecordBatchStream`, a `Stream` of record batches: reading drains the
    stream in order until the server reports it drained (success) or reports
    another error (returned as is); writing pushes a table's batches in order
    and stops at the first push that fails. */
module RecordBatchStream {
  import opened Common
  import opened ClientStream

  /** What a freshly opened reader of a stream meets: the batches not yet
      read, then the status the server gives once they are used up. */
  datatype StreamContent = StreamContent(unread: seq<Batch>, endStatus: Status)

  /** The status `ReadRecordBatches` returns after draining `content`:
      running out with `StreamDrained` is success, any other end is the error. */
  function DrainStatus(content: StreamContent): (st: Status)
    ensures st.OK? <==> (content.endStatus.OK? || content.endStatus.StreamDrained?)
    ensures !st.OK? ==> st == content.endStatus
  {
    if content.endStatus.StreamDrained? then OK else content.endStatus
  }

  /** What draining a stream leaves to the caller: the status and the
      batches collected, the earlier `batches` first. A handle that is not a
      reader is refused before anything is read. */
  function DrainOutcome(isReader: bool, content: StreamContent, batches: seq<Batch>): (r: (Status, seq<Batch>))
    ensures !isReader ==> r == (AssertionFailed(ExpectReadonly), batches)
    ensures isReader ==> r.0 == DrainStatus(content) && r.1 == batches + content.unread
  {
    if isReader then (DrainStatus(content), batches + content.unread)
    else (AssertionFailed(ExpectReadonly), batches)
  }

  /** Either the loop of `ReadRecordBatches` dereferences a null pointer, or
      it ends with a status and the batches collected. */
  datatype DrainAttempt = NullDereference | Drained(st: Status, batches: seq<Batch>)

  /** The drain loop of `ReadRecordBatches` as written. `ReadBatch` already
      hands back the Arrow record batch, and the loop casts it to vineyard's
      own `RecordBatch` to call `GetRecordBatch()` on it. The two classes are
      unrelated, so the cast yields null and the first batch read is a null
      dereference. */
  function ReadRecordBatchesAsWritten(isReader: bool, content: StreamContent, batches: seq<Batch>): (r: DrainAttempt)
  {
    if !isReader then Drained(AssertionFailed(ExpectReadonly), batches)
    else if content.unread != [] then NullDereference
    else Drained(DrainStatus(content), batches)
  }

  /** The loop as written fails exactly when the corrected loop reads a
      batch, and otherwise agrees with it. */
  lemma CastFailsOnEveryRead(isReader: bool, content: StreamContent, batches: seq<Batch>)
    ensures ReadRecordBatchesAsWritten(isReader, content, batches).NullDereference? <==>
      DrainOutcome(isReader, content, batches).1 != batches
    ensures ReadRecordBatchesAsWritten(isReader, content, batches).Drained? ==>
      ReadRecordBatchesAsWritten(isReader, content, batches) ==
      Drained(DrainOutcome(isReader, content, batches).0, DrainOutcome(isReader, content, batches).1)
  {
    if isReader && content.unread != [] {
      assert |batches + content.unread| > |batches|;
    }
  }

  /** A reader with one batch left fails as written, where the corrected loop
      returns that batch. */
  lemma OneBatchStreamFails(b: Batch, endStatus: Status)
    ensures ReadRecordBatchesAsWritten(true, StreamContent([b], endStatus), []) == NullDereference
    ensures DrainOutcome(true, StreamContent([b], endStatus), []).1 == [b]
  {
  }

  /** `ReadBatch`: the batch is produced only when `Next` succeeds, and the
      status is `Next`'s. */
  method ReadBatch(s: Stream<Batch>) returns (st: Status, batch: Option<Batch>)
    requires s.Valid()
    modifies s
    ensures s.Valid()
    ensures batch.Some? <==> st.OK?
    ensures !old(s.IsReader()) ==> st == AssertionFailed(ExpectReadonly) && unchanged(s)
    ensures old(s.IsReader()) && old(s.unread) != [] ==>
      st == OK && batch == Some(old(s.unread)[0]) && s.unread == old(s.unread)[1..]
    ensures old(s.IsReader()) && old(s.unread) == [] ==> st == old(s.endStatus) && s.unread == []
    ensures s.client == old(s.client) && s.readonly == old(s.readonly) && s.stopped == old(s.stopped)
    ensures s.endStatus == old(s.endStatus) && s.pushed == old(s.pushed)
    ensures s.stopRequests == old(s.stopRequests)
  {
    var chunk;
    st, chunk := s.Next();
    batch := if st.OK? then chunk else None;
  }

  /** `ReadRecordBatches`: appends every batch read, in read order, to
      `batches`; a drained stream ends the loop with OK, any other error is
      returned unchanged (the batches read before it stay appended). */
  method ReadRecordBatches(s: Stream<Batch>, batches: seq<Batch>) returns (st: Status, out: seq<Batch>)
    requires s.Valid()
    modifies s
    ensures s.Valid()
    ensures !old(s.IsReader()) ==> st == AssertionFailed(ExpectReadonly) && out == batches && unchanged(s)
    ensures old(s.IsReader()) ==> out == batches + old(s.unread) && s.unread == []
    ensures old(s.IsReader()) ==> st == DrainStatus(StreamContent(old(s.unread), old(s.endStatus)))
    ensures (st, out) == DrainOutcome(old(s.IsReader()), StreamContent(old(s.unread), old(s.endStatus)), batches)
    ensures s.client == old(s.client) && s.readonly == old(s.readonly) && s.stopped == old(s.stopped)
    ensures s.endStatus == old(s.endStatus) && s.pushed == old(s.pushed)
    ensures s.stopRequests == old(s.stopRequests)
  {
    out := batches;
    ghost var reader := s.IsReader();
    ghost var all := s.unread;
    ghost var read: seq<Batch> := [];
    while true
      invariant s.Valid()
      invariant s.client == old(s.client) && s.readonly == old(s.readonly) && s.stopped == old(s.stopped)
      invariant s.endStatus == old(s.endStatus) && s.pushed == old(s.pushed)
      invariant s.stopRequests == old(s.stopRequests)
      invariant !reader ==> out == batches && unchanged(s)
      invariant reader ==> all == read + s.unread && out == batches + read
      decreases |s.unread|
    {
      ghost var unread := s.unread;
      var status, batch := ReadBatch(s);
      if status.OK? {
        ConcatAssoc(read, [batch.value], s.unread);
        assert unread == [batch.value] + s.unread;
        ConcatAssoc(batches, read, [batch.value]);
        out := out + [batch.value];
        read := read + [batch.value];
      } else if status.StreamDrained? {
        break;
      } else {
        return status, out;
      }
    }
    st := OK;
  }

  /** `ReadTable`: an error from `ReadRecordBatches` is returned before any
      table is built; otherwise the table is built from the batches read, and
      `buildStatus` is what Arrow's `Table::FromRecordBatches` answers. */
  method ReadTable(s: Stream<Batch>, buildStatus: Status) returns (st: Status, table: Option<Table>)
    requires s.Valid()
    modifies s
    ensures s.Valid()
    ensures !old(s.IsReader()) ==> st == AssertionFailed(ExpectReadonly) && table == None
    ensures old(s.IsReader()) ==>
      var drained := DrainStatus(StreamContent(old(s.unread), old(s.endStatus)));
      (!drained.OK? ==> st == drained && table == None) &&
      (drained.OK? ==> st == buildStatus &&
                       table == (if buildStatus.OK? then Some(TableOf(old(s.unread))) else None))
  {
    var batches;
    st, batches := ReadRecordBatches(s, []);
    if !st.OK? {
      return st, None;
    }
    assert batches == old(s.unread);
    st := buildStatus;
    table := if buildStatus.OK? then Some(TableOf(batches)) else None;
  }

  /** `WriteTable`: splits the table into batches (`splitStatus` is what
      `TableToRecordBatches` answers; a failure is returned before anything is
      pushed), then pushes the batches in order; `pushStatuses[i]` is the
      server's answer to the i-th push. The first failing push ends the
      loop, its status is returned and later batches are not written. */
  method WriteTable(s: Stream<Batch>, table: Table, splitStatus: Status, pushStatuses: seq<Status>) returns (st: Status)
    requires s.Valid()
    requires |pushStatuses| == |table.batches|
    modifies s
    ensures s.Valid()
    ensures !splitStatus.OK? ==> st == splitStatus && unchanged(s)
    ensures splitStatus.OK? && old(s.IsWriter()) ==>
      var k := FirstFailure(pushStatuses);
      st == FirstError(pushStatuses) && s.pushed == old(s.pushed) + table.batches[..k]
    ensures splitStatus.OK? && !old(s.IsWriter()) ==>
      s.pushed == old(s.pushed) &&
      st == (if table.batches == [] then OK else AssertionFailed(ExpectWriteable))
    ensures s.client == old(s.client) && s.readonly == old(s.readonly) && s.stopped == old(s.stopped)
    ensures s.unread == old(s.unread) && s.endStatus == old(s.endStatus)
    ensures s.stopRequests == old(s.stopRequests)
  {
    if !splitStatus.OK? {
      return splitStatus;
    }
    var batches := table.batches;
    var i := 0;
    while i < |batches|
      invariant 0 <= i <= |batches|
      invariant s.Valid()
      invariant s.client == old(s.client) && s.readonly == old(s.readonly) && s.stopped == old(s.stopped)
      invariant s.unread == old(s.unread) && s.endStatus == old(s.endStatus)
      invariant s.stopRequests == old(s.stopRequests)
      invariant old(s.IsWriter()) ==> forall j :: 0 <= j < i ==> pushStatuses[j].OK?
      invariant old(s.IsWriter()) ==> s.pushed == old(s.pushed) + batches[..i]
      invariant !old(s.IsWriter()) ==> i == 0 && s.pushed == old(s.pushed)
    {
      var pst := s.Push(batches[i], pushStatuses[i]);
      if !pst.OK? {
        if old(s.IsWriter()) {
          FirstFailureAt(pushStatuses, i);
        }
        return pst;
      }
      i := i + 1;
    }
    if old(s.IsWriter()) {
      FirstFailureAt(pushStatuses, i);
    }
    st := OK;
  }
}
