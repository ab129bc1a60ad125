/** How a worker of the fragment loader picks its share of a vineyard
    source: worker `partId` of `partNum` reads the slice
    `[partId * split, min(n, (partId + 1) * split))` of the `n` local streams
    or chunks, where `split` is `n / partNum` rounded up; and how a source
    object is read into record batches or a table. */
module LoaderPartition {
  import opened Common
  import opened RecordBatchStream

  function Min(a: nat, b: nat): (m: nat)
    ensures m <= a && m <= b && (m == a || m == b)
  {
    if a <= b then a else b
  }

  /** `split_size`: the number of items per worker, `n / partNum` rounded up. */
  function SplitSize(n: nat, partNum: nat): (split: nat)
    requires partNum > 0
    ensures n <= partNum * split
    ensures split == 0 || partNum * (split - 1) < n
  {
    var q, r := n / partNum, n % partNum;
    assert n == q * partNum + r;
    if r == 0 then q
    else
      assert (q + 1) * partNum == q * partNum + partNum;
      q + 1
  }

  /** `start_to_read`. */
  function StartToRead(n: nat, partNum: nat, partId: nat): nat
    requires partNum > 0
  {
    partId * SplitSize(n, partNum)
  }

  /** `end_to_read`: never past the end of the items. */
  function EndToRead(n: nat, partNum: nat, partId: nat): (end: nat)
    requires partNum > 0
    ensures end <= n
    ensures end == n || end == (partId + 1) * SplitSize(n, partNum)
  {
    Min(n, (partId + 1) * SplitSize(n, partNum))
  }

  /** The items at `start .. end - 1`; nothing for an inverted range. */
  function Range<T>(xs: seq<T>, start: nat, end: nat): (r: seq<T>)
    ensures start >= end ==> r == []
  {
    if start <= end <= |xs| then xs[start..end] else []
  }

  /** The items a worker reads once its loop stops at the end of the range
      (`idx < end`): the slice `[start, end)`, empty when `start` is already
      past `end`. */
  function PartSlice<T>(xs: seq<T>, partNum: nat, partId: nat): (part: seq<T>)
    requires partNum > 0
    ensures |part| <= SplitSize(|xs|, partNum)
  {
    Range(xs, StartToRead(|xs|, partNum, partId), EndToRead(|xs|, partNum, partId))
  }

  /** The slices of workers `0 .. k - 1`, in worker order. */
  function Parts<T>(xs: seq<T>, partNum: nat, k: nat): (parts: seq<seq<T>>)
    requires partNum > 0
    ensures |parts| == k
    ensures forall id :: 0 <= id < k ==> parts[id] == PartSlice(xs, partNum, id)
  {
    if k == 0 then [] else Parts(xs, partNum, k - 1) + [PartSlice(xs, partNum, k - 1)]
  }

  /** Worker `id`'s slice lies between `min(n, id * split)` and
      `min(n, (id + 1) * split)`. */
  lemma PartSliceBounds<T>(xs: seq<T>, partNum: nat, id: nat)
    requires partNum > 0
    ensures var split := SplitSize(|xs|, partNum);
      var lo, hi := Min(|xs|, id * split), Min(|xs|, (id + 1) * split);
      lo <= hi && PartSlice(xs, partNum, id) == xs[lo..hi]
  {
    var split := SplitSize(|xs|, partNum);
    assert (id + 1) * split == id * split + split;
  }

  /** Workers `0 .. k - 1` together read exactly the first
      `min(n, k * split)` items, in order. */
  lemma {:induction false} PartsPrefix<T>(xs: seq<T>, partNum: nat, k: nat)
    requires partNum > 0
    ensures Flatten(Parts(xs, partNum, k)) == xs[..Min(|xs|, k * SplitSize(|xs|, partNum))]
  {
    if k == 0 {
      assert xs[..0] == [];
    } else {
      var split := SplitSize(|xs|, partNum);
      var ps := Parts(xs, partNum, k);
      assert ps[..k - 1] == Parts(xs, partNum, k - 1);
      assert Flatten(ps) == Flatten(Parts(xs, partNum, k - 1)) + PartSlice(xs, partNum, k - 1);
      PartsPrefix(xs, partNum, k - 1);
      PartSliceBounds(xs, partNum, k - 1);
      var lo, hi := Min(|xs|, (k - 1) * split), Min(|xs|, k * split);
      assert xs[..lo] + xs[lo..hi] == xs[..hi];
    }
  }

  /** The workers' slices, concatenated in worker order, are exactly the
      items: every item is read by one worker and no item by two. */
  lemma PartsCover<T>(xs: seq<T>, partNum: nat)
    requires partNum > 0
    ensures Flatten(Parts(xs, partNum, partNum)) == xs
  {
    PartsPrefix(xs, partNum, partNum);
    assert xs[..|xs|] == xs;
  }

  /** The ranges of two workers never overlap: a lower worker's range ends
      no later than a higher worker's range starts. */
  lemma RangesDisjoint(n: nat, partNum: nat, id1: nat, id2: nat)
    requires partNum > 0 && id1 < id2
    ensures EndToRead(n, partNum, id1) <= StartToRead(n, partNum, id2)
  {
    MulMonotone(id1 + 1, id2, SplitSize(n, partNum));
  }

  lemma MulMonotone(a: nat, b: nat, c: nat)
    requires a <= b
    ensures a * c <= b * c
  {
    var d: nat := b - a;
    assert b * c == a * c + d * c;
  }

  /** The `idx != end_to_read` loops are only defined when the range is not
      inverted, and it is: with 5 items and 4 workers, worker 3 starts at 6
      but ends at 5, so its loop runs past the end. */
  lemma InvertedRangeExample()
    ensures StartToRead(5, 4, 3) == 6 && EndToRead(5, 4, 3) == 5
    ensures StartToRead(5, 4, 3) > EndToRead(5, 4, 3)
  {
    assert SplitSize(5, 4) == 2;
  }

  /** `ReadRecordBatchesFromVineyardDataFrame` as written: the loop stops
      only when `idx` equals `end_to_read`, so it needs `start <= end`. */
  method ReadDataFrameChunksAsWritten(chunks: seq<Batch>, partId: nat, partNum: nat)
    returns (st: Status, batches: seq<Batch>)
    requires partNum > 0
    requires StartToRead(|chunks|, partNum, partId) <= EndToRead(|chunks|, partNum, partId)
    ensures st == OK
    ensures batches == chunks[StartToRead(|chunks|, partNum, partId)..EndToRead(|chunks|, partNum, partId)]
  {
    var start, end := StartToRead(|chunks|, partNum, partId), EndToRead(|chunks|, partNum, partId);
    batches := [];
    var idx := start;
    while idx != end
      invariant start <= idx <= end
      invariant batches == chunks[start..idx]
      decreases end - idx
    {
      batches := batches + [chunks[idx]];
      idx := idx + 1;
    }
    st := OK;
  }

  /** `ReadRecordBatchesFromVineyardDataFrame` with the loop bounded by
      `idx < end_to_read`: the worker's slice of the chunks, as batches. */
  method ReadDataFrameChunks(chunks: seq<Batch>, partId: nat, partNum: nat)
    returns (st: Status, batches: seq<Batch>)
    requires partNum > 0
    ensures st == OK
    ensures batches == PartSlice(chunks, partNum, partId)
  {
    var start, end := StartToRead(|chunks|, partNum, partId), EndToRead(|chunks|, partNum, partId);
    batches := [];
    var idx := start;
    while idx < end
      invariant start <= end ==> start <= idx <= end && batches == chunks[start..idx]
      invariant start > end ==> batches == []
      decreases end - idx
    {
      batches := batches + [chunks[idx]];
      idx := idx + 1;
    }
    st := OK;
  }

  /** The status each local stream's reader reports. */
  function DrainStatuses(cs: seq<StreamContent>): (ss: seq<Status>)
    ensures |ss| == |cs|
    ensures forall i :: 0 <= i < |cs| ==> (ss[i].OK? <==> cs[i].endStatus.OK? || cs[i].endStatus.StreamDrained?)
  {
    if cs == [] then [] else DrainStatuses(cs[..|cs| - 1]) + [DrainStatus(cs[|cs| - 1])]
  }

  /** The batches each local stream's reader contributes: all of the stream
      when it drains cleanly, nothing when its read fails. */
  function DrainedBatches(cs: seq<StreamContent>): (bss: seq<seq<Batch>>)
    ensures |bss| == |cs|
    ensures forall i :: 0 <= i < |cs| ==> bss[i] == [] || bss[i] == cs[i].unread
  {
    if cs == [] then []
    else DrainedBatches(cs[..|cs| - 1]) + [if DrainStatus(cs[|cs| - 1]).OK? then cs[|cs| - 1].unread else []]
  }

  /** Reader `i` reports the drain status of stream `i`, and contributes
      all of that stream's batches when the drain succeeds and none when it
      fails. */
  lemma {:induction false} ReaderContributions(cs: seq<StreamContent>)
    ensures forall i :: 0 <= i < |cs| ==> DrainStatuses(cs)[i] == DrainStatus(cs[i])
    ensures forall i :: 0 <= i < |cs| ==>
      DrainedBatches(cs)[i] == (if DrainStatus(cs[i]).OK? then cs[i].unread else [])
  {
    if cs != [] {
      ReaderContributions(cs[..|cs| - 1]);
    }
  }

  /** `RETURN_ON_ERROR` over the readers' statuses, in task order. */
  method ReturnFirstError(ss: seq<Status>) returns (st: Status)
    ensures st == FirstError(ss)
  {
    var i := 0;
    while i < |ss|
      invariant 0 <= i <= |ss|
      invariant forall j :: 0 <= j < i ==> ss[j].OK?
    {
      if !ss[i].OK? {
        FirstFailureAt(ss, i);
        return ss[i];
      }
      i := i + 1;
    }
    FirstFailureAt(ss, i);
    st := OK;
  }

  /** `ReadRecordBatchesFromVineyardStream` (readers taken one at a time,
      in index order): every local stream of the worker's slice is drained;
      a stream that fails contributes none of its batches, the others all of
      theirs, and the call reports the first failure in stream order. */
  method ReadStreamBatches(locals: seq<StreamContent>, partId: nat, partNum: nat)
    returns (st: Status, batches: seq<Batch>)
    requires partNum > 0
    ensures st == FirstError(DrainStatuses(PartSlice(locals, partNum, partId)))
    ensures batches == Flatten(DrainedBatches(PartSlice(locals, partNum, partId)))
  {
    var start, end := StartToRead(|locals|, partNum, partId), EndToRead(|locals|, partNum, partId);
    st, batches := DrainRange(locals, start, end);
  }

  /** The stream readers for `idx` from `start` while `idx < end`: an
      inverted range reads nothing. */
  method DrainRange(locals: seq<StreamContent>, start: nat, end: nat)
    returns (st: Status, batches: seq<Batch>)
    requires end <= |locals|
    ensures st == FirstError(DrainStatuses(Range(locals, start, end)))
    ensures batches == Flatten(DrainedBatches(Range(locals, start, end)))
  {
    var statuses := [];
    batches := [];
    var idx := start;
    ghost var done: seq<StreamContent> := [];
    while idx < end
      invariant start <= end ==> start <= idx <= end
      invariant start > end ==> idx == start
      invariant done == Range(locals, start, idx)
      invariant statuses == DrainStatuses(done)
      invariant batches == Flatten(DrainedBatches(done))
      decreases end - idx
    {
      RangeSnoc(locals, start, idx);
      statuses, batches := Reader(done, statuses, batches, locals[idx]);
      done := done + [locals[idx]];
      idx := idx + 1;
    }
    assert Range(locals, start, idx) == Range(locals, start, end);
    st := ReturnFirstError(statuses);
  }

  /** The `reader` task for one stream: its status is recorded, and its
      batches are appended only when it drained cleanly. */
  method Reader(ghost done: seq<StreamContent>, statuses: seq<Status>, batches: seq<Batch>, c: StreamContent)
    returns (statuses': seq<Status>, batches': seq<Batch>)
    requires statuses == DrainStatuses(done) && batches == Flatten(DrainedBatches(done))
    ensures statuses' == DrainStatuses(done + [c]) && batches' == Flatten(DrainedBatches(done + [c]))
  {
    DrainSnoc(done, c);
    var status := DrainStatus(c);
    statuses' := statuses + [status];
    batches' := batches;
    if status.OK? {
      batches' := batches + c.unread;
    }
  }

  /** One table per stream, built from all of its batches. */
  function StreamTables(cs: seq<StreamContent>): (ts: seq<Table>)
    ensures |ts| == |cs|
  {
    seq(|cs|, i requires 0 <= i < |cs| => TableOf(cs[i].unread))
  }

  /** What reading stream `idx` adds to the results of streams
      `start .. idx - 1`. */
  lemma RangeSnoc<T>(xs: seq<T>, start: nat, idx: nat)
    requires start <= idx < |xs|
    ensures Range(xs, start, idx + 1) == Range(xs, start, idx) + [xs[idx]]
  {
    assert xs[start..idx + 1] == xs[start..idx] + [xs[idx]];
  }

  /** What draining one more stream adds to the statuses and batches. */
  lemma DrainSnoc(cs: seq<StreamContent>, c: StreamContent)
    ensures DrainStatuses(cs + [c]) == DrainStatuses(cs) + [DrainStatus(c)]
    ensures DrainStatus(c).OK? ==> Flatten(DrainedBatches(cs + [c])) == Flatten(DrainedBatches(cs)) + c.unread
    ensures !DrainStatus(c).OK? ==> Flatten(DrainedBatches(cs + [c])) == Flatten(DrainedBatches(cs))
    ensures DrainStatus(c).OK? ==> SucceededTables(cs + [c]) == SucceededTables(cs) + [TableOf(c.unread)]
    ensures !DrainStatus(c).OK? ==> SucceededTables(cs + [c]) == SucceededTables(cs)
  {
    assert (cs + [c])[..|cs|] == cs;
    var bss := DrainedBatches(cs + [c]);
    assert bss == DrainedBatches(cs) + [if DrainStatus(c).OK? then c.unread else []];
    assert bss[..|cs|] == DrainedBatches(cs);
    assert Flatten(DrainedBatches(cs)) + [] == Flatten(DrainedBatches(cs));
    assert SucceededTables(cs) + [] == SucceededTables(cs);
  }

  /** The tables of the streams whose reader succeeded, in stream order. */
  function SucceededTables(cs: seq<StreamContent>): (ts: seq<Table>)
    ensures |ts| <= |cs|
  {
    if cs == [] then []
    else SucceededTables(cs[..|cs| - 1]) + (if DrainStatus(cs[|cs| - 1]).OK? then [TableOf(cs[|cs| - 1].unread)] else [])
  }

  /** When no reader failed, every stream has its table. */
  lemma {:induction false} AllSucceeded(cs: seq<StreamContent>)
    requires FirstError(DrainStatuses(cs)).OK?
    ensures SucceededTables(cs) == StreamTables(cs)
  {
    if cs != [] {
      var init, last := cs[..|cs| - 1], cs[|cs| - 1];
      assert cs == init + [last];
      DrainSnoc(init, last);
      FirstErrorSnoc(DrainStatuses(init), DrainStatus(last));
      AllSucceeded(init);
      assert StreamTables(cs) == StreamTables(init) + [TableOf(last.unread)];
    }
  }

  /** `ConcatenateTables`: the first table's schema over all tables' batches. */
  function Concatenate(tables: seq<Table>): (t: Table)
    requires tables != []
    ensures t.metadata == tables[0].metadata
  {
    Table(tables[0].metadata, Flatten(seq(|tables|, i requires 0 <= i < |tables| => tables[i].batches)))
  }

  /** `ReadTableFromVineyardStream`: each local stream of the slice is read
      into a table; the first failure in stream order is reported, and on
      success the table is `None` (null) exactly when the slice has no
      stream, and otherwise the concatenation of one table per stream. */
  method ReadStreamTable(locals: seq<StreamContent>, partId: nat, partNum: nat)
    returns (st: Status, table: Option<Table>)
    requires partNum > 0
    ensures st == FirstError(DrainStatuses(PartSlice(locals, partNum, partId)))
    ensures st.OK? ==> (table.None? <==> PartSlice(locals, partNum, partId) == [])
    ensures st.OK? && table.Some? ==> table.value == Concatenate(StreamTables(PartSlice(locals, partNum, partId)))
  {
    var start, end := StartToRead(|locals|, partNum, partId), EndToRead(|locals|, partNum, partId);
    var statuses, tables := ReadTablesRange(locals, start, end);
    st := ReturnFirstError(statuses);
    if !st.OK? {
      return st, None;
    }
    AllSucceeded(PartSlice(locals, partNum, partId));
    table := if tables == [] then None else Some(Concatenate(tables));
  }

  /** The table readers for `idx` from `start` while `idx < end`, with the
      status of each, and the tables of those that succeeded, in stream
      order. */
  method ReadTablesRange(locals: seq<StreamContent>, start: nat, end: nat)
    returns (statuses: seq<Status>, tables: seq<Table>)
    requires end <= |locals|
    ensures statuses == DrainStatuses(Range(locals, start, end))
    ensures tables == SucceededTables(Range(locals, start, end))
  {
    statuses, tables := [], [];
    var idx := start;
    ghost var done: seq<StreamContent> := [];
    while idx < end
      invariant start <= end ==> start <= idx <= end
      invariant start > end ==> idx == start
      invariant done == Range(locals, start, idx)
      invariant statuses == DrainStatuses(done)
      invariant tables == SucceededTables(done)
      decreases end - idx
    {
      RangeSnoc(locals, start, idx);
      statuses, tables := TableReader(done, statuses, tables, locals[idx]);
      done := done + [locals[idx]];
      idx := idx + 1;
    }
    assert Range(locals, start, idx) == Range(locals, start, end);
  }

  /** The `reader` task for one stream of a table read: its status is
      recorded, and its table is kept only when it drained cleanly. */
  method TableReader(ghost done: seq<StreamContent>, statuses: seq<Status>, tables: seq<Table>, c: StreamContent)
    returns (statuses': seq<Status>, tables': seq<Table>)
    requires statuses == DrainStatuses(done) && tables == SucceededTables(done)
    ensures statuses' == DrainStatuses(done + [c]) && tables' == SucceededTables(done + [c])
  {
    DrainSnoc(done, c);
    var status := DrainStatus(c);
    statuses' := statuses + [status];
    tables' := tables;
    if status.OK? {
      tables' := tables + [TableOf(c.unread)];
    }
  }

  /** `ReadTableFromVineyardDataFrame`: an empty slice gives no table (null)
      and OK; otherwise the slice's chunks as one table. */
  method ReadDataFrameTable(chunks: seq<Batch>, partId: nat, partNum: nat)
    returns (st: Status, table: Option<Table>)
    requires partNum > 0
    ensures st == OK
    ensures table.None? <==> PartSlice(chunks, partNum, partId) == []
    ensures table.Some? ==> table.value == TableOf(PartSlice(chunks, partNum, partId))
  {
    var s, batches := ReadDataFrameChunks(chunks, partId, partNum);
    if batches == [] {
      return OK, None;
    }
    st, table := OK, Some(TableOf(batches));
  }

  /** What `client.GetObject` finds for a source id: a parallel stream (its
      local record batch streams), a global dataframe (its local chunks), or
      an object of another type. */
  datatype Source =
    | ParallelStream(locals: seq<StreamContent>)
    | GlobalDataFrame(chunks: seq<Batch>)
    | OtherObject(typeName: string)

  /** A source id as the loader sees it: its printed form and the object it
      resolves to (`None` when no such object exists). */
  datatype ObjectRef = ObjectRef(idText: string, source: Option<Source>)

  const NotParallelStreamNorGlobalDataFrame: string :=
    "The source is not a parallel stream nor a global dataframe: "

  /** What `ReadRecordBatchesFromVineyard` reports for a source. */
  function ReadOutcome(obj: ObjectRef, partId: nat, partNum: nat): (r: (Status, seq<Batch>))
    requires partNum > 0
    ensures obj.source.None? ==> r == (AssertionFailed("Object not exists: " + obj.idText), [])
    ensures obj.source.Some? && obj.source.value.OtherObject? ==>
      r == (Invalid(NotParallelStreamNorGlobalDataFrame + obj.source.value.typeName), [])
    ensures obj.source.Some? && obj.source.value.GlobalDataFrame? ==>
      r == (OK, PartSlice(obj.source.value.chunks, partNum, partId))
    ensures obj.source.Some? && obj.source.value.ParallelStream? ==>
      var part := PartSlice(obj.source.value.locals, partNum, partId);
      r == (FirstError(DrainStatuses(part)), Flatten(DrainedBatches(part)))
  {
    match obj.source
    case None => (AssertionFailed("Object not exists: " + obj.idText), [])
    case Some(ParallelStream(locals)) =>
      var part := PartSlice(locals, partNum, partId);
      (FirstError(DrainStatuses(part)), Flatten(DrainedBatches(part)))
    case Some(GlobalDataFrame(chunks)) => (OK, PartSlice(chunks, partNum, partId))
    case Some(OtherObject(typeName)) => (Invalid(NotParallelStreamNorGlobalDataFrame + typeName), [])
  }

  /** `ReadRecordBatchesFromVineyard`: a missing object fails the assertion,
      a parallel stream and a global dataframe are read as above, anything
      else is invalid. */
  method ReadRecordBatchesFromVineyard(obj: ObjectRef, partId: nat, partNum: nat)
    returns (st: Status, batches: seq<Batch>)
    requires partNum > 0
    ensures (st, batches) == ReadOutcome(obj, partId, partNum)
  {
    if obj.source.None? {
      return AssertionFailed("Object not exists: " + obj.idText), [];
    }
    match obj.source.value
    case ParallelStream(locals) =>
      st, batches := ReadStreamBatches(locals, partId, partNum);
    case GlobalDataFrame(chunks) =>
      st, batches := ReadDataFrameChunks(chunks, partId, partNum);
    case OtherObject(typeName) =>
      st, batches := Invalid(NotParallelStreamNorGlobalDataFrame + typeName), [];
  }

  /** `ReadTableFromVineyard`: the same dispatch, reading a table. */
  method ReadTableFromVineyard(obj: ObjectRef, partId: nat, partNum: nat)
    returns (st: Status, table: Option<Table>)
    requires partNum > 0
    ensures obj.source.None? ==> st == AssertionFailed("Object not exists: " + obj.idText) && table.None?
    ensures obj.source.Some? && obj.source.value.OtherObject? ==>
      st == Invalid(NotParallelStreamNorGlobalDataFrame + obj.source.value.typeName) && table.None?
    ensures obj.source.Some? && obj.source.value.GlobalDataFrame? ==>
      st == OK && (table.None? <==> PartSlice(obj.source.value.chunks, partNum, partId) == [])
    ensures obj.source.Some? && obj.source.value.GlobalDataFrame? && table.Some? ==>
      table.value == TableOf(PartSlice(obj.source.value.chunks, partNum, partId))
    ensures obj.source.Some? && obj.source.value.ParallelStream? ==>
      st == FirstError(DrainStatuses(PartSlice(obj.source.value.locals, partNum, partId)))
    ensures obj.source.Some? && obj.source.value.ParallelStream? && st.OK? ==>
      (table.None? <==> PartSlice(obj.source.value.locals, partNum, partId) == [])
    ensures obj.source.Some? && obj.source.value.ParallelStream? && st.OK? && table.Some? ==>
      table.value == Concatenate(StreamTables(PartSlice(obj.source.value.locals, partNum, partId)))
  {
    if obj.source.None? {
      return AssertionFailed("Object not exists: " + obj.idText), None;
    }
    match obj.source.value
    case ParallelStream(locals) =>
      st, table := ReadStreamTable(locals, partId, partNum);
    case GlobalDataFrame(chunks) =>
      st, table := ReadDataFrameTable(chunks, partId, partNum);
    case OtherObject(typeName) =>
      st, table := Invalid(NotParallelStreamNorGlobalDataFrame + typeName), None;
  }

  /** A stream read succeeds exactly when every local stream of the slice
      drains cleanly, and then the batches are all of the slice's streams'
      batches, stream by stream. */
  lemma {:induction false} StreamReadAllOrError(cs: seq<StreamContent>)
    ensures FirstError(DrainStatuses(cs)).OK? <==> forall i :: 0 <= i < |cs| ==> cs[i].endStatus.StreamDrained? || cs[i].endStatus.OK?
    ensures FirstError(DrainStatuses(cs)).OK? ==>
      Flatten(DrainedBatches(cs)) == Flatten(seq(|cs|, i requires 0 <= i < |cs| => cs[i].unread))
  {
    ReaderContributions(cs);
    var ss := DrainStatuses(cs);
    if FirstError(ss).OK? {
      assert forall i :: 0 <= i < |cs| ==> ss[i].OK?;
      assert DrainedBatches(cs) == seq(|cs|, i requires 0 <= i < |cs| => cs[i].unread);
    }
  }
}
