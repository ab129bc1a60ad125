# A verified model of vineyard's stream ingestion and graph loading

This project models, in Dafny, the parts of vineyard (v6d) that move
tabular data into the object store and then load it as a property graph.

- **Stream handles** (`ClientStream`). This is the generic `Stream<T>`
  handle. It is opened once, for reading or for writing. It pulls or pushes
  chunks only in the matching mode, and it sends at most one stop request.
- **Record batch streams** (`RecordBatchStream`). A stream is drained until
  the server reports `StreamDrained`. As written, the drain loop casts every
  batch it reads to an unrelated class and dereferences the null result (see
  Findings). The model keeps that loop and proves where it fails. It also
  models the evidently intended loop, which collects the batches in order and
  turns them into a table, and the rest of the model builds on that one. A
  table is written batch by batch until the first failure.
- **Dataframe streams** (`DataframeStream`). A reader stamps the stream's
  parameters into each batch's schema metadata. Its drain loop stops quietly
  at the first chunk that cannot be read. A writer stops at most once. The
  CSV header settings are read from the parameters.
- **Worker slices** (`LoaderPartition`). This is the arithmetic by which
  worker `part_id` of `part_num` chooses its slice of the local streams or
  chunks, and the dispatch on the kind of source object.
- **Gathering and preprocessing** (`LoaderGather`).
  - `GatherVTables` and `GatherETables` group the gathered batches by
    label, and by (source, destination) label pair for edges. Both have a
    fallback for the case where nothing was gathered.
  - `preprocessInputs` validates and indexes the vertex tables, and works
    out which vertex labels must be deduced from the edges.
  - `LoadFragment` chooses the input source.
- **Table shuffling** (`TableShuffler`).
  - The archive format for selected rows, with its serialiser and
    deserialiser as classes over an archive.
  - Filing edge and vertex rows into per-fragment offset lists.
  - The ring order of the schema exchange.
  - The count of batches to receive.
  - Removing empty batches.
- **The Python I/O driver** (`StreamDriver`).
  - `_resolve_ssh_script`.
  - Spreading workers over hosts and launching them, in
    `ParallelStreamLauncher.run`.
  - Collecting failures, in `join`.
  - Building the metadata of a parallel stream and of a global dataframe.
  - `merge_global_object`.
- **The I/O helpers** (`IoUtils`). These are the `{type, content}` status
  reports, and the fan-out executor that returns one result per executor in
  executor order.

Code that keeps state becomes a class whose methods update fields:
- stream handles, readers and writers;
- archives;
- the launcher;
- the executor.

Methods are proved against specification functions. Those functions carry
the lemmas: round trips, covering and disjointness, group membership, and
if-and-only-if characterisations of the error paths. Calls to the server,
Arrow, MPI and subprocesses become parameters. For example, the status the
server answers is a method argument, and the metadata lookup of
`merge_global_object` is a function parameter.

## Model

| member | source | states |
|---|---|---|
| ClientStream.Stream.constructor | src/client/ds/stream.h:122-125 | a fresh handle has no client, is not read-only and not stopped; the stream it will read is recorded |
| ClientStream.Stream.Construct | src/client/ds/stream.h:127-134 | adopts the metadata and its id exactly when the type names agree, and otherwise changes nothing |
| ClientStream.Stream.OpenReader | src/client/ds/stream.h:136-146 | an open handle answers StreamOpened; a null client fails the assertion; otherwise the client is recorded even when the server refuses, and the handle becomes read-only only on success |
| ClientStream.Stream.OpenWriter | src/client/ds/stream.h:148-158 | as OpenReader, with a successful open leaving the handle writable |
| ClientStream.Stream.Next | src/client/ds/stream.h:69-76 | only a read-only handle with a client pulls; it yields the next unread chunk with OK, or the end status with no chunk; a chunk is produced exactly when the status is OK |
| ClientStream.Stream.Push | src/client/ds/stream.h:78-100 | only a writable handle with a client pushes; the server's answer is returned and an accepted chunk is appended to what was pushed |
| ClientStream.Stream.Abort | src/client/ds/stream.h:102-110 | refused without a writable handle; a second stop returns OK and sends nothing; the first one marks the handle stopped and sends one failed=true stop request |
| ClientStream.Stream.Finish | src/client/ds/stream.h:112-120 | as Abort, with a failed=false stop request |
| RecordBatchStream.DrainStatus | modules/basic/stream/recordbatch_stream.cc:55-66 | draining succeeds exactly when the stream ends with StreamDrained (or OK); any other end status is returned as the error |
| RecordBatchStream.DrainOutcome | modules/basic/stream/recordbatch_stream.cc:52-67 | the intended drain: a handle that is not a reader is refused with the batches untouched; a reader returns DrainStatus and the earlier batches followed by every unread batch, in stream order |
| RecordBatchStream.CastFailsOnEveryRead | modules/basic/stream/recordbatch_stream.cc:56-59 | the loop as written dereferences null exactly when the intended loop would collect at least one batch; when it does not fail it returns what the intended loop returns |
| RecordBatchStream.OneBatchStreamFails | modules/basic/stream/recordbatch_stream.cc:56-59 | a reader with one batch left fails as written, where the intended loop returns that batch |
| RecordBatchStream.ReadBatch | modules/basic/stream/recordbatch_stream.cc:81-89 | a batch is produced exactly when Next succeeds, and the status is Next's |
| RecordBatchStream.ReadRecordBatches | modules/basic/stream/recordbatch_stream.cc:52-67 | the intended loop (see Findings): its status and batches are exactly DrainOutcome; a reader appends every unread batch in stream order and returns OK on StreamDrained or the ending error, leaving the stream drained; a handle that is not a reader fails with "Expect a readonly stream" and is left unchanged |
| RecordBatchStream.ReadTable | modules/basic/stream/recordbatch_stream.cc:69-79 | a handle that is not a reader fails with no table; a failed drain is returned with no table; otherwise the status is Arrow's, and on success the table holds exactly the unread batches, in order, with the first batch's schema |
| RecordBatchStream.WriteTable | modules/basic/stream/recordbatch_stream.cc:31-45 | a failed split is returned and nothing is pushed; a writer pushes the batches in order up to the first rejected push and returns that rejection or OK; a handle that is not a writer pushes nothing and fails with "Expect a writeable stream" unless the table has no batch; nothing else of the handle changes |
| DataframeStream.MergeParams | modules/basic/stream/dataframe_stream.cc:141-162 | every parameter overwrites the key of the same name, and every other key of the batch's metadata is kept |
| DataframeStream.WithParams | modules/basic/stream/dataframe_stream.cc:141-164 | the batch keeps its rows and payload and gets the merged metadata (from an empty one when it had none) |
| DataframeStream.DecodablePrefix | modules/basic/stream/dataframe_stream.cc:95-102 | counts the chunks before the first one that cannot be decoded |
| DataframeStream.Stamped | modules/basic/stream/dataframe_stream.cc:95-102 | one stamped batch per chunk, in order |
| DataframeStream.DataframeStreamWriter.constructor | modules/basic/stream/dataframe_stream.cc:193-199 | a new writer is not stopped and has written nothing |
| DataframeStream.DataframeStreamWriter.Abort | modules/basic/stream/dataframe_stream.cc:38-44 | a second stop returns OK and sends nothing; the first marks the writer stopped and sends one failed=true stop request |
| DataframeStream.DataframeStreamWriter.Finish | modules/basic/stream/dataframe_stream.cc:46-52 | as Abort, with a failed=false stop request |
| DataframeStream.WriteStatus | modules/basic/stream/dataframe_stream.cc:63-85 | a batch is written with OK exactly when sizing, allocation and encoding all succeed; a sizing or allocation failure is returned as is |
| DataframeStream.WrittenBy | modules/basic/stream/dataframe_stream.cc:63-85 | writing one batch leaves no chunk exactly when sizing or allocation fails, exactly its encoding when the write succeeds, and otherwise one unfinished chunk |
| DataframeStream.WriteStatuses | modules/basic/stream/dataframe_stream.cc:57-59 | one status per batch, the status of writing that batch |
| DataframeStream.EncodedAll | modules/basic/stream/dataframe_stream.cc:57-59 | one encoded chunk per successfully written batch, in order |
| DataframeStream.DataframeStreamWriter.WriteBatch | modules/basic/stream/dataframe_stream.cc:63-85 | returns WriteStatus of the answers; the stream gains nothing when sizing or GetNext fails, the batch's encoding when every step succeeds, and an unfinished chunk when encoding fails after GetNext allocated it; the stop state is untouched |
| DataframeStream.DataframeStreamWriter.WriteTable | modules/basic/stream/dataframe_stream.cc:54-61 | a failed split is returned and changes nothing; otherwise returns the first failing batch's status, or OK; the stream gains the encodings of the batches before that failure, then whatever the failing write left (an unfinished chunk once its chunk was allocated) |
| DataframeStream.DataframeStreamReader.constructor | modules/basic/stream/dataframe_stream.cc:185-191 | a reader carries its stream's id and parameters |
| DataframeStream.DataframeStreamReader.ReadBatch | modules/basic/stream/dataframe_stream.cc:116-167 | a chunk that decodes yields its batch with the parameters merged into its metadata; a chunk that does not decode yields its error; an exhausted stream yields its end status |
| DataframeStream.DataframeStreamReader.ReadRecordBatches | modules/basic/stream/dataframe_stream.cc:95-102 | always returns OK; collects the stamped batches before the first failing read, and consumes that failing chunk |
| DataframeStream.DataframeStreamReader.ReadTable | modules/basic/stream/dataframe_stream.cc:104-114 | the status is Arrow's, and the table is built from whatever ReadRecordBatches collected |
| DataframeStream.StampedIsUnique | modules/basic/stream/dataframe_stream.cc:151-161 | the merged metadata is determined by the base metadata and the parameters |
| DataframeStream.GetHeaderLine | modules/basic/stream/dataframe_stream.cc:169-183 | header_row is true exactly when the parameter is "1"; header_line is the parameter when both are given and empty otherwise |
| DataframeStream.OpenReader | modules/basic/stream/dataframe_stream.cc:185-191 | a reader exists exactly when the server opens the stream for reading, and it carries the stream's parameters |
| DataframeStream.OpenWriter | modules/basic/stream/dataframe_stream.cc:193-199 | a writer exists exactly when the server opens the stream for writing |
| DataframeStream.DrainIsCompleteIffNoCorruptChunk | modules/basic/stream/dataframe_stream.cc:95-102 | the reader drains every chunk exactly when none fails to decode |
| DataframeStream.AsRead | modules/basic/stream/dataframe_stream.cc:116-139 | a reader meets each encoded chunk as its batch and each unfinished chunk as a chunk that fails to decode |
| DataframeStream.DecodablePrefixAt | modules/basic/stream/dataframe_stream.cc:95-102 | the reader stops exactly at the first chunk that fails to decode |
| DataframeStream.UnfinishedChunkTruncatesReaders | modules/basic/stream/dataframe_stream.cc:63-102 | after a failed write leaves an unfinished chunk, a reader of the stream gets exactly the batches written before it, and none written after it |
| LoaderPartition.SplitSize | modules/graph/loader/arrow_fragment_loader.h:64-65 | split_size is n / part_num rounded up: the smallest count whose part_num multiples cover n |
| LoaderPartition.EndToRead | modules/graph/loader/arrow_fragment_loader.h:66-68 | end_to_read never passes the number of items |
| LoaderPartition.Range | modules/graph/loader/arrow_fragment_loader.h:92-95 | an inverted or empty range reads nothing |
| LoaderPartition.PartSlice | modules/graph/loader/arrow_fragment_loader.h:64-68 | a worker's slice holds at most split_size items |
| LoaderPartition.PartSliceBounds | modules/graph/loader/arrow_fragment_loader.h:64-68 | worker id reads exactly the items from min(n, id * split_size) up to min(n, (id + 1) * split_size) |
| LoaderPartition.Parts | modules/graph/loader/arrow_fragment_loader.h:108-114 | the slices of workers 0 to k-1, in worker order |
| LoaderPartition.PartsPrefix | modules/graph/loader/arrow_fragment_loader.h:64-68 | workers 0 to k-1 together read exactly the first min(n, k * split_size) items, in order |
| LoaderPartition.PartsCover | modules/graph/loader/arrow_fragment_loader.h:64-68 | the slices of all part_num workers, concatenated, are exactly the items: each item is read once |
| LoaderPartition.RangesDisjoint | modules/graph/loader/arrow_fragment_loader.h:64-68 | a lower worker's range ends no later than a higher worker's range starts |
| LoaderPartition.InvertedRangeExample | modules/graph/loader/arrow_fragment_loader.h:108-112 | with 5 chunks, 4 workers and worker 3, start_to_read is 6 and end_to_read is 5 |
| LoaderPartition.ReadDataFrameChunksAsWritten | modules/graph/loader/arrow_fragment_loader.h:103-116 | the loop as written, which needs start <= end to terminate, reads chunks [start, end) |
| LoaderPartition.ReadDataFrameChunks | modules/graph/loader/arrow_fragment_loader.h:103-116 | with the bound idx < end the worker reads its own slice and returns OK, for every input |
| LoaderPartition.DrainStatuses | modules/graph/loader/arrow_fragment_loader.h:72-90 | one status per local stream, OK exactly when that stream ends with StreamDrained or OK |
| LoaderPartition.DrainedBatches | modules/graph/loader/arrow_fragment_loader.h:80-88 | one contribution per local stream: nothing, or exactly that stream's batches |
| LoaderPartition.ReaderContributions | modules/graph/loader/arrow_fragment_loader.h:72-90 | reader i reports the drain status of stream i, and contributes all of that stream's batches when the drain succeeds and none when it fails |
| LoaderPartition.Reader | modules/graph/loader/arrow_fragment_loader.h:72-90 | one reader task appends its status, and its batches only on success, to the results of the readers before it |
| LoaderPartition.DrainRange | modules/graph/loader/arrow_fragment_loader.h:92-95 | the readers for idx from start while idx < end record the statuses and batches of exactly the streams in [start, end), none for an inverted range |
| LoaderPartition.ReturnFirstError | modules/graph/loader/arrow_fragment_loader.h:96-100 | returns the first failing reader status in task order, or OK |
| LoaderPartition.ReadStreamBatches | modules/graph/loader/arrow_fragment_loader.h:57-101 | the worker's slice of local streams is read; the status is the first failure and the batches are those of the readers that succeeded, stream by stream |
| LoaderPartition.Concatenate | modules/graph/loader/arrow_fragment_loader.h:185 | the concatenated table takes the first table's schema |
| LoaderPartition.ReadStreamTable | modules/graph/loader/arrow_fragment_loader.h:142-188 | the status is the first reader failure; with success, no table exactly when the slice is empty, else the concatenation of one table per stream |
| LoaderPartition.TableReader | modules/graph/loader/arrow_fragment_loader.h:152-172 | one table reader appends its status, and its table only on success |
| LoaderPartition.ReadTablesRange | modules/graph/loader/arrow_fragment_loader.h:174-177 | the table readers of [start, end) record every stream's status and the tables of those that succeeded, in stream order |
| LoaderPartition.AllSucceeded | modules/graph/loader/arrow_fragment_loader.h:178-186 | when no reader failed, every stream of the slice has its table, in stream order |
| LoaderPartition.ReadDataFrameTable | modules/graph/loader/arrow_fragment_loader.h:193-212 | an empty slice gives a null table and OK; otherwise the slice as one table |
| LoaderPartition.ReadOutcome | modules/graph/loader/arrow_fragment_loader.h:118-137 | a missing object fails the assertion, a parallel stream and a global dataframe are read by slice, and anything else is Invalid with its type name |
| LoaderPartition.ReadRecordBatchesFromVineyard | modules/graph/loader/arrow_fragment_loader.h:118-137 | the dispatch returns exactly ReadOutcome |
| LoaderPartition.ReadTableFromVineyard | modules/graph/loader/arrow_fragment_loader.h:217-235 | the same dispatch reading a table, with the same errors; a global dataframe gives the table of its slice of chunks, null exactly when the slice is empty; a parallel stream that reads with OK gives no table exactly when its slice is empty, and otherwise the concatenation of one table per stream of the slice |
| LoaderPartition.StreamReadAllOrError | modules/graph/loader/arrow_fragment_loader.h:57-101 | reading succeeds exactly when every stream drains cleanly, and then yields all their batches, stream by stream |
| LoaderGather.Group | modules/graph/loader/arrow_fragment_loader.h:342 | grouping never creates an empty group |
| LoaderGather.FilterMembership | modules/graph/loader/arrow_fragment_loader.h:342 | a value is filed under a key exactly when the pair was gathered |
| LoaderGather.GroupIsFilter | modules/graph/loader/arrow_fragment_loader.h:342 | a group exists exactly for the keys that occur, and holds their values in gathering order |
| LoaderGather.GroupEmpty | modules/graph/loader/arrow_fragment_loader.h:357 | nothing is grouped exactly when nothing was gathered |
| LoaderGather.GatheredBatches | modules/graph/loader/arrow_fragment_loader.h:262-265 | a reader contributes nothing for a missing or unsupported object, its slice of chunks for a global dataframe, and for a parallel stream the batches of its slice of streams when every one of them drains, otherwise nothing |
| LoaderGather.VertexLabel | modules/graph/loader/arrow_fragment_loader.h:334-341 | a vertex batch is labelled by its metadata "label" when it has one, and by the decimal stream index otherwise |
| LoaderGather.VertexLabelled | modules/graph/loader/arrow_fragment_loader.h:333-343 | each batch is labelled by its metadata "label" when present, else by its stream index |
| LoaderGather.GroupTables | modules/graph/loader/arrow_fragment_loader.h:361-370 | one table per group, null exactly for an empty group, else the group's batches as a table |
| LoaderGather.GroupVertexBatches | modules/graph/loader/arrow_fragment_loader.h:333-343 | files one stream's batches under their labels |
| LoaderGather.FileVertexBatch | modules/graph/loader/arrow_fragment_loader.h:334-342 | the batch goes to the end of the group named by its metadata "label", or by the stream index when it has none |
| LoaderGather.GatherVertexStream | modules/graph/loader/arrow_fragment_loader.h:328-346 | a stream that reads successfully has its batches filed under their labels; a failed one contributes nothing |
| LoaderGather.GatherVTables | modules/graph/loader/arrow_fragment_loader.h:318-372 | if streams were given but nothing was gathered, the single group "0" with a null table; otherwise one table per label group |
| LoaderGather.VertexBatchPlacement | modules/graph/loader/arrow_fragment_loader.h:333-343 | every gathered vertex batch lies in the group of its label (or its stream index) |
| LoaderGather.VertexItemsPrefix | modules/graph/loader/arrow_fragment_loader.h:351-355 | the batches of earlier streams are among all gathered batches |
| LoaderGather.VertexFallback | modules/graph/loader/arrow_fragment_loader.h:357-359 | streams given but no batch gathered: exactly one group "0", with a null table |
| LoaderGather.NoVertexItems | modules/graph/loader/arrow_fragment_loader.h:331-347 | when every read yields nothing, nothing is gathered |
| LoaderGather.EdgeStep | modules/graph/loader/arrow_fragment_loader.h:267-280 | a batch without metadata keeps the previous key; with metadata, the pair is re-read from it (empty when missing) and the label is its "label" when present, else the previous label |
| LoaderGather.StreamEdgeItems | modules/graph/loader/arrow_fragment_loader.h:262-294 | every keyed edge batch of one index was gathered from one of the streams given for that index |
| LoaderGather.EdgeKeys | modules/graph/loader/arrow_fragment_loader.h:267-281 | one key per batch |
| LoaderGather.Nest | modules/graph/loader/arrow_fragment_loader.h:301-314 | every (label, src, dst) group appears under its label and pair with its table, and nothing else appears |
| LoaderGather.GroupEdgeBatches | modules/graph/loader/arrow_fragment_loader.h:267-281 | files one stream's batches under their keys, carrying label and pair from batch to batch |
| LoaderGather.FileEdgeBatch | modules/graph/loader/arrow_fragment_loader.h:268-280 | the key after a batch is the previous key updated from the batch's metadata, and the batch goes to the end of that key's group |
| LoaderGather.GroupOneStream | modules/graph/loader/arrow_fragment_loader.h:262-286 | a stream that reads successfully has its batches filed; a failed one contributes nothing |
| LoaderGather.GroupIndexStreams | modules/graph/loader/arrow_fragment_loader.h:290-294 | files the batches of every stream given for one index, in order |
| LoaderGather.GatherETables | modules/graph/loader/arrow_fragment_loader.h:250-316 | if streams were given but nothing was gathered, the single label "0" with pair ("", "") and a null table; otherwise the groups nested by label and pair |
| LoaderGather.EdgeKeysFromOwnMetadata | modules/graph/loader/arrow_fragment_loader.h:269-278 | when every batch carries a label, each is keyed by its own metadata, missing src/dst reading as "" |
| LoaderGather.EdgeKeysWithoutMetadata | modules/graph/loader/arrow_fragment_loader.h:267 | batches without metadata are keyed by their index and the empty pair |
| LoaderGather.LabelCarriesOver | modules/graph/loader/arrow_fragment_loader.h:267-279 | a batch whose metadata lacks "label" inherits the label of the batch before it, with its own (empty) pair |
| LoaderGather.VertexCheck | modules/graph/loader/arrow_fragment_loader.h:754-766 | a vertex table passes exactly when it is not null and has metadata with a label; a null table is dereferenced, and only a null table is |
| LoaderGather.FirstVertexFailure | modules/graph/loader/arrow_fragment_loader.h:754-769 | there is no vertex failure exactly when every vertex table passes its check |
| LoaderGather.FirstVertexFailureAt | modules/graph/loader/arrow_fragment_loader.h:754-769 | the failure of the vertex loop is the check of the first table that fails, and none when every table passes |
| LoaderGather.PresentKeepsAll | modules/graph/loader/arrow_fragment_loader.h:754-769 | when no vertex table is null, the tables that are indexed are all of them, in order |
| LoaderGather.VertexIndexLastWins | modules/graph/loader/arrow_fragment_loader.h:767-768 | a label is indexed exactly when some table has it, and it maps to the last table with that label |
| LoaderGather.EndpointsMembership | modules/graph/loader/arrow_fragment_loader.h:786-796 | a label is an endpoint exactly when some edge table starts or ends at it |
| LoaderGather.GroupInputs | modules/graph/loader/arrow_fragment_loader.h:778-787 | one entry per edge table of a group |
| LoaderGather.IndexVertexTables | modules/graph/loader/arrow_fragment_loader.h:754-769 | fails exactly when some vertex table fails its check, with the failure of the first one (a null dereference or the rejection message); otherwise every label maps to the last table carrying it |
| LoaderGather.IndexVertexTable | modules/graph/loader/arrow_fragment_loader.h:755-768 | one iteration: returns the check of table i, which is then the first failure of the whole loop; when it passes, the index grows by table i under its label |
| LoaderGather.ListGroupTables | modules/graph/loader/arrow_fragment_loader.h:778-797 | succeeds exactly when no table of the group, nor its metadata, is null; then appends the group's edge tables with their labels in order, and keeps the deduced set equal to the endpoints that are neither indexed nor previous |
| LoaderGather.ListEdgeTable | modules/graph/loader/arrow_fragment_loader.h:779-796 | succeeds exactly when the table and its metadata are not null; then lists the table with its labels and keeps the deduced set equal to the endpoints that are neither indexed nor previous |
| LoaderGather.ListEdgeTables | modules/graph/loader/arrow_fragment_loader.h:777-798 | succeeds exactly when no edge table or its metadata is null; then every edge table in order, and the deduced labels are the endpoints that are neither indexed nor previous |
| LoaderGather.PreprocessInputs | modules/graph/loader/arrow_fragment_loader.h:745-815 | fails exactly when a vertex table fails its check (with the first failure) or an edge table or its metadata is null (a null dereference); otherwise the label index, the edge tables in order, and a deduced label is exactly an endpoint that is neither a vertex table label nor previous |
| LoaderGather.GatherFallbackIsDereferenced | modules/graph/loader/arrow_fragment_loader.h:754-755 | the null table of the vertex fallback group "0" makes the vertex loop dereference null |
| LoaderGather.SelectSource | modules/graph/loader/arrow_fragment_loader.h:472-528 | streams are chosen exactly when both kinds are given; every failure is "Error when processing input source" |
| LoaderGather.SelectSourceFails | modules/graph/loader/arrow_fragment_loader.h:472-528 | loading fails exactly when there are not both stream kinds, no edge files and no partial edge tables |
| LoaderGather.EdgeTablesOnlyUnreachable | modules/graph/loader/arrow_fragment_loader.h:505-517 | the branch for edge tables without vertex tables is never taken |
| LoaderGather.CopyPartialTables | modules/graph/loader/arrow_fragment_loader.h:506-516 | copies the vertex tables and every label's edge tables, unchanged |
| LoaderGather.CopyPartialEdgeTables | modules/graph/loader/arrow_fragment_loader.h:518-524 | copies only the edge tables |
| LoaderGather.DuplicatedConditionIsHarmless | modules/graph/loader/arrow_fragment_loader.h:505-524 | with no vertex tables the taken branch copies the same tables as the unreachable one |
| TableShuffler.SelectRows | modules/graph/utils/table_shuffler_beta.h:458-472 | the selection is well formed, with one row per offset and the input's schema |
| TableShuffler.SelectRowsPicks | modules/graph/utils/table_shuffler_beta.h:458-472 | row i of every column of the selection is row offset[i] of the same input column |
| TableShuffler.Encode | modules/graph/utils/table_shuffler_beta.h:261-269 | the encoding of a batch starts with its row count |
| TableShuffler.DecodeColumns | modules/graph/utils/table_shuffler_beta.h:348-361 | decoded columns have the types of the schema, in order |
| TableShuffler.Decode | modules/graph/utils/table_shuffler_beta.h:348-361 | a decoded batch has the schema it was read against, and the archive started with its row count |
| TableShuffler.StringRoundTrip | modules/graph/utils/table_shuffler_beta.h:46-60 | a string view reads back as the same bytes, leaving the rest of the archive |
| TableShuffler.ValsRoundTrip | modules/graph/utils/table_shuffler_beta.h:272-282 | n fixed-width values read back as written |
| TableShuffler.ListCellRoundTrip | modules/graph/utils/table_shuffler_beta.h:213-223 | a list row is its length and its values, and reads back as the same row |
| TableShuffler.CellRoundTrip | modules/graph/utils/table_shuffler_beta.h:172-223 | every item of a supported type reads back as written |
| TableShuffler.CellsRoundTrip | modules/graph/utils/table_shuffler_beta.h:225-259 | the items of one column read back as written |
| TableShuffler.ColumnsRoundTrip | modules/graph/utils/table_shuffler_beta.h:266-268 | the columns, one after another, read back against their types |
| TableShuffler.RoundTrip | modules/graph/utils/table_shuffler_beta.h:261-269 | a batch written to an archive reads back, against its schema, as the same batch |
| TableShuffler.SelectedRowsRoundTrip | modules/graph/utils/table_shuffler_beta.h:544 | the receiver rebuilds exactly the rows selected by the sender's offsets |
| TableShuffler.AppendSlot | modules/graph/utils/table_shuffler_beta.h:309 | Append(true) opens a slot that starts at the current number of values |
| TableShuffler.AppendValues | modules/graph/utils/table_shuffler_beta.h:308 | appending to the value builder adds the values and opens no slot |
| TableShuffler.FinishList | modules/graph/utils/table_shuffler_beta.h:300-311 | a finished list array has one row per slot opened |
| TableShuffler.BuildAsWrittenState | modules/graph/utils/table_shuffler_beta.h:306-310 | after the loop as written, the values are all rows in order and slot i starts where row i's values end |
| TableShuffler.BuildCorrectedState | modules/graph/utils/table_shuffler_beta.h:306-310 | after the corrected loop, the values are all rows in order and slot i starts where row i's values begin |
| TableShuffler.ListBuiltAsWrittenShifts | modules/graph/utils/table_shuffler_beta.h:416-419 | as written, row i of the built list is input row i + 1, and the last row is empty |
| TableShuffler.ListBuiltRebuilds | modules/graph/utils/table_shuffler_beta.h:416-419 | opening each slot before appending its values rebuilds exactly the input rows |
| TableShuffler.ShiftedListExample | modules/graph/utils/table_shuffler_beta.h:306-310 | the list rows [1] and [2, 3] come back as [2, 3] and [] as written, and unchanged when corrected |
| TableShuffler.NullColumnsAreFree | modules/graph/utils/table_shuffler_beta.h:206-210 | null columns write nothing, and reading n nulls consumes nothing |
| TableShuffler.InArchive.constructor | modules/graph/utils/table_shuffler_beta.h:542 | a new archive is empty |
| TableShuffler.InArchive.PutCount | modules/graph/utils/table_shuffler_beta.h:265 | appends a count |
| TableShuffler.InArchive.PutValue | modules/graph/utils/table_shuffler_beta.h:193 | appends a value |
| TableShuffler.InArchive.PutString | modules/graph/utils/table_shuffler_beta.h:46-51 | appends the length, then the bytes |
| TableShuffler.InArchive.PutValues | modules/graph/utils/table_shuffler_beta.h:172-182 | appends every value of an array, in order |
| TableShuffler.InArchive.PutCell | modules/graph/utils/table_shuffler_beta.h:192-222 | appends one item according to its column type |
| TableShuffler.InArchive.SerializeSelectedItems | modules/graph/utils/table_shuffler_beta.h:225-259 | appends the items at offset, in offset order; a null column appends nothing |
| TableShuffler.InArchive.SerializeSelectedRows | modules/graph/utils/table_shuffler_beta.h:261-269 | appends exactly the encoding of the selected rows, count first |
| TableShuffler.OutArchive.constructor | modules/graph/utils/table_shuffler_beta.h:556 | the archive holds the received words |
| TableShuffler.OutArchive.GetCount | modules/graph/utils/table_shuffler_beta.h:352 | reads a count when one is next |
| TableShuffler.OutArchive.GetValue | modules/graph/utils/table_shuffler_beta.h:279 | reads a value when one is next |
| TableShuffler.OutArchive.GetString | modules/graph/utils/table_shuffler_beta.h:53-60 | reads a length and that many bytes, as DecodeString describes |
| TableShuffler.OutArchive.GetValues | modules/graph/utils/table_shuffler_beta.h:271-282 | reads num values, as DecodeVals describes |
| TableShuffler.OutArchive.GetCell | modules/graph/utils/table_shuffler_beta.h:284-311 | reads one item of a non-null type, as DecodeCell describes |
| TableShuffler.OutArchive.DeserializeSelectedItems | modules/graph/utils/table_shuffler_beta.h:313-346 | reads num items of a type; a null column gives num nulls and reads nothing |
| TableShuffler.OutArchive.DeserializeSelectedRows | modules/graph/utils/table_shuffler_beta.h:348-361 | reads the row count and then each column of the schema, as Decode describes |
| TableShuffler.LocalSelections | modules/graph/utils/table_shuffler_beta.h:573-578 | for each outgoing batch, the rows its offsets file under this worker's fragment, selected with the corrected list builder (see Findings) |
| TableShuffler.AppendLocalSelections | modules/graph/utils/table_shuffler_beta.h:553-578 | the received batches come first, then the local selections in batch order, selected with the corrected list builder |
| TableShuffler.EdgeRows | modules/graph/utils/table_shuffler_beta.h:665-676 | the rows filed under a fragment are in range and strictly increasing |
| TableShuffler.EdgeRowsMembership | modules/graph/utils/table_shuffler_beta.h:665-676 | an edge row is filed under a fragment exactly when its source or destination lives there |
| TableShuffler.BucketEdgeRows | modules/graph/utils/table_shuffler_beta.h:649-676 | one offset list per fragment, each equal to EdgeRows: a row goes to its source, and to its destination when that differs |
| TableShuffler.VertexRows | modules/graph/utils/table_shuffler_beta.h:751-755 | the rows filed under a fragment are in range and strictly increasing |
| TableShuffler.VertexRowsMembership | modules/graph/utils/table_shuffler_beta.h:751-755 | a vertex row is filed under exactly the fragment of its partition |
| TableShuffler.BucketVertexRows | modules/graph/utils/table_shuffler_beta.h:745-755 | one offset list per fragment, each equal to VertexRows |
| TableShuffler.SendPeerWraps | modules/graph/utils/table_shuffler_beta.h:136 | the send peer at step i is worker_id + i, wrapped once |
| TableShuffler.SendPeer | modules/graph/utils/table_shuffler_beta.h:136 | the send peer is a worker index |
| TableShuffler.RecvPeer | modules/graph/utils/table_shuffler_beta.h:143 | the receive peer is a worker index |
| TableShuffler.SendOrderDistinct | modules/graph/utils/table_shuffler_beta.h:135-138 | no step sends to the sender, and no two steps send to the same worker |
| TableShuffler.SendOrderReachesAll | modules/graph/utils/table_shuffler_beta.h:135-138 | every other worker is sent to at some step |
| TableShuffler.RecvMirrorsSend | modules/graph/utils/table_shuffler_beta.h:135-143 | the worker sent to at step i receives from the sender at its own step i |
| TableShuffler.BatchesToRecv | modules/graph/utils/table_shuffler_beta.h:499-504 | the batches to receive are the sum of what all the other workers send |
| TableShuffler.NonEmpty | modules/graph/utils/table_shuffler_beta.h:689-693 | the erase keeps at most the input's batches, and no kept batch is empty |
| TableShuffler.NonEmptyMembership | modules/graph/utils/table_shuffler_beta.h:689-693 | after the erase no batch is empty, and every non-empty batch is kept |
| TableShuffler.RemoveEmptyBatches | modules/graph/utils/table_shuffler_beta.h:689-693 | keeps the non-empty batches, in order |
| TableShuffler.ShuffleResult | modules/graph/utils/table_shuffler_beta.h:695-699 | the result has the input schema and holds exactly the non-empty received batches |
| TableShuffler.AllEmptyGivesEmptyTable | modules/graph/utils/table_shuffler_beta.h:774-787 | the table is empty exactly when every received batch is empty |
| StreamDriver.ResolveSshScript | modules/io/python/drivers/io/stream.py:40-45 | "ssh" and "kubernetes" have their scripts; any other deployment raises ValueError naming it |
| StreamDriver.Slots | modules/io/python/drivers/io/stream.py:101 | one slot count per host |
| StreamDriver.SlotsBalanced | modules/io/python/drivers/io/stream.py:101 | exactly the first num_workers % nh hosts get the extra worker, counts never increase along the hosts and differ by at most one |
| StreamDriver.SlotsPrefixSum | modules/io/python/drivers/io/stream.py:101 | the first k hosts hold k * (num_workers // nh) plus min(k, num_workers % nh) workers |
| StreamDriver.SlotsSum | modules/io/python/drivers/io/stream.py:101 | the slots add up to num_workers |
| StreamDriver.Split | modules/io/python/drivers/io/stream.py:95 | the parts contain no separator |
| StreamDriver.SplitJoin | modules/io/python/drivers/io/stream.py:95 | joining the parts with the separator gives the endpoint back |
| StreamDriver.SplitCount | modules/io/python/drivers/io/stream.py:94-95 | there are at least two parts exactly when the endpoint holds a colon |
| StreamDriver.ParseEndpointAsWritten | modules/io/python/drivers/io/stream.py:93-95 | raises TypeError exactly when the endpoint is omitted |
| StreamDriver.ParseEndpoint | modules/io/python/drivers/io/stream.py:93-95 | an omitted endpoint stays unset; an endpoint with a colon becomes its parts, which join back to it; otherwise it is kept as is |
| StreamDriver.OmittedEndpointRaises | modules/io/python/drivers/io/stream.py:93-95 | the code as written raises for an omitted endpoint, where the corrected one leaves it unset; they agree whenever an endpoint is given |
| StreamDriver.HostPlan | modules/io/python/drivers/io/stream.py:103-104 | one host entry per process |
| StreamDriver.HostPlanPosition | modules/io/python/drivers/io/stream.py:102-111 | host i runs processes sum(slots[:i]) to sum(slots[:i+1]) - 1 |
| StreamDriver.Launches | modules/io/python/drivers/io/stream.py:105-110 | process p runs on its host with the arguments followed by num_workers and p |
| StreamDriver.RunLaunchesEveryWorker | modules/io/python/drivers/io/stream.py:97-112 | run launches exactly num_workers processes, numbered 0 to num_workers - 1 in launch order |
| StreamDriver.ParallelStreamLauncher.constructor | modules/io/python/drivers/io/stream.py:73-79 | a launcher for a known deployment starts with no endpoint and no processes |
| StreamDriver.ParallelStreamLauncher.Run | modules/io/python/drivers/io/stream.py:81-112 | sets the endpoint and appends exactly the launches of the host plan |
| StreamDriver.ParallelStreamLauncher.LaunchHost | modules/io/python/drivers/io/stream.py:104-112 | launches one host's processes with consecutive indices |
| StreamDriver.NewParallelStreamLauncher | modules/io/python/drivers/io/stream.py:73-76 | an unknown deployment raises before any launcher exists |
| StreamDriver.FailureMessages | modules/io/python/drivers/io/stream.py:118-130 | at most one message per process |
| StreamDriver.FailureMessagesEmpty | modules/io/python/drivers/io/stream.py:119-130 | there are no messages exactly when no process failed with a non-zero exit code |
| StreamDriver.JoinOutcome | modules/io/python/drivers/io/stream.py:131-138 | join raises exactly when some process failed with a non-zero exit code, with the messages in launch order and the last process's diagnostics |
| StreamDriver.Join | modules/io/python/drivers/io/stream.py:114-138 | returns exactly JoinOutcome |
| StreamDriver.IndexOfKey | modules/io/python/drivers/io/stream.py:468 | the index of the first entry with the key |
| StreamDriver.DictSet | modules/io/python/drivers/io/stream.py:468 | assignment keeps keys distinct, adds the key, gives it the new value and leaves other entries as they were |
| StreamDriver.StreamKey | modules/io/python/drivers/io/stream.py:186 | member i is named "stream_" followed by the decimal i |
| StreamDriver.StreamKeyInjective | modules/io/python/drivers/io/stream.py:186 | distinct indices give distinct member names |
| StreamDriver.CreateParallelStream | modules/io/python/drivers/io/stream.py:180-190 | a global ParallelStream of size n whose member i is "stream_i" naming the i-th partial stream |
| StreamDriver.FlattenResults | modules/io/python/drivers/io/stream.py:398-400 | the chunks of every worker, in worker order |
| StreamDriver.CreateGlobalDataframe | modules/io/python/drivers/io/stream.py:387-411 | raises exactly when no name is given; otherwise all chunks in order, a partition shape of len(results) x 1, and nbytes 0 |
| StreamDriver.FirstGlobal | modules/io/python/drivers/io/stream.py:462-465 | the index of the first global object |
| StreamDriver.GlobalCheck | modules/io/python/drivers/io/stream.py:462-476 | the check passes exactly when there are objects and all are global |
| StreamDriver.GlobalCheckAsWritten | modules/io/python/drivers/io/stream.py:462-476 | the check as written passes only when some object is global and every object from the first global one on is global; it fails only for an empty list or one holding a non-global object |
| StreamDriver.NonGlobalBeforeGlobalIsAccepted | modules/io/python/drivers/io/stream.py:462-476 | a non-global object before a global one passes the check as written and is left out of the merge, while the strict check rejects it |
| StreamDriver.GlobalCheckAsWrittenIsWeaker | modules/io/python/drivers/io/stream.py:462-476 | the check as written accepts every list the strict check accepts, and exactly the lists where all objects after the first global one are global |
| StreamDriver.AddMembers | modules/io/python/drivers/io/stream.py:466-468 | the chunk map stays keyed by distinct member ids |
| StreamDriver.ChunkMapOf | modules/io/python/drivers/io/stream.py:462-468 | the chunk map of all the global objects is keyed by distinct ids |
| StreamDriver.AddMembersKeys | modules/io/python/drivers/io/stream.py:466-468 | the chunk map's ids are the earlier ones plus every member id of the object |
| StreamDriver.MembersFrom | modules/io/python/drivers/io/stream.py:486-487 | the merged object's member names are distinct |
| StreamDriver.MembersFromKeys | modules/io/python/drivers/io/stream.py:486-487 | the merged object has a member for every name in the chunk map |
| StreamDriver.MembersFromEntries | modules/io/python/drivers/io/stream.py:486-487 | every member of the merged object is a chunk map entry |
| StreamDriver.BaseMeta | modules/io/python/drivers/io/stream.py:478-487 | the merged metadata is global and has exactly the first object's plain fields other than id, signature and instance_id, with their values |
| StreamDriver.MetasOf | modules/io/python/drivers/io/stream.py:456-460 | the metadata of each chunk, in order |
| StreamDriver.MergeErrors | modules/io/python/drivers/io/stream.py:437-476 | no chunk raises; a single chunk is returned as is; with several, the merge fails exactly when the strict check of Findings row 3 fails, that is, when some object is not global |
| StreamDriver.MergeOutcome | modules/io/python/drivers/io/stream.py:437-490 | a merge succeeds only when some chunk was returned, and a single chunk is returned as the result itself; several chunks are merged under the strict check of Findings row 3 |
| StreamDriver.CollectChunkMapAsWritten | modules/io/python/drivers/io/stream.py:462-476 | the loop as written returns the weaker check's verdict and, when it passes, the chunk map of the global objects |
| StreamDriver.CollectChunkMap | modules/io/python/drivers/io/stream.py:462-476 | the corrected loop returns the strict check's verdict and, when it passes, the chunk map |
| StreamDriver.ChunkMapSkips | modules/io/python/drivers/io/stream.py:469-471 | an object that is not global adds nothing to the chunk map |
| StreamDriver.CollectMembers | modules/io/python/drivers/io/stream.py:464-468 | filing a global object's members extends the chunk map of the objects before it to the chunk map including it |
| StreamDriver.AddMemberEntries | modules/io/python/drivers/io/stream.py:466-468 | files one object's members as AddMembers describes |
| StreamDriver.CopyPlainFields | modules/io/python/drivers/io/stream.py:480-485 | copies exactly the plain fields other than id, signature and instance_id |
| StreamDriver.AddMembersFrom | modules/io/python/drivers/io/stream.py:486-487 | adds one member per chunk map entry, as MembersFrom describes |
| StreamDriver.MergeGlobalObject | modules/io/python/drivers/io/stream.py:437-490 | returns exactly MergeOutcome (with the strict check) |
| IoUtils.ReportStatus | python/vineyard/io/utils.py:28-37 | the message has exactly the keys type and content, holding the status and the content |
| IoUtils.ParseReport | python/vineyard/io/utils.py:28-37 | a message reads back only when it has the keys type and content |
| IoUtils.ReportRoundTrip | python/vineyard/io/utils.py:28-37 | every report reads back as the status and content it was made from |
| IoUtils.ReportError | python/vineyard/io/utils.py:40-41 | an "error" report with the content |
| IoUtils.ReportException | python/vineyard/io/utils.py:50-51 | an "error" report carrying the formatted traceback |
| IoUtils.ReportSuccess | python/vineyard/io/utils.py:44-47 | a "return" report; an object id is sent as its repr, anything else unchanged |
| IoUtils.SuccessCarriesNoId | python/vineyard/io/utils.py:44-47 | a success report never carries a raw object id |
| IoUtils.FirstRaised | python/vineyard/io/utils.py:78 | the index of the first executor that raised |
| IoUtils.ExecuteOutcome | python/vineyard/io/utils.py:68-78 | a parallelism below one raises the pool's ValueError; otherwise a result is one value per executor, and an error is the error of an executor that raised |
| IoUtils.ExecuteSucceeds | python/vineyard/io/utils.py:68-78 | with positive parallelism, execute succeeds exactly when every executor returned, and result i is executor i's |
| IoUtils.ExecuteRaisesFirst | python/vineyard/io/utils.py:78 | a failing execute raises the error of the lowest-index executor that raised |
| IoUtils.ThreadStreamExecutor.constructor | python/vineyard/io/utils.py:64-66 | max(parallism, 0) executors, all of the same class and built from the same kwargs |
| IoUtils.ThreadStreamExecutor.Execute | python/vineyard/io/utils.py:68-78 | raises ValueError for a parallelism below one; otherwise returns exactly ExecuteOutcome |
| Common.TableOf | modules/graph/loader/arrow_fragment_loader.h:367 | a table built from batches holds them and takes the first batch's schema metadata |
| Common.FirstFailure | modules/graph/loader/arrow_fragment_loader.h:97-99 | the index of the first status that is not OK |
| Common.FirstError | modules/graph/loader/arrow_fragment_loader.h:97-100 | OK exactly when every status is OK, and otherwise a failing status from the list |
| Common.FirstErrorSnoc | modules/graph/loader/arrow_fragment_loader.h:96-100 | the first failure of a longer list of statuses is the earlier failure if there was one, otherwise the new status |
| Common.NatToStringInjective | modules/graph/loader/arrow_fragment_loader.h:267 | distinct stream indices give distinct default labels |
| Common.FlattenMembership | modules/io/python/drivers/io/stream.py:441-443 | a chunk is in the flattened list exactly when some worker returned it |
| Common.FlattenAppend | modules/io/python/drivers/io/stream.py:441-443 | flattening commutes with concatenating the workers' lists |
| Common.SumAppend | modules/graph/utils/table_shuffler_beta.h:501-504 | the sum over two lists of counts is the sum of their sums |

## Left out

- Concurrency. `ThreadGroup` readers, the shuffler's send, receive,
  serialise and deserialise threads with their blocking queues and atomics,
  and the executor's thread pool are all modelled as if they ran one at a
  time, in task order. Mutexes and the order in which concurrent tasks
  finish are not modelled.
- MPI. `MPI_Allreduce` is modelled as the sum of every worker's count.
  Barriers, probes and the transfer of archives are left out. The schema
  equality test of `SchemaConsistent` is left out; only its ring order is
  modelled.
- Arrow. `TableToRecordBatches`, `RecordBatchesToTable`,
  `Table::FromRecordBatches`, IPC reading and writing, and the array
  builders are treated as opaque.
  - Where their status matters, it is a parameter: `buildStatus` for
    `Table::FromRecordBatches`, `splitStatus` for `TableToRecordBatches`,
    and for a dataframe writer a `WriteAnswer` per batch. Its `alloc` is the
    first failure of `GetRecordBatchStreamSize` and `GetNext`, and its
    `encode` is the first failure of opening, writing and closing the IPC
    writer.
  - Elsewhere they are assumed to succeed:
    - building each stream's table in `ReadTableFromVineyardStream`;
    - `RecordBatchesToTable` in `ReadTableFromVineyardDataFrame` and in
      the gather functions;
    - `ConcatenateTables`;
    - the builders of `SelectRows` and `DeserializeSelectedRows`;
    - `EmptyTableBuilder`;
    - `CombineChunks`.
- LoaderPartition.ReadStreamTable: assumes every local stream's table can be
  built. It reads each stream with the corrected drain loop of
  `RecordBatchStream` (see Findings); as written, every stream that holds a
  batch ends in a null dereference. Arrow's error for a stream with no batches and no schema is not
  modelled.
- Element types in the shuffler. Every fixed-width type (the float, double,
  int32, int64, uint32 and uint64 columns) is one opaque integer value per
  item. An archive is a sequence of words, not bytes, so widths and byte
  layout are abstracted. The `LOG(FATAL)` for an unsupported column type is
  left out; the model has only the supported kinds.
- TableShuffler.OutArchive.DeserializeSelectedRows: a malformed archive
  yields `None`. The source has no such check and would read past the data.
- Integer widths. The `int` and `size_t` variables of the slice arithmetic,
  the `int64_t` row counts, and the Python `num_workers` are unbounded
  naturals. A negative or non-integer `num_workers` is not modelled.
- RecordBatchStream.ReadRecordBatches: models the evidently intended loop
  (see Findings). The loop as written is `ReadRecordBatchesAsWritten`, which
  dereferences null at the first batch it reads.
- RecordBatchStream.ReadTable: drains with the corrected loop, so it does not
  model the null dereference that any stream with a batch meets as written.
- LoaderPartition.ReadStreamBatches: each reader drains its stream with the
  corrected loop, not the one as written.
- LoaderPartition.StreamReadAllOrError: states the outcome of the corrected
  drain loop.
- LoaderGather.GatheredBatches: a parallel stream's batches come from the
  corrected drain loop. So do those of GatherVTables and GatherETables.
- RecordBatchStream.WriteTable: `WriteBatch` builds and seals the batch's
  blobs with `*client_` before `Push` checks the handle's mode
  (recordbatch_stream.cc:43-44). With a null client and a table that has a
  batch, the model returns the Push guard's "Expect a writeable stream" error,
  where the source dereferences null at line 43. The model also does not
  record the blobs a refused push leaves in the store.
- LoaderPartition.Reader: `Connect` of the reader's local client is assumed
  to succeed. `VINEYARD_CHECK_OK(OpenReader)` (arrow_fragment_loader.h:79
  and 160) aborts the process when a stream cannot be opened; the model
  assumes every open succeeds.
- LoaderPartition.TableReader: likewise assumes `Connect` and `OpenReader`
  succeed.
- LoaderPartition.DrainRange, LoaderPartition.ReadTablesRange,
  LoaderPartition.ReadDataFrameTable, LoaderPartition.ReadOutcome,
  LoaderPartition.ReadRecordBatchesFromVineyard and
  LoaderPartition.ReadTableFromVineyard: read the slice with the corrected
  bound `idx < end` (see Findings), and drain streams with the corrected
  drain loop. As written, the `int` difference `end_to_read - start_to_read`
  in `batches.reserve(...)` (arrow_fragment_loader.h:202) is negative on an
  inverted range. It converts to a huge `size_t`, so the source throws
  `std::length_error` before its loop.
- TableShuffler.SelectRowsPicks: states the selection with the list builder
  corrected (see Findings). As written, the selected list rows come out
  shifted by one.
- TableShuffler.RoundTrip: list columns read back with the corrected list
  builder. As written, they come back shifted by one row.
- TableShuffler.SelectedRowsRoundTrip: as RoundTrip; with list columns the
  round trip holds only for the corrected builder.
- TableShuffler.OutArchive.DeserializeSelectedItems: a list column is read
  with the corrected builder.
- TableShuffler.OutArchive.DeserializeSelectedRows: as
  DeserializeSelectedItems.
- TableShuffler.LocalSelections: list columns are selected with the
  corrected list builder (see Findings). As written (table_shuffler_beta.h:413-419,
  reached from :573-578), each selected list row comes out as the next
  row's values, and the last one is empty.
- TableShuffler.AppendLocalSelections: appends LocalSelections, so its local
  batches carry the same corrected list columns.
- StreamDriver.MergeGlobalObject: returns MergeOutcome, so it merges under
  the strict check of Findings row 3: several chunks merge only when every
  object is global. As written (stream.py:462-471), an object that is not
  global before the first global one is accepted. The merged object then
  takes that first object's plain fields (stream.py:480-485), but not its
  chunk.
- StreamDriver.MergeOutcome: uses the strict check, as MergeGlobalObject
  above; the merge as written of a list such as [local, global] is not
  modelled by it (CollectChunkMapAsWritten models that loop).
- StreamDriver.MergeErrors: states the errors of the strict check. As
  written, [local, global] raises no error.
- Vineyard client calls are abstracted:
  - `GetObject`, `OpenStream`, `PullNextStreamChunk`,
    `PushNextStreamChunk` and `StopStream` become the statuses and
    contents they return;
  - `connect`, `create_metadata`, `persist`, `put_name` and
    `make_global_dataframe` are left out, so the driver returns the metadata
    or request it would create instead of the new object's id;
  - `get_meta` is the function parameter `metaOf`.
- LoaderGather.PreprocessInputs: requires that every edge table that is not
  null and has metadata carries `label`, `src_label` and `dst_label`. The
  source reads these keys without checking, and a missing one is undefined
  behaviour there. Null tables and null metadata are modelled: they end the
  call with `NullDereference`, where the process would crash.
- The deduction step of `preprocessInputs`, which calls
  `FragmentLoaderUtils` to build vertex tables from the edges, is not part of
  this model. The model computes the set of labels that are passed to it.
- Result order of `GatherVTables` and `GatherETables`. The source returns
  the groups in `unordered_map` iteration order. The model returns them as
  maps keyed by label, and by label pair, which carries no order.
- Schema metadata. Arrow's `KeyValueMetadata` is an ordered list of pairs
  that may repeat a key, and a lookup returns the first match. The model
  makes it a `map<string, string>`, which keeps neither the order nor
  repeated keys. `MetaGet`, `VertexLabel`, `EdgeStep`, `MergeParams` and the
  vertex and edge label reads of `preprocessInputs` inherit this.
- DataframeStream.AsRead: assumes that a chunk `GetNext` allocated but
  nothing encoded into always fails to decode. The bytes of such a buffer
  are whatever the server left there, which is not modelled.
- Python dicts and `ObjectMeta` items are insertion-ordered lists of pairs.
  The model keeps member entries and plain fields apart, so a plain field
  and a member with the same key cannot collide.
- The rest of `LoadFragment`: the partitioner, loading vertex and edge
  files through `sync_gs_error`, and building the fragment. Only the choice
  of input source and the copying of partial tables are modelled.
- StreamDriver.ResolveSshScript: returns the script's file name. The
  directory prefix that `os.path.join` adds is left out.
- StreamDriver.ParallelStreamLauncher.Run: records each launch (host,
  arguments, keyword arguments). It does not start a `StreamLauncher`
  subprocess. It parses the endpoint with the corrected `ParseEndpoint` (see
  Findings), so an omitted endpoint stays unset where the source raises
  `TypeError`.
- StreamDriver.JoinOutcome: failure messages and diagnostics are
  structured records. The `%r` formatting, the joining of strings, and the
  waiting for each process are left out. The `%s` of `results` in the merge
  error messages is left out; only their fixed text is kept.
- The `ObjectID(...)` conversions of `merge_global_object` are left out,
  because chunks are object ids already.
- `wait`, `join_with_aggregator`, `dispose`, `StreamLauncher` and the
  registered read and write entry points of the driver are not part of this
  model. They compose the modelled operations with subprocess I/O.
- IoUtils.ReportStatus: returns the message as a map. Printing it as JSON
  and flushing stdout are left out.
- `repr` of an object id and the traceback text are parameters.
- IoUtils.ThreadStreamExecutor.constructor: assumes the executor class
  builds an instance from the keyword arguments without raising.
- `expand_full_path` and `BaseStreamExecutor` are not modelled. They wrap
  library calls and hold no logic.
- `Stream<T>::Make`, and `GetNext` of the dataframe reader and writer, are
  server calls and are not modelled.
- `WriteDataframe` of both streams is not modelled. It forwards to
  `WriteBatch` after a conversion in Arrow.

## Findings

| source | as written | input that shows it | evidently intended | confidence | as-written member | corrected member |
|---|---|---|---|---|---|---|
| modules/graph/loader/arrow_fragment_loader.h:108-112 | `split_size` rounds up, and the read loops run `for idx = start; idx != end`. When the last workers' start passes the number of items, start is greater than end and the loop never meets `end`. The same loops are at lines 93, 175 and 203 | 5 chunks, `part_num` = 4, `part_id` = 3 gives start 6 and end 5, so the loop reads past the chunks | `idx < end`: an empty slice for such a worker, with all slices together covering the items exactly once | not executed | LoaderPartition.ReadDataFrameChunksAsWritten with LoaderPartition.InvertedRangeExample | LoaderPartition.ReadDataFrameChunks with LoaderPartition.PartsCover |
| modules/io/python/drivers/io/stream.py:93-94 | `vineyard_endpoint` is popped with default `None`, and then the membership check `":" in self.vineyard_endpoint` follows | `run(...)` without `vineyard_endpoint` raises `TypeError: argument of type 'NoneType' is not iterable` | the endpoint is optional (docstring, lines 86-89): when omitted, it stays unset and vineyard falls back to the environment | not executed | StreamDriver.ParseEndpointAsWritten with StreamDriver.OmittedEndpointRaises | StreamDriver.ParseEndpoint |
| modules/io/python/drivers/io/stream.py:462-476 | a non-global object raises only after a global one has been seen | `[local, global]` passes the check, and the local chunk is silently left out of the merged object | every object must be global: "Not all sub objects are global objects" | not executed | StreamDriver.CollectChunkMapAsWritten with StreamDriver.NonGlobalBeforeGlobalIsAccepted | StreamDriver.CollectChunkMap with StreamDriver.GlobalCheck |
| modules/basic/stream/recordbatch_stream.cc:56-59 | `ReadBatch` already returns the Arrow record batch (line 86), and the drain loop then applies `std::dynamic_pointer_cast<RecordBatch>` to it and calls `GetRecordBatch()` on the result. Vineyard's `RecordBatch` is not an Arrow record batch, so the cast yields null | any reader stream holding one batch: the first `ReadBatch` succeeds and the loop dereferences the null cast result; `ReadTable` and every parallel-stream reader of the loaders reach this loop | append the batch `ReadBatch` returned: every unread batch collected in stream order, and OK on `StreamDrained` | not executed | RecordBatchStream.ReadRecordBatchesAsWritten with RecordBatchStream.CastFailsOnEveryRead and RecordBatchStream.OneBatchStreamFails | RecordBatchStream.ReadRecordBatches with RecordBatchStream.DrainOutcome |
| modules/graph/utils/table_shuffler_beta.h:416-419 | each row's values are appended to the value builder before `Append(true)` opens the row's slot; `Append` records the current number of values as the slot's start, so every slot starts after its own values. The reading loop at lines 306-310 does the same | selecting (or reading back) the list rows `[1]` and `[2, 3]` builds `[2, 3]` and `[]` | open the slot, then append its values: the rows come back unchanged | not executed | TableShuffler.BuildAsWritten with TableShuffler.ListBuiltAsWrittenShifts and TableShuffler.ShiftedListExample | TableShuffler.BuildCorrected with TableShuffler.ListBuiltRebuilds |
