/** The fragment loader's gathering of vertex and edge batches into labelled
    groups (`GatherVTables`, `GatherETables`), its choice of input source
    (`LoadFragment`), and its check of labelled tables (`preprocessInputs`).
    Readers run one at a time, in task order. */
module LoaderGather {
  import opened Common
  import opened LoaderPartition

  /** Groups values by key, keeping each group's values in input order. */
  function Group<K(==), V>(items: seq<(K, V)>): (g: map<K, seq<V>>)
    ensures forall k :: k in g ==> g[k] != []
  {
    if items == [] then map[]
    else
      File(Group(items[..|items| - 1]), items[|items| - 1].0, items[|items| - 1].1)
  }

  /** `grouped[key].push_back(v)`: appends `v` to the group of `key`,
      starting the group when there is none yet. */
  function File<K(==), V>(g: map<K, seq<V>>, key: K, v: V): map<K, seq<V>>
  {
    g[key := (if key in g then g[key] else []) + [v]]
  }

  /** The values filed under `key`, in input order: the reference for `Group`. */
  function Filter<K(==), V>(items: seq<(K, V)>, key: K): (vs: seq<V>)
    ensures |vs| <= |items|
  {
    if items == [] then []
    else Filter(items[..|items| - 1], key) + (if items[|items| - 1].0 == key then [items[|items| - 1].1] else [])
  }

  /** A value is filed under a key exactly when the pair is among the items. */
  lemma {:induction false} FilterMembership<K, V>(items: seq<(K, V)>, key: K, v: V)
    ensures v in Filter(items, key) <==> (key, v) in items
  {
    if items != [] {
      var init := items[..|items| - 1];
      FilterMembership(init, key, v);
      assert items == init + [items[|items| - 1]];
    }
  }

  /** `Group` has a group for exactly the keys that occur, and each group is
      the in-order list of the values filed under its key. */
  lemma {:induction false} GroupIsFilter<K, V>(items: seq<(K, V)>, key: K)
    ensures key in Group(items) <==> Filter(items, key) != []
    ensures key in Group(items) ==> Group(items)[key] == Filter(items, key)
  {
    if items != [] {
      GroupIsFilter(items[..|items| - 1], key);
    }
  }

  /** Nothing is grouped exactly when there is nothing to group. */
  lemma GroupEmpty<K, V>(items: seq<(K, V)>)
    ensures Group(items) == map[] <==> items == []
  {
    if items != [] {
      assert items[|items| - 1].0 in Group(items);
    }
  }

  lemma GroupSnoc<K, V>(items: seq<(K, V)>, k: K, v: V)
    ensures Group(items + [(k, v)]) == File(Group(items), k, v)
  {
    assert (items + [(k, v)])[..|items|] == items;
  }

  /** The batches a reader contributes for one source: all it read when the
      read succeeded, none when it failed (the failure is only logged). */
  function GatheredBatches(obj: ObjectRef, partId: nat, partNum: nat): (bs: seq<Batch>)
    requires partNum > 0
    ensures obj.source.None? || obj.source.value.OtherObject? ==> bs == []
    ensures obj.source.Some? && obj.source.value.GlobalDataFrame? ==>
      bs == PartSlice(obj.source.value.chunks, partNum, partId)
    ensures obj.source.Some? && obj.source.value.ParallelStream? ==>
      var part := PartSlice(obj.source.value.locals, partNum, partId);
      bs == if FirstError(DrainStatuses(part)).OK? then Flatten(DrainedBatches(part)) else []
  {
    var r := ReadOutcome(obj, partId, partNum);
    if r.0.OK? then r.1 else []
  }

  // ---------------------------------------------------------------- vertices

  /** A vertex batch's group: its metadata's "label" when present, otherwise
      the index of the stream it came from. */
  function VertexLabel(index: nat, b: Batch): (l: string)
    ensures b.metadata.Some? && "label" in b.metadata.value ==> l == b.metadata.value["label"]
    ensures !(b.metadata.Some? && "label" in b.metadata.value) ==> l == NatToString(index)
  {
    if b.metadata.Some? && "label" in b.metadata.value then b.metadata.value["label"] else NatToString(index)
  }

  function VertexLabelled(index: nat, bs: seq<Batch>): (items: seq<(string, Batch)>)
    ensures |items| == |bs|
    ensures forall j :: 0 <= j < |bs| ==> items[j] == (VertexLabel(index, bs[j]), bs[j])
  {
    if bs == [] then [] else VertexLabelled(index, bs[..|bs| - 1]) + [(VertexLabel(index, bs[|bs| - 1]), bs[|bs| - 1])]
  }

  /** Every gathered vertex batch with its group label, stream by stream. */
  function VertexItems(vstreams: seq<ObjectRef>, partId: nat, partNum: nat): seq<(string, Batch)>
    requires partNum > 0
  {
    if vstreams == [] then []
    else
      var n := |vstreams| - 1;
      VertexItems(vstreams[..n], partId, partNum) + VertexLabelled(n, GatheredBatches(vstreams[n], partId, partNum))
  }

  /** The tables built from the groups: a null table for an empty group. */
  function GroupTables<K(==)>(groups: map<K, seq<Batch>>): (tables: map<K, Option<Table>>)
    ensures tables.Keys == groups.Keys
    ensures forall k :: k in groups ==> (tables[k].None? <==> groups[k] == [])
    ensures forall k :: k in groups && groups[k] != [] ==> tables[k] == Some(TableOf(groups[k]))
  {
    map k | k in groups :: if groups[k] == [] then None else Some(TableOf(groups[k]))
  }

  /** The inner loop of `GatherVTables`: files one stream's batches under
      their vertex labels. */
  method GroupVertexBatches(grouped: map<string, seq<Batch>>, ghost before: seq<(string, Batch)>,
                            index: nat, batches: seq<Batch>)
    returns (g: map<string, seq<Batch>>)
    requires grouped == Group(before)
    ensures g == Group(before + VertexLabelled(index, batches))
  {
    g := grouped;
    ghost var done := before;
    var j := 0;
    assert batches[..0] == [];
    while j < |batches|
      invariant 0 <= j <= |batches|
      invariant done == before + VertexLabelled(index, batches[..j])
      invariant g == Group(done)
    {
      VertexLabelledSnoc(before, index, batches, j);
      g := FileVertexBatch(g, done, index, batches[j]);
      done := done + [(VertexLabel(index, batches[j]), batches[j])];
      j := j + 1;
    }
    assert batches[..j] == batches;
  }

  /** The body of the inner loop of `GatherVTables`: names the batch's group
      and files the batch there. */
  method FileVertexBatch(grouped: map<string, seq<Batch>>, ghost done: seq<(string, Batch)>, index: nat, b: Batch)
    returns (g: map<string, seq<Batch>>)
    requires grouped == Group(done)
    ensures g == Group(done + [(VertexLabel(index, b), b)])
  {
    var name := NatToString(index);
    if b.metadata.Some? && "label" in b.metadata.value {
      name := b.metadata.value["label"];
    }
    GroupSnoc(done, name, b);
    g := File(grouped, name, b);
  }

  lemma VertexLabelledSnoc(before: seq<(string, Batch)>, index: nat, bs: seq<Batch>, j: nat)
    requires j < |bs|
    ensures before + VertexLabelled(index, bs[..j + 1])
         == (before + VertexLabelled(index, bs[..j])) + [(VertexLabel(index, bs[j]), bs[j])]
  {
    assert bs[..j + 1][..j] == bs[..j];
  }

  /** One step of the outer loop of `GatherVTables`: read the stream, and on
      success file its batches. */
  method GatherVertexStream(grouped: map<string, seq<Batch>>, ghost before: seq<(string, Batch)>,
                            index: nat, obj: ObjectRef, partId: nat, partNum: nat)
    returns (g: map<string, seq<Batch>>)
    requires partNum > 0
    requires grouped == Group(before)
    ensures g == Group(before + VertexLabelled(index, GatheredBatches(obj, partId, partNum)))
  {
    var st, batches := ReadRecordBatchesFromVineyard(obj, partId, partNum);
    if st.OK? {
      g := GroupVertexBatches(grouped, before, index, batches);
    } else {
      g := grouped;
      assert before + VertexLabelled(index, []) == before;
    }
  }

  /** `GatherVTables`: groups every gathered batch by its vertex label and
      builds one table per group; when streams were given but nothing was
      gathered, the result is the single group "0" with a null table. */
  method GatherVTables(vstreams: seq<ObjectRef>, partId: nat, partNum: nat)
    returns (tables: map<string, Option<Table>>)
    requires partNum > 0
    ensures var items := VertexItems(vstreams, partId, partNum);
      if vstreams != [] && items == [] then tables == map["0" := None]
      else tables == GroupTables(Group(items))
  {
    var grouped: map<string, seq<Batch>> := map[];
    ghost var items: seq<(string, Batch)> := [];
    var index := 0;
    assert vstreams[..0] == [];
    while index < |vstreams|
      invariant 0 <= index <= |vstreams|
      invariant items == VertexItems(vstreams[..index], partId, partNum)
      invariant grouped == Group(items)
    {
      VertexItemsSnoc(vstreams, partId, partNum, index);
      grouped := GatherVertexStream(grouped, items, index, vstreams[index], partId, partNum);
      items := items + VertexLabelled(index, GatheredBatches(vstreams[index], partId, partNum));
      index := index + 1;
    }
    assert vstreams[..index] == vstreams;
    GroupEmpty(VertexItems(vstreams, partId, partNum));
    if vstreams != [] && grouped == map[] {
      grouped := map["0" := []];
    }
    tables := GroupTables(grouped);
  }

  lemma VertexItemsSnoc(vstreams: seq<ObjectRef>, partId: nat, partNum: nat, i: nat)
    requires partNum > 0 && i < |vstreams|
    ensures VertexItems(vstreams[..i + 1], partId, partNum)
         == VertexItems(vstreams[..i], partId, partNum) + VertexLabelled(i, GatheredBatches(vstreams[i], partId, partNum))
  {
    assert vstreams[..i + 1][..i] == vstreams[..i];
  }

  /** Every batch gathered from stream `i` lies in the group named by its
      metadata "label", or by `i` when it has none. */
  lemma {:induction false} VertexBatchPlacement(vstreams: seq<ObjectRef>, partId: nat, partNum: nat, i: nat, b: Batch)
    requires partNum > 0 && i < |vstreams|
    requires b in GatheredBatches(vstreams[i], partId, partNum)
    ensures VertexLabel(i, b) in Group(VertexItems(vstreams, partId, partNum))
    ensures b in Group(VertexItems(vstreams, partId, partNum))[VertexLabel(i, b)]
  {
    var items := VertexItems(vstreams, partId, partNum);
    assert (VertexLabel(i, b), b) in items by {
      VertexItemsPrefix(vstreams, partId, partNum, i + 1);
      VertexItemsSnoc(vstreams, partId, partNum, i);
      var bs := GatheredBatches(vstreams[i], partId, partNum);
      var j :| 0 <= j < |bs| && bs[j] == b;
      assert VertexLabelled(i, bs)[j] == (VertexLabel(i, b), b);
    }
    FilterMembership(items, VertexLabel(i, b), b);
    GroupIsFilter(items, VertexLabel(i, b));
  }

  /** The items of a prefix of the streams are a prefix of all the items. */
  lemma {:induction false} VertexItemsPrefix(vstreams: seq<ObjectRef>, partId: nat, partNum: nat, k: nat)
    requires partNum > 0 && k <= |vstreams|
    ensures forall x :: x in VertexItems(vstreams[..k], partId, partNum) ==> x in VertexItems(vstreams, partId, partNum)
    decreases |vstreams| - k
  {
    if k < |vstreams| {
      VertexItemsPrefix(vstreams, partId, partNum, k + 1);
      VertexItemsSnoc(vstreams, partId, partNum, k);
    } else {
      assert vstreams[..k] == vstreams;
    }
  }

  /** Streams were given but nothing was gathered: exactly one group, "0",
      and its table is null. */
  lemma VertexFallback(vstreams: seq<ObjectRef>, partId: nat, partNum: nat, tables: map<string, Option<Table>>)
    requires partNum > 0 && vstreams != []
    requires forall i :: 0 <= i < |vstreams| ==> GatheredBatches(vstreams[i], partId, partNum) == []
    requires tables == (var items := VertexItems(vstreams, partId, partNum);
      if vstreams != [] && items == [] then map["0" := None] else GroupTables(Group(items)))
    ensures tables.Keys == {"0"} && tables["0"].None?
  {
    NoVertexItems(vstreams, partId, partNum);
  }

  lemma {:induction false} NoVertexItems(vstreams: seq<ObjectRef>, partId: nat, partNum: nat)
    requires partNum > 0
    requires forall i :: 0 <= i < |vstreams| ==> GatheredBatches(vstreams[i], partId, partNum) == []
    ensures VertexItems(vstreams, partId, partNum) == []
  {
    if vstreams != [] {
      var n := |vstreams| - 1;
      NoVertexItems(vstreams[..n], partId, partNum);
    }
  }

  // ------------------------------------------------------------------- edges

  /** The group of an edge batch: its label and its (source, destination)
      vertex label pair. */
  datatype EdgeKey = EdgeKey(edgeLabel: string, src: string, dst: string)

  /** `meta_map[key]`: a missing key reads as the empty string. */
  function MetaGet(m: map<string, string>, key: string): string
  {
    if key in m then m[key] else ""
  }

  /** The key of the next batch of a stream, given the key of the previous
      one: the three variables are declared once per stream, so a batch
      without metadata keeps the previous key and a batch without "label"
      keeps the previous label, while the endpoint labels are re-read (empty
      when missing) from any batch with metadata. */
  function EdgeStep(prev: EdgeKey, b: Batch): (k: EdgeKey)
    ensures b.metadata.None? ==> k == prev
    ensures b.metadata.Some? ==>
      k.src == MetaGet(b.metadata.value, "src_label") && k.dst == MetaGet(b.metadata.value, "dst_label")
    ensures k.edgeLabel == (if b.metadata.Some? && "label" in b.metadata.value then b.metadata.value["label"] else prev.edgeLabel)
  {
    if b.metadata.None? then prev
    else
      var m := b.metadata.value;
      EdgeKey(if "label" in m then m["label"] else prev.edgeLabel, MetaGet(m, "src_label"), MetaGet(m, "dst_label"))
  }

  function LastKey(init: EdgeKey, ks: seq<EdgeKey>): EdgeKey
  {
    if ks == [] then init else ks[|ks| - 1]
  }

  /** The keys of a stream's batches, starting from `init`. */
  function EdgeKeys(init: EdgeKey, bs: seq<Batch>): (ks: seq<EdgeKey>)
    ensures |ks| == |bs|
  {
    if bs == [] then []
    else
      var ks := EdgeKeys(init, bs[..|bs| - 1]);
      ks + [EdgeStep(LastKey(init, ks), bs[|bs| - 1])]
  }

  function Zip<A, B>(xs: seq<A>, ys: seq<B>): (zs: seq<(A, B)>)
    requires |xs| == |ys|
    ensures |zs| == |xs|
    ensures forall i :: 0 <= i < |xs| ==> zs[i] == (xs[i], ys[i])
  {
    if xs == [] then [] else Zip(xs[..|xs| - 1], ys[..|ys| - 1]) + [(xs[|xs| - 1], ys[|ys| - 1])]
  }

  /** The key every batch of a stream at position `index` starts from. */
  function InitialEdgeKey(index: nat): EdgeKey
  {
    EdgeKey(NatToString(index), "", "")
  }

  /** Every gathered edge batch of the streams given for one index. */
  function StreamEdgeItems(index: nat, objs: seq<ObjectRef>, partId: nat, partNum: nat): (items: seq<(EdgeKey, Batch)>)
    requires partNum > 0
    ensures forall p :: p in items ==>
      exists j :: 0 <= j < |objs| && p.1 in GatheredBatches(objs[j], partId, partNum)
  {
    if objs == [] then []
    else
      var n := |objs| - 1;
      var bs := GatheredBatches(objs[n], partId, partNum);
      StreamEdgeItems(index, objs[..n], partId, partNum) + Zip(EdgeKeys(InitialEdgeKey(index), bs), bs)
  }

  /** Every gathered edge batch with its key, index by index. */
  function EdgeItems(estreams: seq<seq<ObjectRef>>, partId: nat, partNum: nat): seq<(EdgeKey, Batch)>
    requires partNum > 0
  {
    if estreams == [] then []
    else
      var n := |estreams| - 1;
      EdgeItems(estreams[..n], partId, partNum) + StreamEdgeItems(n, estreams[n], partId, partNum)
  }

  function Labels(groups: map<EdgeKey, seq<Batch>>): set<string>
  {
    set k | k in groups :: k.edgeLabel
  }

  function PairsOf(groups: map<EdgeKey, seq<Batch>>, l: string): set<(string, string)>
  {
    set k | k in groups && k.edgeLabel == l :: (k.src, k.dst)
  }

  function PairTables(groups: map<EdgeKey, seq<Batch>>, l: string): map<(string, string), Option<Table>>
  {
    map p | p in PairsOf(groups, l) :: GroupTables(groups)[EdgeKey(l, p.0, p.1)]
  }

  /** The two-level result: per label, per (source, destination) pair. */
  function Nest(groups: map<EdgeKey, seq<Batch>>): (nested: map<string, map<(string, string), Option<Table>>>)
    ensures forall k :: k in groups ==>
      k.edgeLabel in nested && (k.src, k.dst) in nested[k.edgeLabel] &&
      nested[k.edgeLabel][(k.src, k.dst)] == GroupTables(groups)[k]
    ensures forall l :: l in nested ==> forall p :: p in nested[l] ==> EdgeKey(l, p.0, p.1) in groups
  {
    map l | l in Labels(groups) :: PairTables(groups, l)
  }

  /** The innermost loop of `GatherETables`: files one stream's batches
      under their keys, carrying the key from batch to batch. */
  method GroupEdgeBatches(grouped: map<EdgeKey, seq<Batch>>, ghost before: seq<(EdgeKey, Batch)>,
                          index: nat, batches: seq<Batch>)
    returns (g: map<EdgeKey, seq<Batch>>)
    requires grouped == Group(before)
    ensures g == Group(before + Zip(EdgeKeys(InitialEdgeKey(index), batches), batches))
  {
    ghost var init := InitialEdgeKey(index);
    ghost var keys: seq<EdgeKey> := [];
    ghost var done := before;
    g := grouped;
    var key := InitialEdgeKey(index);
    var j := 0;
    assert batches[..0] == [];
    while j < |batches|
      invariant 0 <= j <= |batches|
      invariant keys == EdgeKeys(init, batches[..j])
      invariant key == LastKey(init, keys)
      invariant done == before + Zip(keys, batches[..j])
      invariant g == Group(done)
    {
      ghost var prev := key;
      g, key := FileEdgeBatch(g, done, key, batches[j]);
      EdgeKeysZipSnoc(before, init, batches, j, keys, prev, done, key);
      keys := keys + [key];
      done := done + [(key, batches[j])];
      j := j + 1;
    }
    assert batches[..j] == batches;
  }

  /** The body of the innermost loop of `GatherETables`: updates the key
      from the batch's metadata and files the batch under it. */
  method FileEdgeBatch(grouped: map<EdgeKey, seq<Batch>>, ghost done: seq<(EdgeKey, Batch)>, prev: EdgeKey, b: Batch)
    returns (g: map<EdgeKey, seq<Batch>>, key: EdgeKey)
    requires grouped == Group(done)
    ensures key == EdgeStep(prev, b)
    ensures g == Group(done + [(key, b)])
  {
    key := prev;
    if b.metadata.Some? {
      var m := b.metadata.value;
      var name := key.edgeLabel;
      if "label" in m {
        name := m["label"];
      }
      key := EdgeKey(name, MetaGet(m, "src_label"), MetaGet(m, "dst_label"));
    }
    GroupSnoc(done, key, b);
    g := File(grouped, key, b);
  }

  lemma EdgeKeysZipSnoc(before: seq<(EdgeKey, Batch)>, init: EdgeKey, bs: seq<Batch>, j: nat,
                        keys: seq<EdgeKey>, prev: EdgeKey, done: seq<(EdgeKey, Batch)>, key: EdgeKey)
    requires j < |bs|
    requires keys == EdgeKeys(init, bs[..j]) && prev == LastKey(init, keys)
    requires done == before + Zip(keys, bs[..j]) && key == EdgeStep(prev, bs[j])
    ensures keys + [key] == EdgeKeys(init, bs[..j + 1])
    ensures key == LastKey(init, keys + [key])
    ensures done + [(key, bs[j])] == before + Zip(keys + [key], bs[..j + 1])
  {
    assert bs[..j + 1][..j] == bs[..j];
  }

  lemma StreamEdgeItemsSnoc(index: nat, objs: seq<ObjectRef>, partId: nat, partNum: nat, s: nat)
    requires partNum > 0 && s < |objs|
    ensures var bs := GatheredBatches(objs[s], partId, partNum);
      StreamEdgeItems(index, objs[..s + 1], partId, partNum)
        == StreamEdgeItems(index, objs[..s], partId, partNum) + Zip(EdgeKeys(InitialEdgeKey(index), bs), bs)
  {
    assert objs[..s + 1][..s] == objs[..s];
  }

  /** The edge items one stream contributes, keyed from the stream's index. */
  function OneStreamEdgeItems(index: nat, obj: ObjectRef, partId: nat, partNum: nat): seq<(EdgeKey, Batch)>
    requires partNum > 0
  {
    var bs := GatheredBatches(obj, partId, partNum);
    Zip(EdgeKeys(InitialEdgeKey(index), bs), bs)
  }

  lemma StreamEdgeItemsStep(before: seq<(EdgeKey, Batch)>, index: nat, objs: seq<ObjectRef>,
                            partId: nat, partNum: nat, s: nat)
    requires partNum > 0 && s < |objs|
    ensures before + StreamEdgeItems(index, objs[..s + 1], partId, partNum)
         == (before + StreamEdgeItems(index, objs[..s], partId, partNum)) + OneStreamEdgeItems(index, objs[s], partId, partNum)
  {
    StreamEdgeItemsSnoc(index, objs, partId, partNum, s);
  }

  /** One step of the loop of `GatherETables` over the streams of one index:
      read the stream, and on success file its batches. */
  method GroupOneStream(grouped: map<EdgeKey, seq<Batch>>, ghost before: seq<(EdgeKey, Batch)>,
                        index: nat, obj: ObjectRef, partId: nat, partNum: nat)
    returns (g: map<EdgeKey, seq<Batch>>)
    requires partNum > 0
    requires grouped == Group(before)
    ensures g == Group(before + OneStreamEdgeItems(index, obj, partId, partNum))
  {
    var st, batches := ReadRecordBatchesFromVineyard(obj, partId, partNum);
    if st.OK? {
      g := GroupEdgeBatches(grouped, before, index, batches);
    } else {
      g := grouped;
      assert before + OneStreamEdgeItems(index, obj, partId, partNum) == before;
    }
  }

  /** The loop of `GatherETables` over the streams given for one index. */
  method GroupIndexStreams(grouped: map<EdgeKey, seq<Batch>>, ghost before: seq<(EdgeKey, Batch)>,
                           index: nat, objs: seq<ObjectRef>, partId: nat, partNum: nat)
    returns (g: map<EdgeKey, seq<Batch>>)
    requires partNum > 0
    requires grouped == Group(before)
    ensures g == Group(before + StreamEdgeItems(index, objs, partId, partNum))
  {
    g := grouped;
    ghost var done := before;
    var s := 0;
    assert objs[..0] == [];
    while s < |objs|
      invariant 0 <= s <= |objs|
      invariant done == before + StreamEdgeItems(index, objs[..s], partId, partNum)
      invariant g == Group(done)
    {
      StreamEdgeItemsStep(before, index, objs, partId, partNum, s);
      g := GroupOneStream(g, done, index, objs[s], partId, partNum);
      done := done + OneStreamEdgeItems(index, objs[s], partId, partNum);
      s := s + 1;
    }
    assert objs[..s] == objs;
  }

  /** `GatherETables`: groups every gathered batch by label and then by
      endpoint label pair, one table per pair; when streams were given but
      nothing was gathered, the result is the single group "0" holding the
      pair ("", "") with a null table. */
  method GatherETables(estreams: seq<seq<ObjectRef>>, partId: nat, partNum: nat)
    returns (tables: map<string, map<(string, string), Option<Table>>>)
    requires partNum > 0
    ensures var items := EdgeItems(estreams, partId, partNum);
      if estreams != [] && items == [] then tables == map["0" := map[("", "") := None]]
      else tables == Nest(Group(items))
  {
    var grouped: map<EdgeKey, seq<Batch>> := map[];
    ghost var items: seq<(EdgeKey, Batch)> := [];
    var index := 0;
    assert estreams[..0] == [];
    while index < |estreams|
      invariant 0 <= index <= |estreams|
      invariant items == EdgeItems(estreams[..index], partId, partNum)
      invariant grouped == Group(items)
    {
      assert estreams[..index + 1][..index] == estreams[..index];
      grouped := GroupIndexStreams(grouped, items, index, estreams[index], partId, partNum);
      items := items + StreamEdgeItems(index, estreams[index], partId, partNum);
      index := index + 1;
    }
    assert estreams[..index] == estreams;
    GroupEmpty(EdgeItems(estreams, partId, partNum));
    if estreams != [] && grouped == map[] {
      tables := map["0" := map[("", "") := None]];
    } else {
      tables := Nest(grouped);
    }
  }

  /** When every batch of a stream carries metadata with a "label" (the
      loader's documented requirement), each batch is keyed by its own
      metadata alone: nothing carries over from the previous batch. */
  lemma {:induction false} EdgeKeysFromOwnMetadata(init: EdgeKey, bs: seq<Batch>)
    requires forall j :: 0 <= j < |bs| ==> bs[j].metadata.Some? && "label" in bs[j].metadata.value
    ensures forall j :: 0 <= j < |bs| ==>
      EdgeKeys(init, bs)[j] == (var m := bs[j].metadata.value;
                                EdgeKey(m["label"], MetaGet(m, "src_label"), MetaGet(m, "dst_label")))
  {
    if bs != [] {
      EdgeKeysFromOwnMetadata(init, bs[..|bs| - 1]);
    }
  }

  /** When no batch of a stream carries metadata (the other documented
      case), every batch is keyed by the stream's index with empty endpoint
      labels. */
  lemma {:induction false} EdgeKeysWithoutMetadata(index: nat, bs: seq<Batch>)
    requires forall j :: 0 <= j < |bs| ==> bs[j].metadata.None?
    ensures forall j :: 0 <= j < |bs| ==> EdgeKeys(InitialEdgeKey(index), bs)[j] == InitialEdgeKey(index)
  {
    if bs != [] {
      EdgeKeysWithoutMetadata(index, bs[..|bs| - 1]);
    }
  }

  /** Outside those cases the key carries over: a batch whose metadata has
      no "label" is filed under the label of the batch before it. */
  lemma LabelCarriesOver(index: nat, b1: Batch, b2: Batch)
    requires b1.metadata == Some(map["label" := "knows", "src_label" := "person", "dst_label" := "person"])
    requires b2.metadata == Some(map[])
    ensures EdgeKeys(InitialEdgeKey(index), [b1, b2]) == [EdgeKey("knows", "person", "person"), EdgeKey("knows", "", "")]
  {
    assert [b1, b2][..1] == [b1];
    assert [b1][..0] == [];
  }

  // ------------------------------------------------------- preprocessInputs

  /** An edge table with its endpoint and edge labels, as `InputTable`. */
  datatype InputTable = InputTable(srcLabel: string, dstLabel: string, edgeLabel: string, table: Table)

  /** The outcome of `preprocessInputs`: the vertex tables by label, the
      labelled edge tables in input order, and the vertex labels that have to
      be deduced from the edges. */
  datatype Preprocessed = Preprocessed(vertexTables: map<string, Table>, edgeTables: seq<InputTable>, deduced: set<string>)

  /** How `preprocessInputs` fails: a table (or an edge table's metadata)
      that is null is dereferenced, or a vertex table is rejected with an
      error status. */
  datatype PreprocessError = NullDereference | Rejected(status: Status)

  const VertexMetadataEmpty: string := "Metadata of input vertex files shouldn't be empty"
  const VertexLabelMissing: string := "Metadata of input vertex files should contain label name"

  /** The check a vertex table has to pass: a null table is dereferenced, a
      table without metadata or without a label is rejected. */
  function VertexCheck(t: Option<Table>): (e: Option<PreprocessError>)
    ensures e.None? <==> t.Some? && t.value.metadata.Some? && "label" in t.value.metadata.value
    ensures e == Some(NullDereference) <==> t.None?
  {
    if t.None? then Some(NullDereference)
    else if t.value.metadata.None? then Some(Rejected(Invalid(VertexMetadataEmpty)))
    else if "label" !in t.value.metadata.value then Some(Rejected(Invalid(VertexLabelMissing)))
    else None
  }

  /** The failure of the first vertex table that fails its check. */
  function FirstVertexFailure(ts: seq<Option<Table>>): (e: Option<PreprocessError>)
    ensures e.None? <==> forall i :: 0 <= i < |ts| ==> VertexCheck(ts[i]).None?
  {
    if ts == [] then None
    else if VertexCheck(ts[0]).Some? then VertexCheck(ts[0])
    else
      var e := FirstVertexFailure(ts[1..]);
      assert forall i :: 1 <= i < |ts| ==> ts[i] == ts[1..][i - 1];
      e
  }

  /** The first failure is the failure at `k` when every table before it
      passes, and there is none when every table passes. */
  lemma {:induction false} FirstVertexFailureAt(ts: seq<Option<Table>>, k: nat)
    requires k <= |ts|
    requires forall j :: 0 <= j < k ==> VertexCheck(ts[j]).None?
    requires k < |ts| ==> VertexCheck(ts[k]).Some?
    ensures FirstVertexFailure(ts) == if k < |ts| then VertexCheck(ts[k]) else None
  {
    if k > 0 {
      assert VertexCheck(ts[0]).None?;
      FirstVertexFailureAt(ts[1..], k - 1);
    }
  }

  /** The tables that are not null, in order. */
  function Present(ts: seq<Option<Table>>): (r: seq<Table>)
    ensures |r| <= |ts|
  {
    if ts == [] then []
    else
      var init := Present(ts[..|ts| - 1]);
      if ts[|ts| - 1].Some? then init + [ts[|ts| - 1].value] else init
  }

  /** With no null table, nothing is filtered out. */
  lemma {:induction false} PresentKeepsAll(ts: seq<Option<Table>>)
    requires forall i :: 0 <= i < |ts| ==> ts[i].Some?
    ensures |Present(ts)| == |ts|
    ensures forall i :: 0 <= i < |ts| ==> Present(ts)[i] == ts[i].value
  {
    if ts != [] {
      PresentKeepsAll(ts[..|ts| - 1]);
    }
  }

  function LabelOf(t: Table): string
  {
    if t.metadata.Some? && "label" in t.metadata.value then t.metadata.value["label"] else ""
  }

  /** An edge table `preprocessInputs` can read: neither it nor its
      metadata is null. */
  predicate EdgeReadable(t: Option<Table>)
  {
    t.Some? && t.value.metadata.Some?
  }

  /** What `preprocessInputs` reads from edge metadata without checking it. */
  predicate EdgeTableLabelled(t: Option<Table>)
  {
    EdgeReadable(t) && "label" in t.value.metadata.value &&
    "src_label" in t.value.metadata.value && "dst_label" in t.value.metadata.value
  }

  predicate AllEdgesReadable(eTables: seq<seq<Option<Table>>>)
  {
    forall i, j :: 0 <= i < |eTables| && 0 <= j < |eTables[i]| ==> EdgeReadable(eTables[i][j])
  }

  function ToInput(t: Option<Table>): InputTable
    requires EdgeTableLabelled(t)
  {
    var m := t.value.metadata.value;
    InputTable(m["src_label"], m["dst_label"], m["label"], t.value)
  }

  /** The labelled edge tables, label group by label group, in input order. */
  function EdgeInputs(eTables: seq<seq<Option<Table>>>): (es: seq<InputTable>)
    requires forall i, j :: 0 <= i < |eTables| && 0 <= j < |eTables[i]| ==> EdgeTableLabelled(eTables[i][j])
  {
    if eTables == [] then []
    else
      var n := |eTables| - 1;
      EdgeInputs(eTables[..n]) + GroupInputs(eTables[n])
  }

  /** The vertex tables by label, a later table replacing an earlier one
      with the same label. */
  function VertexIndex(ts: seq<Table>): map<string, Table>
  {
    if ts == [] then map[] else VertexIndex(ts[..|ts| - 1])[LabelOf(ts[|ts| - 1]) := ts[|ts| - 1]]
  }

  /** Every label is indexed, and it maps to the last table carrying it. */
  lemma {:induction false} VertexIndexLastWins(ts: seq<Table>, l: string)
    ensures l in VertexIndex(ts) <==> exists i :: 0 <= i < |ts| && LabelOf(ts[i]) == l
    ensures l in VertexIndex(ts) ==>
      exists i :: 0 <= i < |ts| && LabelOf(ts[i]) == l && VertexIndex(ts)[l] == ts[i] &&
        forall j :: i < j < |ts| ==> LabelOf(ts[j]) != l
  {
    if ts != [] {
      var n := |ts| - 1;
      var init := ts[..n];
      assert VertexIndex(ts) == VertexIndex(init)[LabelOf(ts[n]) := ts[n]];
      if LabelOf(ts[n]) == l {
        assert LabelOf(ts[n]) == l && VertexIndex(ts)[l] == ts[n];
      } else {
        VertexIndexLastWins(init, l);
        assert forall i :: 0 <= i < n ==> ts[i] == init[i];
        if l in VertexIndex(init) {
          var i :| 0 <= i < |init| && LabelOf(init[i]) == l && VertexIndex(init)[l] == init[i] &&
            forall j :: i < j < |init| ==> LabelOf(init[j]) != l;
          assert LabelOf(ts[i]) == l && VertexIndex(ts)[l] == ts[i];
        }
      }
    }
  }

  /** The labels at either end of some edge table. */
  function Endpoints(edges: seq<InputTable>): set<string>
  {
    if edges == [] then {}
    else
      var last := edges[|edges| - 1];
      Endpoints(edges[..|edges| - 1]) + {last.srcLabel, last.dstLabel}
  }

  /** A label is an endpoint exactly when some edge table starts or ends
      at it. */
  lemma {:induction false} EndpointsMembership(edges: seq<InputTable>, l: string)
    ensures l in Endpoints(edges) <==> exists e :: e in edges && (e.srcLabel == l || e.dstLabel == l)
  {
    if edges != [] {
      var init := edges[..|edges| - 1];
      EndpointsMembership(init, l);
      assert edges == init + [edges[|edges| - 1]];
    }
  }

  lemma EndpointsSnoc(edges: seq<InputTable>, e: InputTable)
    ensures Endpoints(edges + [e]) == Endpoints(edges) + {e.srcLabel, e.dstLabel}
  {
    assert (edges + [e])[..|edges|] == edges;
  }

  /** One label group's tables, with their labels, in order. */
  function GroupInputs(group: seq<Option<Table>>): (es: seq<InputTable>)
    requires forall j :: 0 <= j < |group| ==> EdgeTableLabelled(group[j])
    ensures |es| == |group|
  {
    if group == [] then [] else GroupInputs(group[..|group| - 1]) + [ToInput(group[|group| - 1])]
  }

  /** The vertex loop of `preprocessInputs`: the first null table is
      dereferenced, the first table without metadata or without a label is
      rejected with its message; otherwise the tables are indexed by label. */
  method IndexVertexTables(vTables: seq<Option<Table>>) returns (r: Result<map<string, Table>, PreprocessError>)
    ensures r.Err? <==> FirstVertexFailure(vTables).Some?
    ensures r.Err? ==> r.error == FirstVertexFailure(vTables).value
    ensures r.Ok? ==> r.value == VertexIndex(Present(vTables))
  {
    var vmap: map<string, Table> := map[];
    var i := 0;
    while i < |vTables|
      invariant 0 <= i <= |vTables|
      invariant forall j :: 0 <= j < i ==> VertexCheck(vTables[j]).None?
      invariant vmap == VertexIndex(Present(vTables[..i]))
    {
      var failure;
      failure, vmap := IndexVertexTable(vTables, i, vmap);
      if failure.Some? {
        return Err(failure.value);
      }
      i := i + 1;
    }
    FirstVertexFailureAt(vTables, i);
    assert vTables[..i] == vTables;
    r := Ok(vmap);
  }

  /** The body of the vertex loop of `preprocessInputs`: a null table is
      dereferenced, a table without metadata or without a label is rejected,
      and any other table is filed under its label. */
  method IndexVertexTable(vTables: seq<Option<Table>>, i: nat, vmap: map<string, Table>)
    returns (failure: Option<PreprocessError>, vmap': map<string, Table>)
    requires i < |vTables|
    requires forall j :: 0 <= j < i ==> VertexCheck(vTables[j]).None?
    requires vmap == VertexIndex(Present(vTables[..i]))
    ensures failure == VertexCheck(vTables[i])
    ensures failure.Some? ==> FirstVertexFailure(vTables) == failure
    ensures failure.None? ==> vmap' == VertexIndex(Present(vTables[..i + 1]))
  {
    vmap' := vmap;
    if VertexCheck(vTables[i]).Some? {
      FirstVertexFailureAt(vTables, i);
    }
    if vTables[i].None? {
      return Some(NullDereference), vmap';
    }
    var t := vTables[i].value;
    if t.metadata.None? {
      return Some(Rejected(Invalid(VertexMetadataEmpty))), vmap';
    }
    if "label" !in t.metadata.value {
      return Some(Rejected(Invalid(VertexLabelMissing))), vmap';
    }
    IndexSnoc(vTables, i);
    vmap' := vmap[t.metadata.value["label"] := t];
    failure := None;
  }

  /** Indexing one more table that is not null files it under its label. */
  lemma IndexSnoc(ts: seq<Option<Table>>, i: nat)
    requires i < |ts| && ts[i].Some?
    ensures VertexIndex(Present(ts[..i + 1])) == VertexIndex(Present(ts[..i]))[LabelOf(ts[i].value) := ts[i].value]
  {
    assert ts[..i + 1][..i] == ts[..i];
    var p := Present(ts[..i]);
    assert Present(ts[..i + 1]) == p + [ts[i].value];
    assert (p + [ts[i].value])[..|p|] == p;
  }

  /** The inner edge loop of `preprocessInputs`, over one label group; `ok`
      is false when it dereferences a null table or null metadata. */
  method ListGroupTables(group: seq<Option<Table>>, vmap: map<string, Table>, previous: set<string>,
                         edges0: seq<InputTable>, deduced0: set<string>)
    returns (ok: bool, edges: seq<InputTable>, deduced: set<string>)
    requires forall j :: 0 <= j < |group| ==> (EdgeReadable(group[j]) ==> EdgeTableLabelled(group[j]))
    requires deduced0 == Endpoints(edges0) - vmap.Keys - previous
    ensures ok <==> forall j :: 0 <= j < |group| ==> EdgeReadable(group[j])
    ensures ok ==> edges == edges0 + GroupInputs(group)
    ensures ok ==> deduced == Endpoints(edges) - vmap.Keys - previous
  {
    edges, deduced := edges0, deduced0;
    var j := 0;
    assert edges0 + GroupInputs(group[..0]) == edges0;
    while j < |group|
      invariant 0 <= j <= |group|
      invariant forall i :: 0 <= i < j ==> EdgeReadable(group[i])
      invariant edges == edges0 + GroupInputs(group[..j])
      invariant deduced == Endpoints(edges) - vmap.Keys - previous
    {
      var readable;
      readable, edges, deduced := ListEdgeTable(group[j], vmap, previous, edges, deduced);
      if !readable {
        return false, edges, deduced;
      }
      GroupInputsSnoc(edges0, group, j);
      j := j + 1;
    }
    assert group[..j] == group;
    ok := true;
  }

  lemma GroupInputsSnoc(edges0: seq<InputTable>, group: seq<Option<Table>>, j: nat)
    requires j < |group|
    requires forall i :: 0 <= i <= j ==> EdgeTableLabelled(group[i])
    ensures edges0 + GroupInputs(group[..j + 1]) == (edges0 + GroupInputs(group[..j])) + [ToInput(group[j])]
  {
    assert group[..j + 1][..j] == group[..j];
  }

  /** The body of the inner edge loop of `preprocessInputs`: reading the
      metadata of a null table or of a table without metadata dereferences
      null (`ok` is false); otherwise lists the edge table with its labels,
      and notes its endpoint labels that are neither indexed nor previously
      known. */
  method ListEdgeTable(t: Option<Table>, vmap: map<string, Table>, previous: set<string>,
                       edges0: seq<InputTable>, deduced0: set<string>)
    returns (ok: bool, edges: seq<InputTable>, deduced: set<string>)
    requires EdgeReadable(t) ==> EdgeTableLabelled(t)
    requires deduced0 == Endpoints(edges0) - vmap.Keys - previous
    ensures ok <==> EdgeReadable(t)
    ensures ok ==> edges == edges0 + [ToInput(t)]
    ensures ok ==> deduced == Endpoints(edges) - vmap.Keys - previous
  {
    if t.None? || t.value.metadata.None? {
      return false, edges0, deduced0;
    }
    var m := t.value.metadata.value;
    var e := InputTable(m["src_label"], m["dst_label"], m["label"], t.value);
    EndpointsSnoc(edges0, e);
    edges := edges0 + [e];
    deduced := deduced0;
    if e.srcLabel !in vmap && e.srcLabel !in previous {
      deduced := deduced + {e.srcLabel};
    }
    if e.dstLabel !in vmap && e.dstLabel !in previous {
      deduced := deduced + {e.dstLabel};
    }
    ok := true;
  }

  /** The edge loop of `preprocessInputs`: when no edge table or its
      metadata is null, every edge table with its labels, and the endpoint
      labels that are neither indexed vertex labels nor previously known
      ones. */
  method ListEdgeTables(eTables: seq<seq<Option<Table>>>, vmap: map<string, Table>, previous: set<string>)
    returns (ok: bool, edges: seq<InputTable>, deduced: set<string>)
    requires forall i, j :: 0 <= i < |eTables| && 0 <= j < |eTables[i]| ==> (EdgeReadable(eTables[i][j]) ==> EdgeTableLabelled(eTables[i][j]))
    ensures ok <==> AllEdgesReadable(eTables)
    ensures ok ==> edges == EdgeInputs(eTables)
    ensures ok ==> deduced == Endpoints(edges) - vmap.Keys - previous
  {
    edges := [];
    deduced := {};
    var g := 0;
    while g < |eTables|
      invariant 0 <= g <= |eTables|
      invariant AllEdgesReadable(eTables[..g])
      invariant edges == EdgeInputs(eTables[..g])
      invariant deduced == Endpoints(edges) - vmap.Keys - previous
    {
      var readable;
      readable, edges, deduced := ListGroupTables(eTables[g], vmap, previous, edges, deduced);
      if !readable {
        return false, edges, deduced;
      }
      assert eTables[..g + 1][..g] == eTables[..g];
      g := g + 1;
    }
    assert eTables[..g] == eTables;
    ok := true;
  }

  /** `preprocessInputs`: fails at the first vertex table that is null
      (dereferenced) or lacks metadata or a label (rejected); otherwise fails
      when some edge table or its metadata is null (dereferenced); otherwise
      each label maps to the last vertex table carrying it, every edge table
      is listed with its labels in order, and a label is to be deduced exactly
      when it is an endpoint of some edge table but neither a vertex table's
      label nor a previously known vertex label. */
  method PreprocessInputs(vTables: seq<Option<Table>>, eTables: seq<seq<Option<Table>>>, previous: set<string>)
    returns (r: Result<Preprocessed, PreprocessError>)
    requires forall i, j :: 0 <= i < |eTables| && 0 <= j < |eTables[i]| ==> (EdgeReadable(eTables[i][j]) ==> EdgeTableLabelled(eTables[i][j]))
    ensures r.Err? <==> FirstVertexFailure(vTables).Some? || !AllEdgesReadable(eTables)
    ensures FirstVertexFailure(vTables).Some? ==> r == Err(FirstVertexFailure(vTables).value)
    ensures FirstVertexFailure(vTables).None? && !AllEdgesReadable(eTables) ==> r == Err(NullDereference)
    ensures r.Ok? ==> r.value.vertexTables == VertexIndex(Present(vTables))
    ensures r.Ok? ==> r.value.edgeTables == EdgeInputs(eTables)
    ensures r.Ok? ==> forall l :: l in r.value.deduced <==>
      (l !in r.value.vertexTables && l !in previous &&
       exists e :: e in r.value.edgeTables && (e.srcLabel == l || e.dstLabel == l))
  {
    var indexed := IndexVertexTables(vTables);
    if indexed.Err? {
      return Err(indexed.error);
    }
    var ok, edges, deduced := ListEdgeTables(eTables, indexed.value, previous);
    if !ok {
      return Err(NullDereference);
    }
    forall l | true
      ensures l in deduced <==>
        (l !in indexed.value && l !in previous &&
         exists e :: e in edges && (e.srcLabel == l || e.dstLabel == l))
    {
      EndpointsMembership(edges, l);
    }
    r := Ok(Preprocessed(indexed.value, edges, deduced));
  }

  /** The fallback table of `GatherVTables` (group "0", null) makes
      `preprocessInputs` fail with a null dereference. */
  lemma GatherFallbackIsDereferenced()
    ensures FirstVertexFailure([None]) == Some(NullDereference)
  {
    FirstVertexFailureAt([None], 0);
  }

  // ---------------------------------------------------- LoadFragment sources

  /** The five input sources `LoadFragment` tells apart. */
  datatype InputSource =
    | VineyardStreams
    | VertexAndEdgeFiles
    | EdgeFilesOnly
    | PartialTables
    | PartialEdgeTablesOnly

  const ProcessingInputSourceFailed: string := "Error when processing input source"

  /** `LoadFragment`'s choice of source, with its conditions checked in the
      order written (the fourth checks the edge tables twice). */
  function SelectSource(vStreams: nat, eStreams: nat, vFiles: nat, eFiles: nat, partialV: nat, partialE: nat)
    : (r: Result<InputSource, Status>)
    ensures r.Err? ==> r.error == Invalid(ProcessingInputSourceFailed)
    ensures r == Ok(VineyardStreams) <==> vStreams > 0 && eStreams > 0
  {
    if vStreams > 0 && eStreams > 0 then Ok(VineyardStreams)
    else if vFiles > 0 && eFiles > 0 then Ok(VertexAndEdgeFiles)
    else if vFiles == 0 && eFiles > 0 then Ok(EdgeFilesOnly)
    else if partialE > 0 && partialE > 0 then Ok(PartialTables)
    else if partialV == 0 && partialE > 0 then Ok(PartialEdgeTablesOnly)
    else Err(Invalid(ProcessingInputSourceFailed))
  }

  /** Loading fails exactly when there are not both vertex and edge streams,
      no edge files and no partial edge tables. */
  lemma SelectSourceFails(vStreams: nat, eStreams: nat, vFiles: nat, eFiles: nat, partialV: nat, partialE: nat)
    ensures SelectSource(vStreams, eStreams, vFiles, eFiles, partialV, partialE).Err?
        <==> !(vStreams > 0 && eStreams > 0) && eFiles == 0 && partialE == 0
  {
  }

  /** Because the fourth condition checks the edge tables twice, the fifth
      source (edge tables without vertex tables) is never chosen. */
  lemma EdgeTablesOnlyUnreachable(vStreams: nat, eStreams: nat, vFiles: nat, eFiles: nat, partialV: nat, partialE: nat)
    ensures SelectSource(vStreams, eStreams, vFiles, eFiles, partialV, partialE) != Ok(PartialEdgeTablesOnly)
  {
  }

  /** The copy loops of the fourth source: vertex tables, then every edge
      label's tables, in order. */
  method CopyPartialTables(partialV: seq<Option<Table>>, partialE: seq<seq<Option<Table>>>)
    returns (vTables: seq<Option<Table>>, eTables: seq<seq<Option<Table>>>)
    ensures vTables == partialV && eTables == partialE
  {
    vTables := [];
    var v := 0;
    while v < |partialV|
      invariant 0 <= v <= |partialV| && vTables == partialV[..v]
    {
      vTables := vTables + [partialV[v]];
      v := v + 1;
    }
    eTables := [];
    var e := 0;
    while e < |partialE|
      invariant 0 <= e <= |partialE| && eTables == partialE[..e]
    {
      var sub: seq<Option<Table>> := [];
      var k := 0;
      while k < |partialE[e]|
        invariant 0 <= k <= |partialE[e]| && sub == partialE[e][..k]
      {
        sub := sub + [partialE[e][k]];
        k := k + 1;
      }
      assert sub == partialE[e];
      eTables := eTables + [sub];
      e := e + 1;
    }
  }

  /** The copy loop of the fifth source: the edge tables only. */
  method CopyPartialEdgeTables(partialE: seq<seq<Option<Table>>>)
    returns (vTables: seq<Option<Table>>, eTables: seq<seq<Option<Table>>>)
    ensures vTables == [] && eTables == partialE
  {
    var unused;
    unused, eTables := CopyPartialTables([], partialE);
    vTables := [];
  }

  /** Choosing the fourth source instead of the unreachable fifth one loses
      nothing: with no vertex tables both copy the same tables. */
  method DuplicatedConditionIsHarmless(partialE: seq<seq<Option<Table>>>)
    returns (same: bool)
    ensures same
  {
    var v4, e4 := CopyPartialTables([], partialE);
    var v5, e5 := CopyPartialEdgeTables(partialE);
    same := v4 == v5 && e4 == e5;
  }
}
