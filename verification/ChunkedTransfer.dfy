/** The paged transfers in terms of what a caller passes: chunks of the token sequence and
    the slot mapping of its tokens. */
module ChunkedTransfer {
  import opened DeviceStreams
  import opened LoadJob
  import opened BufferLayout
  import LayerStore
  import LayerLoad
  import MoveCache
  import PagedEngine

  /** Chunks in order, one after the other. */
  predicate Ordered(starts: seq<nat>, ends: seq<nat>) {
    && |starts| == |ends| > 0
    && (forall j :: 0 <= j < |starts| ==> starts[j] <= ends[j])
    && (forall j :: 0 < j < |starts| ==> ends[j - 1] <= starts[j])
  }

  /** `start - offset` ranges next to the concatenated slots, as both paged generators use them. */
  function LoadJobOf(starts: seq<nat>, ends: seq<nat>, slots: seq<nat>, kv: seq<nat>, staging: nat): LayerLoad.PagedJob
    requires Chunked(starts, ends, slots) && |starts| > 0
  {
    LayerLoad.PagedJob(ConcatSlots(starts, ends, slots, |starts|), OffsetRanges(starts, ends), kv, staging)
  }

  function StoreJobOf(starts: seq<nat>, ends: seq<nat>, slots: seq<nat>, kv: seq<nat>, staging: nat,
                      objs: seq<seq<nat>>, sync: bool): LayerStore.StoreJob
    requires Chunked(starts, ends, slots) && |starts| > 0
  {
    LayerStore.StoreJob(ConcatSlots(starts, ends, slots, |starts|), OffsetRanges(starts, ends), kv, staging, objs,
        false, sync)
  }

  /** The ranges tile the buffer if and only if the chunks are contiguous. */
  lemma TilesIffContiguous(starts: seq<nat>, ends: seq<nat>, slots: seq<nat>, kv: seq<nat>, staging: nat)
    requires Chunked(starts, ends, slots) && |starts| > 0
    ensures LoadJobOf(starts, ends, slots, kv, staging).Tiles() <==> Contiguous(starts, ends)
  {
    hide Offset, ConcatSlots, OffsetRanges, LayerLoad.PagedJob.Tiles;
    var job := LoadJobOf(starts, ends, slots, kv, staging);
    if Contiguous(starts, ends) {
      ContiguousTiles(starts, ends, slots, job);
    } else if job.Tiles() {
      var j :| 0 < j < |starts| && starts[j] != ends[j - 1];
      TileBehindTile(starts, ends, job, j);
    }
  }

  lemma TileStarts(job: LayerLoad.PagedJob, j: nat)
    requires j < |job.ranges| && job.Tiles()
    ensures job.ranges[j].0 == job.Upto(j)
  {
    hide LayerLoad.PagedJob.Upto;
  }

  lemma UptoIs(job: LayerLoad.PagedJob, j: nat)
    requires 0 < j <= |job.ranges|
    ensures job.Upto(j) == job.ranges[j - 1].1
  {
  }

  lemma TileBehindTile(starts: seq<nat>, ends: seq<nat>, job: LayerLoad.PagedJob, j: nat)
    requires 0 < j < |starts| == |ends| && job.ranges == OffsetRanges(starts, ends) && job.Tiles()
    ensures starts[j] == ends[j - 1]
  {
    hide LayerLoad.PagedJob.Upto, LayerLoad.PagedJob.Tiles;
    TileStarts(job, j);
    UptoIs(job, j);
  }

  lemma ContiguousTiles(starts: seq<nat>, ends: seq<nat>, slots: seq<nat>, job: LayerLoad.PagedJob)
    requires Chunked(starts, ends, slots) && |starts| > 0 && Contiguous(starts, ends)
    requires job.window == ConcatSlots(starts, ends, slots, |starts|) && job.ranges == OffsetRanges(starts, ends)
    ensures job.Tiles()
  {
    hide Offset, ConcatSlots, Contiguous;
    var n := |starts| - 1;
    ContiguousOffset(starts, ends, |starts|);
    forall j | 0 <= j < |starts|
      ensures starts[0] <= starts[j] <= ends[j] <= ends[n] && (j > 0 ==> starts[j] == ends[j - 1])
    {
      ChunkInside(starts, ends, j);
    }
    assert job.ranges[n] == (starts[n] as int - starts[0], ends[n] as int - starts[0]);
  }

  lemma ChunkInside(starts: seq<nat>, ends: seq<nat>, j: nat)
    requires |starts| == |ends| && j < |starts| && Contiguous(starts, ends)
    requires forall h :: 0 <= h < |starts| ==> starts[h] <= ends[h]
    ensures starts[0] <= starts[j] <= ends[j] <= ends[|ends| - 1] && (j > 0 ==> starts[j] == ends[j - 1])
  {
    EndsAscend(starts, ends, j, |starts| - 1);
    EndsAscend(starts, ends, 0, j);
  }

  lemma {:induction false} EndsAscend(starts: seq<nat>, ends: seq<nat>, i: nat, j: nat)
    requires |starts| == |ends| && i <= j < |ends| && Contiguous(starts, ends)
    requires forall h :: 0 <= h < |starts| ==> starts[h] <= ends[h]
    ensures ends[i] <= ends[j] && starts[0] <= starts[j]
    decreases j
  {
    if i < j { EndsAscend(starts, ends, i, j - 1); }
    else if j > 0 { EndsAscend(starts, ends, j - 1, j - 1); }
  }

  /** For chunks in order, every copy fits the buffer of as many rows as there are tokens if
      and only if the chunks are contiguous: with a gap the last range runs past the end. */
  lemma CopiesFitIffContiguous(starts: seq<nat>, ends: seq<nat>)
    requires Ordered(starts, ends)
    ensures (forall j :: 0 <= j < |starts| ==>
            0 <= OffsetRanges(starts, ends)[j].0 && OffsetRanges(starts, ends)[j].1 <= Offset(starts, ends, |starts|))
       <==> Contiguous(starts, ends)
  {
    hide Offset;
    var n := |starts| - 1;
    if Contiguous(starts, ends) {
      ContiguousOffset(starts, ends, |starts|);
      forall j | 0 <= j < |starts| ensures starts[0] <= starts[j] && ends[j] <= ends[n] {
        ChunkInside(starts, ends, j);
      }
    } else {
      GapsRunOver(starts, ends, |starts|);
      assert OffsetRanges(starts, ends)[n].1 > Offset(starts, ends, |starts|);
    }
  }

  lemma {:induction false} GapsRunOver(starts: seq<nat>, ends: seq<nat>, k: nat)
    requires Ordered(starts, ends) && 0 < k <= |starts|
    ensures ends[k - 1] as int - starts[0] >= Offset(starts, ends, k)
    ensures (exists j :: 0 < j < k && starts[j] != ends[j - 1]) ==>
            ends[k - 1] as int - starts[0] > Offset(starts, ends, k)
  {
    if k > 1 {
      GapsRunOver(starts, ends, k - 1);
    } else {
      assert Offset(starts, ends, 0) == 0;
    }
  }

  /** The slots of contiguous chunks are one slice of the slot mapping. */
  lemma {:induction false} OneSlice(starts: seq<nat>, ends: seq<nat>, slots: seq<nat>, k: nat)
    requires Chunked(starts, ends, slots) && 0 < k <= |starts| && Contiguous(starts, ends)
    ensures starts[0] <= ends[k - 1] <= |slots| && ConcatSlots(starts, ends, slots, k) == slots[starts[0]..ends[k - 1]]
  {
    if k > 1 {
      OneSlice(starts, ends, slots, k - 1);
      assert slots[starts[0]..ends[k - 2]] + slots[starts[k - 1]..ends[k - 1]] == slots[starts[0]..ends[k - 1]];
    } else {
      assert ConcatSlots(starts, ends, slots, 0) == [];
    }
  }

  /** What a store keeps for chunk j is the paged rows at that chunk's slots: for any chunk
      list in the running layout, and for contiguous chunks in the `start - offset` one. */
  lemma StoredChunk<R>(starts: seq<nat>, ends: seq<nat>, slots: seq<nat>, job: LayerStore.StoreJob,
                       paged: seq<seq<KV<R>>>, l: nat, j: nat)
    requires Chunked(starts, ends, slots) && j < |starts| && l < |paged|
    requires job.window == ConcatSlots(starts, ends, slots, |starts|) && Within(job.window, |paged[l]|)
    requires job.ranges == RunningRanges(starts, ends)
            || (job.ranges == OffsetRanges(starts, ends) && Contiguous(starts, ends))
    ensures 0 <= job.ranges[j].0 <= job.ranges[j].1 <= |job.window| && Within(slots[starts[j]..ends[j]], |paged[l]|)
    ensures job.ChunkRows(paged, l, j) == GatherRows(paged[l], slots[starts[j]..ends[j]])
  {
    hide Offset, ConcatSlots, Contiguous;
    LayoutsAgreeIffContiguous(starts, ends);
    RunningLayoutMatches(starts, ends, slots, |starts|, j);
    var (lo, hi) := RunningRanges(starts, ends)[j];
    var part := slots[starts[j]..ends[j]];
    forall i | 0 <= i < |part| ensures part[i] == job.window[lo + i] {
      assert job.window[lo..hi][i] == part[i];
    }
    assert job.ChunkRows(paged, l, j) == GatherRows(paged[l], part);
  }

  /** Token by token: token t of the request moved from its old slot to its new one. */
  ghost predicate TokensMoved<R>(before: seq<KV<R>>, after: seq<KV<R>>, from: seq<nat>, to: seq<nat>, first: nat,
                                 last: nat) {
    && |after| == |before| && first <= last <= |from| && last <= |to|
    && (forall t :: first <= t < last ==> from[t] < |before| && to[t] < |after| && after[to[t]] == before[from[t]])
    && (forall s :: 0 <= s < |before| && s !in to[first..last] ==> after[s] == before[s])
  }

  lemma MovedByToken<R>(before: seq<KV<R>>, after: seq<KV<R>>, from: seq<nat>, to: seq<nat>, first: nat, last: nat)
    requires first <= last <= |from| && last <= |to|
    requires Within(from[first..last], |before|) && Within(to[first..last], |before|)
    requires MoveCache.Moved(before, after, from[first..last], to[first..last])
    ensures TokensMoved(before, after, from, to, first, last)
  {
    forall t | first <= t < last ensures from[t] < |before| && to[t] < |after| && after[to[t]] == before[from[t]] {
      assert from[first..last][t - first] == from[t] && to[first..last][t - first] == to[t];
    }
  }

  /** Store a request under one slot mapping and load it under another: for contiguous
      chunks, any number of layers and an injective new mapping, every token's rows of every
      layer go from its old slot to its new one, and every other slot keeps its rows. */
  method MoveTokens<R(0)>(dev: Device<R>, starts: seq<nat>, ends: seq<nat>, from: seq<nat>, to: seq<nat>,
                          kv: seq<nat>, staging: nat, objs: seq<seq<nat>>, sync: bool)
    requires Chunked(starts, ends, from) && Chunked(starts, ends, to) && |starts| > 0 && Contiguous(starts, ends)
    requires Injective(ConcatSlots(starts, ends, to, |starts|))
    requires dev.Valid() && forall l :: 0 <= l < |kv| ==> kv[l] < |dev.tensors|
    requires StoreJobOf(starts, ends, from, kv, staging, objs, sync).WellFormed(dev.Shp())
    requires LoadJobOf(starts, ends, to, kv, staging).WellFormed(dev.Shp())
    modifies dev, dev.Arrays()
    ensures dev.Valid()
    ensures forall l :: 0 <= l < |kv| ==>
              TokensMoved(old(dev.Settled()).tensors[kv[l]], dev.Contents().tensors[kv[l]], from, to, starts[0],
                  ends[|ends| - 1])
  {
    hide MoveCache.Moved, TokensMoved, ConcatSlots, LayerLoad.PagedJob.WellFormed, LayerStore.StoreJob.WellFormed;
    hide Device.Valid, Device.Settled, Device.Contents;
    var out, back := StoreJobOf(starts, ends, from, kv, staging, objs, sync), LoadJobOf(starts, ends, to, kv, staging);
    var mover := new MoveCache.Mover(dev, out, back);
    OneSlice(starts, ends, from, |starts|);
    OneSlice(starts, ends, to, |starts|);
    ghost var m := dev.Settled();
    assert |ShapeOf(m).rows| == |m.tensors|;
    mover.Move();
    assert |ShapeOf(dev.Contents()).rows| == |dev.Contents().tensors|;
    forall l | 0 <= l < |kv|
      ensures TokensMoved(m.tensors[kv[l]], dev.Contents().tensors[kv[l]], from, to, starts[0], ends[|ends| - 1])
    {
      MovedByToken(m.tensors[kv[l]], dev.Contents().tensors[kv[l]], from, to, starts[0], ends[|ends| - 1]);
    }
  }

  /** Token t's row is in its slot. */
  ghost predicate InSlot<R>(rows: seq<KV<R>>, slots: seq<nat>, t: nat, row: KV<R>) {
    t < |slots| && slots[t] < |rows| && rows[slots[t]] == row
  }

  /** Token i of chunk j is in its slot, for every chunk; other slots are as before. */
  ghost predicate TokensLoaded<R>(before: seq<KV<R>>, after: seq<KV<R>>, chunks: seq<seq<KV<R>>>,
                                  starts: seq<nat>, ends: seq<nat>, slots: seq<nat>)
    requires Chunked(starts, ends, slots) && |starts| > 0
  {
    && |after| == |before| && |chunks| == |starts|
    && (forall j, i :: 0 <= j < |starts| && 0 <= i < ends[j] - starts[j] ==>
          i < |chunks[j]| && InSlot(after, slots, starts[j] + i, chunks[j][i]))
    && (forall s :: 0 <= s < |before| && s !in ConcatSlots(starts, ends, slots, |starts|) ==> after[s] == before[s])
  }

  lemma {:induction false} FlatLength<R>(job: LayerLoad.PagedJob, parts: seq<seq<KV<R>>>, k: nat)
    requires job.Tiles() && job.FitsRanges(parts) && k <= |parts|
    ensures |LayerLoad.Flat(parts[..k])| == job.Upto(k)
  {
    hide LayerLoad.Flat, LayerLoad.PagedJob.Tiles, LayerLoad.PagedJob.FitsRanges, LayerLoad.PagedJob.Upto;
    PartLength(job, parts, k);
    if k == 0 {
      LayerLoad.FlatEmpty<KV<R>>();
    } else {
      FlatLength(job, parts, k - 1);
      OneMorePart(parts, k - 1);
    }
  }

  lemma PartLength<R>(job: LayerLoad.PagedJob, parts: seq<seq<KV<R>>>, k: nat)
    requires job.Tiles() && job.FitsRanges(parts) && k <= |parts|
    ensures |parts| == |job.ranges| && job.Upto(0) == 0
    ensures k > 0 ==> job.Upto(k) == job.Upto(k - 1) + |parts[k - 1]|
  {
  }

  lemma OneMorePart<T>(parts: seq<seq<T>>, j: nat)
    requires j < |parts|
    ensures LayerLoad.Flat(parts[..j + 1]) == LayerLoad.Flat(parts[..j]) + parts[j]
  {
    hide LayerLoad.Flat;
    assert parts[..j + 1] == parts[..j] + [parts[j]];
    LayerLoad.FlatAppend(parts[..j], parts[j]);
  }

  /** What comes first stays first. */
  lemma {:induction false} FlatPrefix<T>(parts: seq<seq<T>>, j: nat, k: nat)
    requires j <= k <= |parts|
    ensures LayerLoad.Flat(parts[..j]) <= LayerLoad.Flat(parts[..k])
    decreases k
  {
    hide LayerLoad.Flat;
    if j < k {
      FlatPrefix(parts, j, k - 1);
      OneMorePart(parts, k - 1);
    }
  }

  /** Row i of chunk j in the joined rows. */
  lemma FlatAt<R>(job: LayerLoad.PagedJob, parts: seq<seq<KV<R>>>, j: nat, i: nat)
    requires job.Tiles() && job.FitsRanges(parts) && j < |parts| && i < |parts[j]|
    ensures 0 <= job.ranges[j].0 + i < |LayerLoad.Flat(parts)|
            && LayerLoad.Flat(parts)[job.ranges[j].0 + i] == parts[j][i]
  {
    hide LayerLoad.Flat;
    FlatLength(job, parts, j);
    OneMorePart(parts, j);
    FlatPrefix(parts, j + 1, |parts|);
    assert parts[..|parts|] == parts;
    assert job.ranges[j].0 == job.Upto(j);
    var front := LayerLoad.Flat(parts[..j + 1]);
    assert front[job.ranges[j].0 + i] == parts[j][i];
  }

  lemma LoadedByToken<R>(before: seq<KV<R>>, chunks: seq<seq<KV<R>>>, starts: seq<nat>, ends: seq<nat>,
                         slots: seq<nat>, job: LayerLoad.PagedJob)
    requires Chunked(starts, ends, slots) && |starts| > 0 && Contiguous(starts, ends)
    requires job == LoadJobOf(starts, ends, slots, job.kv, job.staging) && job.Tiles() && job.FitsRanges(chunks)
    requires Within(job.window, |before|) && Injective(job.window) && |LayerLoad.Flat(chunks)| == |job.window|
    ensures TokensLoaded(before, ScatterRows(before, LayerLoad.Flat(chunks), job.window), chunks, starts, ends, slots)
  {
    hide ScatterRows, LayerLoad.Flat, ConcatSlots, LayerLoad.PagedJob.Tiles, InSlot;
    var whole := LayerLoad.Flat(chunks);
    ScatterInjective(before, whole, job.window);
    assert |chunks| == |job.ranges| == |starts|;
    var after := ScatterRows(before, whole, job.window);
    forall j, i | 0 <= j < |starts| && 0 <= i < ends[j] - starts[j]
      ensures i < |chunks[j]| && InSlot(after, slots, starts[j] + i, chunks[j][i])
    {
      TokenLoaded(before, chunks, starts, ends, slots, job, j, i);
    }
    assert job.window == ConcatSlots(starts, ends, slots, |starts|);
    forall s | 0 <= s < |before| && s !in ConcatSlots(starts, ends, slots, |starts|) ensures after[s] == before[s] {
      assert s !in job.window;
    }
  }

  lemma TokenLoaded<R>(before: seq<KV<R>>, chunks: seq<seq<KV<R>>>, starts: seq<nat>, ends: seq<nat>, slots: seq<nat>,
                       job: LayerLoad.PagedJob, j: nat, i: nat)
    requires Chunked(starts, ends, slots) && j < |starts| && i < ends[j] - starts[j] && Contiguous(starts, ends)
    requires job == LoadJobOf(starts, ends, slots, job.kv, job.staging) && job.Tiles() && job.FitsRanges(chunks)
    requires Within(job.window, |before|) && Injective(job.window) && |LayerLoad.Flat(chunks)| == |job.window|
    ensures i < |chunks[j]|
            && InSlot(ScatterRows(before, LayerLoad.Flat(chunks), job.window), slots, starts[j] + i, chunks[j][i])
  {
    hide ScatterRows, LayerLoad.Flat, ConcatSlots, LayerLoad.PagedJob.Tiles;
    assert |chunks[j]| == job.ranges[j].1 - job.ranges[j].0;
    FlatAt(job, chunks, j, i);
    TokenSlot(starts, ends, slots, j, i);
    ScatterInjective(before, LayerLoad.Flat(chunks), job.window);
    var g := starts[j] as int - starts[0] + i;
    assert job.window[g] == slots[starts[j] + i];
  }

  /** Where a token's slot sits in the window. */
  lemma TokenSlot(starts: seq<nat>, ends: seq<nat>, slots: seq<nat>, j: nat, i: nat)
    requires Chunked(starts, ends, slots) && j < |starts| && i < ends[j] - starts[j] && Contiguous(starts, ends)
    ensures 0 <= starts[j] as int - starts[0] + i < |ConcatSlots(starts, ends, slots, |starts|)|
    ensures ConcatSlots(starts, ends, slots, |starts|)[starts[j] as int - starts[0] + i] == slots[starts[j] + i]
  {
    hide ConcatSlots;
    OneSlice(starts, ends, slots, |starts|);
    ChunkInside(starts, ends, j);
  }

  /** A whole layerwise retrieval over the paged connector, token by token. */
  method RetrieveTokens<R(0,!new)>(eng: PagedEngine.RetrieveLayer<R>, fetched: seq<seq<nat>>,
                                   starts: seq<nat>, ends: seq<nat>, slots: seq<nat>)
    requires Chunked(starts, ends, slots) && |starts| > 0 && Contiguous(starts, ends)
    requires eng.consumer.job == LoadJobOf(starts, ends, slots, eng.consumer.job.kv, eng.consumer.job.staging)
    requires Injective(eng.consumer.job.window)
    requires eng.Separate() && eng.step == PagedEngine.NotStarted && eng.yieldCount == 0 && eng.toCountDown == []
            && eng.released == []
    requires eng.consumer.Layout() && eng.consumer.phase == LayerLoad.Created && eng.consumer.layerId == 0
    requires eng.consumer.yieldCount == 0 && eng.consumer.sent == [] && PagedEngine.Fetchable(eng.consumer, fetched)
    requires PagedEngine.Unhindered(eng.consumer, fetched)
    modifies eng, eng.consumer, eng.consumer.dev, eng.consumer.dev.Arrays()
    ensures eng.Valid() && eng.yieldCount == |fetched| + 2 && eng.released == LayerLoad.Flat(fetched)
    ensures var was, now := old(eng.consumer.dev.Settled()), eng.consumer.dev.Settled();
            forall l :: 0 <= l < |fetched| ==>
              && eng.consumer.job.kv[l] < |was.tensors| && eng.consumer.job.kv[l] < |now.tensors|
              && (forall j :: 0 <= j < |fetched[l]| ==> fetched[l][j] < |was.tensors|)
              && TokensLoaded(was.tensors[eng.consumer.job.kv[l]], now.tensors[eng.consumer.job.kv[l]],
                              PagedLayers(was, fetched[l]), starts, ends, slots)
  {
    hide TokensLoaded, ConcatSlots, LayerLoad.PagedJob.WellFormed;
    hide LayerLoad.PagedJob.Tiles, LayerLoad.Flat, ScatterRows;
    hide Device.Valid, Device.Settled, Device.Contents;
    var consumer := eng.consumer;
    ghost var was := consumer.dev.Settled();
    forall l | 0 <= l < |fetched|
      ensures (forall j :: 0 <= j < |fetched[l]| ==> fetched[l][j] < |was.tensors|)
              && consumer.job.FitsRanges(PagedLayers(was, fetched[l]))
    {
      FetchedFits(consumer, fetched[l], was);
    }
    PagedEngine.RetrieveAll(eng, fetched);
    ghost var now := consumer.dev.Settled();
    forall l | 0 <= l < |fetched|
      ensures
        && consumer.job.kv[l] < |was.tensors| && consumer.job.kv[l] < |now.tensors|
        && TokensLoaded(was.tensors[consumer.job.kv[l]], now.tensors[consumer.job.kv[l]], PagedLayers(was, fetched[l]),
           starts, ends, slots)
    {
      assert PagedEngine.LayerHolds(consumer.job, was, now, fetched[l], consumer.job.kv[l]);
      LoadedByToken(was.tensors[consumer.job.kv[l]], PagedLayers(was, fetched[l]), starts, ends, slots, consumer.job);
    }
  }

  lemma FetchedFits<R(0)>(consumer: LayerLoad.Loader<R>, objs: seq<nat>, m: Memory<R>)
    requires consumer.job.Tiles() && consumer.Deliverable(objs) && ShapeOf(m) == consumer.dev.Shp()
    ensures forall j :: 0 <= j < |objs| ==> objs[j] < |m.tensors|
    ensures consumer.job.FitsRanges(PagedLayers(m, objs))
  {
    assert |ShapeOf(m).rows| == |m.tensors|;
    assert forall j :: 0 <= j < |objs| ==> |m.tensors[objs[j]]| == ShapeOf(m).rows[objs[j]];
  }
}
