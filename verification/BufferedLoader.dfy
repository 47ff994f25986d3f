/** `VLLMBufferLayerwiseGPUConnector.batched_to_gpu` as an explicit step machine.

    Iteration L of the generator flushes layer L-2 to paged memory, re-encodes
    layer L-1 in the compute buffer and starts the copies of layer L into the load
    buffer; the two buffers change roles between iterations. `Start` is the first
    resume of the generator, `Send` and `Next` are the later ones. */
module BufferedLoader {
  import opened DeviceStreams
  import opened LoadJob

  /** A memory object of one layer: the host tensor that holds it and the
      positions its keys were encoded at. */
  datatype MemObj = MemObj(id: nat, cached: seq<int>)

  /** Where the generator is suspended: before its first resume, at the yield that
      receives a layer, at the bare yield after the last layer, at the final yield. */
  datatype Phase = Created | AwaitLayer | LastLayerSent | Finished

  predicate ZeroCached(objs: seq<MemObj>) {
    forall j, i :: 0 <= j < |objs| && 0 <= i < |objs[j].cached| ==> objs[j].cached[i] == 0
  }

  // ----- what the memory looks like between steps, as predicates on values -----

  ghost predicate RawIn<R>(rows: seq<KV<R>>, job: Job, chunks: seq<Chunk<R>>, upto: nat)
    requires job.WellFormed() && Matches(job, chunks)
  {
    && |rows| == job.Tokens() && upto <= |chunks|
    && forall j, i :: 0 <= j < upto && 0 <= i < |chunks[j].rows| ==>
         rows[job.At(j, i)] == chunks[j].rows[i]
  }

  ghost predicate PositionsIn<R>(pos: seq<int>, job: Job, first: seq<Chunk<R>>, upto: nat)
    requires job.WellFormed() && Matches(job, first)
  {
    && |pos| == job.Tokens() && upto <= |first|
    && forall j, i :: 0 <= j < upto && 0 <= i < |first[j].cached| ==>
         pos[job.At(j, i)] == first[j].cached[i]
  }

  ghost predicate EncodedIn<R>(num: Numerics<R>, rows: seq<KV<R>>, job: Job, first: seq<Chunk<R>>,
                               chunks: seq<Chunk<R>>)
    requires job.WellFormed() && Matches(job, first) && Matches(job, chunks)
  {
    && |rows| == job.Tokens()
    && (forall j, i :: 0 <= j < |chunks| && 0 <= i < |chunks[j].rows| ==>
          rows[job.At(j, i)] == Encoded(num, job, first, chunks, j, i))
    && (forall g: nat | g in job.Gaps() :: rows[g] == KV(num.zero, num.zero))
  }

  /** Copying chunk j's keys and values completes the raw image up to chunk j. */
  lemma CopyChunk<R>(rows: seq<KV<R>>, job: Job, chunks: seq<Chunk<R>>, j: nat)
    requires job.WellFormed() && Matches(job, chunks) && j < |chunks|
    requires RawIn(rows, job, chunks, j)
    ensures var at := job.starts[j] - job.Base();
            var len := |chunks[j].rows|;
            var keys := CopyRows(rows, at, chunks[j].rows, 0, len, KeyPart);
            RawIn(CopyRows(keys, at, chunks[j].rows, 0, len, ValuePart), job, chunks, j + 1)
  {
    hide CopyRows, Job.Covered, Job.Tokens, Job.Window;
    var at := job.starts[j] - job.Base();
    KeysThenValues(rows, at, chunks[j].rows);
    var done := rows[..at] + chunks[j].rows + rows[at + |chunks[j].rows|..];
    forall h, i | 0 <= h < j + 1 && 0 <= i < |chunks[h].rows|
      ensures done[job.At(h, i)] == chunks[h].rows[i]
    {
      if h < j {
        assert job.ends[h] <= job.starts[j];
        assert rows[job.At(h, i)] == chunks[h].rows[i];
      }
    }
  }

  lemma CopyPositions<R>(pos: seq<int>, job: Job, first: seq<Chunk<R>>, j: nat)
    requires job.WellFormed() && Matches(job, first) && j < |first|
    requires PositionsIn(pos, job, first, j)
    ensures PositionsIn(SetRange(pos, job.starts[j] - job.Base(), first[j].cached), job, first, j + 1)
  {
    var done := SetRange(pos, job.starts[j] - job.Base(), first[j].cached);
    forall h, i | 0 <= h < j + 1 && 0 <= i < |first[h].cached|
      ensures done[job.At(h, i)] == first[h].cached[i]
    {
      if h < j { assert job.ends[h] <= job.starts[j]; }
    }
  }

  /** Rotary re-encoding of the whole buffer, then zeroing the gaps, leaves the tile
      of the layer, whatever garbage the gaps of the buffer held before. */
  lemma EncodeLayer<R>(num: Numerics<R>, rows: seq<KV<R>>, pos: seq<int>, job: Job, first: seq<Chunk<R>>,
                       chunks: seq<Chunk<R>>)
    requires job.WellFormed() && Matches(job, first) && Matches(job, chunks)
    requires RawIn(rows, job, chunks, |chunks|) && PositionsIn(pos, job, first, |first|)
    ensures EncodedIn(num, ZeroedRows(num, RopeRows(num, rows, pos, job.Base()), job.Gaps()), job, first, chunks)
    ensures job.Gaps() == {} ==> EncodedIn(num, RopeRows(num, rows, pos, job.Base()), job, first, chunks)
  {
    var roped := RopeRows(num, rows, pos, job.Base());
    var tile := ZeroedRows(num, roped, job.Gaps());
    forall j, i | 0 <= j < |chunks| && 0 <= i < |chunks[j].rows|
      ensures roped[job.At(j, i)] == Encoded(num, job, first, chunks, j, i)
      ensures tile[job.At(j, i)] == Encoded(num, job, first, chunks, j, i)
    {
      var g := job.At(j, i);
      assert job.Covered(g);
      assert rows[g] == chunks[j].rows[i];
      assert pos[g] == first[j].cached[i];
    }
  }

  /** Flushing a layer's tile through an injective mapping is the sequential load of that layer. */
  lemma FlushLayer<R>(num: Numerics<R>, rows: seq<KV<R>>, before: seq<KV<R>>, job: Job, first: seq<Chunk<R>>,
                      chunks: seq<Chunk<R>>)
    requires job.WellFormed() && Matches(job, first) && Matches(job, chunks)
    requires Within(job.Window(), |before|) && job.InjectiveSlots()
    requires EncodedIn(num, rows, job, first, chunks)
    ensures LayerLoaded(num, job, first, chunks, before, ScatterRows(before, rows, job.Window()))
  {
    ScatterInjective(before, rows, job.Window());
    var after := ScatterRows(before, rows, job.Window());
    forall j, i | 0 <= j < |chunks| && 0 <= i < |chunks[j].rows|
      ensures after[job.Window()[job.At(j, i)]] == Encoded(num, job, first, chunks, j, i)
    {
      assert rows[job.At(j, i)] == Encoded(num, job, first, chunks, j, i);
    }
  }

  function CopyOp(job: Job, load: nat, src: nat, j: nat, part: Part): Op
    requires job.WellFormed() && j < |job.starts|
  {
    Copy(load, job.starts[j] - job.Base(), src, 0, job.ends[j] - job.starts[j], part)
  }

  function PositionsOp(job: Job, cached: seq<int>, j: nat): Op
    requires job.WellFormed() && j < |job.starts|
  {
    SetPositions(job.starts[j] - job.Base(), cached)
  }

  /** The zero fill of the position table. */
  function ClearOp(job: Job): Op
    requires job.WellFormed()
  {
    SetPositions(0, seq(job.Tokens(), _ => 0))
  }

  lemma ClearIsFill(job: Job)
    requires job.WellFormed()
    ensures ClearOp(job).SetPositions?
  {
  }

  // ----- one request in flight, as values -----

  /** The request, the paged layers as they were when it started, and what has been
      delivered for each layer so far. */
  datatype Flight<!R> = Flight(num: Numerics<R>, job: Job, orig: seq<seq<KV<R>>>, sent: seq<seq<Chunk<R>>>) {

    ghost predicate Ok()
      ensures Ok() ==> job.WellFormed()
    {
      && job.WellFormed() && job.InjectiveSlots()
      && |orig| == |job.kv| && |sent| <= |job.kv|
      && (forall l :: 0 <= l < |orig| ==> Within(job.Window(), |orig[l]|))
      && (forall l :: 0 <= l < |sent| ==> Matches(job, sent[l]))
    }

    /** The device has room for the two buffers and holds every paged layer apart from them. */
    ghost predicate Roomy(s: Shape, compute: nat, load: nat)
      requires Ok()
    {
      && compute != load && compute < |s.rows| && load < |s.rows|
      && s.rows[compute] == s.rows[load] == s.positions == job.Tokens()
      && compute !in job.kv && load !in job.kv
      && (forall l :: 0 <= l < |job.kv| ==> job.kv[l] < |s.rows| && s.rows[job.kv[l]] == |orig[l]|)
    }

    /** The first `count` layers of paged memory hold their sequential result; the rest is untouched. */
    ghost predicate Loaded(m: Memory<R>, count: nat)
      requires Ok()
    {
      && count <= |sent|
      && (forall l :: 0 <= l < |job.kv| ==> job.kv[l] < |m.tensors|)
      && (forall l :: 0 <= l < count ==> LayerLoaded(num, job, sent[0], sent[l], orig[l], m.tensors[job.kv[l]]))
      && (forall l :: count <= l < |job.kv| ==> m.tensors[job.kv[l]] == orig[l])
    }

    ghost predicate TableReady(m: Memory<R>)
      requires Ok()
    {
      |sent| > 0 ==> PositionsIn(m.pos, job, sent[0], |job.starts|)
    }

    /** Top of iteration L: layer L-2 encoded in `compute`, layer L-1 raw in `load`. */
    ghost predicate AtTop(m: Memory<R>, compute: nat, load: nat, L: nat)
      requires Ok() && Roomy(ShapeOf(m), compute, load)
    {
      && L <= |job.kv| + 1 && |sent| == (if L <= |job.kv| then L else L - 1)
      && TableReady(m)
      && Loaded(m, if L >= 2 then L - 2 else 0)
      && (1 <= L <= |job.kv| ==> RawIn(m.tensors[load], job, sent[L - 1], |job.starts|))
      && (2 <= L ==> EncodedIn(num, m.tensors[compute], job, sent[0], sent[L - 2]))
    }

    /** After the flush of iteration L: only the raw layer L-1 is still in a buffer. */
    ghost predicate AfterFlush(m: Memory<R>, compute: nat, load: nat, L: nat)
      requires Ok() && Roomy(ShapeOf(m), compute, load)
    {
      && L <= |job.kv| + 1 && |sent| == (if L <= |job.kv| then L else L - 1)
      && TableReady(m)
      && Loaded(m, if L >= 1 then L - 1 else 0)
      && (1 <= L <= |job.kv| ==> RawIn(m.tensors[load], job, sent[L - 1], |job.starts|))
    }

    /** At the yield of iteration L: layer L-1 encoded in `compute`. */
    ghost predicate AtYield(m: Memory<R>, compute: nat, load: nat, L: nat)
      requires Ok() && Roomy(ShapeOf(m), compute, load)
    {
      && L <= |job.kv| + 1 && |sent| == (if L <= |job.kv| then L else L - 1)
      && TableReady(m)
      && Loaded(m, if L >= 1 then L - 1 else 0)
      && (1 <= L <= |job.kv| ==> EncodedIn(num, m.tensors[compute], job, sent[0], sent[L - 1]))
    }

    /** While layer L is being copied in: chunks before j have arrived in `load`. */
    ghost predicate Copying(m: Memory<R>, compute: nat, load: nat, L: nat, chunks: seq<Chunk<R>>, j: nat)
      requires Ok() && Roomy(ShapeOf(m), compute, load)
    {
      && L < |job.kv| && |sent| == L && Matches(job, chunks) && j <= |chunks|
      && Loaded(m, if L >= 1 then L - 1 else 0)
      && (if L == 0 then PositionsIn(m.pos, job, chunks, j) else TableReady(m))
      && RawIn(m.tensors[load], job, chunks, j)
      && (1 <= L ==> EncodedIn(num, m.tensors[compute], job, sent[0], sent[L - 1]))
    }

    lemma OneMoreLoaded(m: Memory<R>, r: Memory<R>, c: nat)
      requires Ok() && Loaded(m, c) && c < |sent| && |r.tensors| == |m.tensors|
      requires LayerLoaded(num, job, sent[0], sent[c], orig[c], r.tensors[job.kv[c]])
      requires forall l :: 0 <= l < |job.kv| && l != c ==> r.tensors[job.kv[l]] == m.tensors[job.kv[l]]
      ensures Loaded(r, c + 1)
    {
    }

    lemma FlushFits(m: Memory<R>, compute: nat, load: nat, l: nat)
      requires Ok() && Roomy(ShapeOf(m), compute, load) && l < |job.kv|
      ensures Fits(Scatter(job.kv[l], compute, job.Window()), ShapeOf(m))
    {
      assert Within(job.Window(), |orig[l]|);
    }

    lemma FlushStep(m: Memory<R>, compute: nat, load: nat, L: nat)
      requires Ok() && Roomy(ShapeOf(m), compute, load) && AtTop(m, compute, load, L) && L >= 2
      ensures job.WellFormed() && L - 2 < |job.kv| && job.kv[L - 2] in job.kv && load !in job.kv && compute !in job.kv
              && compute != load
      ensures Fits(Scatter(job.kv[L - 2], compute, job.Window()), ShapeOf(m))
      ensures AfterFlush(Exec(num, Scatter(job.kv[L - 2], compute, job.Window()), m), compute, load, L)
    {
      hide LayerLoaded, EncodedIn, RawIn, PositionsIn, ScatterRows;
      FlushFits(m, compute, load, L - 2);
      var r := Exec(num, Scatter(job.kv[L - 2], compute, job.Window()), m);
      assert m.tensors[job.kv[L - 2]] == orig[L - 2];
      FlushLayer(num, m.tensors[compute], orig[L - 2], job, sent[0], sent[L - 2]);
      assert forall t :: 0 <= t < |m.tensors| && t != job.kv[L - 2] ==> r.tensors[t] == m.tensors[t];
      OneMoreLoaded(m, r, L - 2);
    }

    ghost function Reencoded(m: Memory<R>, tile: nat): (r: Memory<R>)
      requires job.WellFormed() && tile < |m.tensors| && |m.tensors[tile]| == |m.pos|
      ensures ShapeOf(r) == ShapeOf(m)
    {
      var roped := Exec(num, Rope(tile, job.Base()), m);
      if job.Gaps() == {} then roped else Exec(num, ZeroRows(tile, job.Gaps()), roped)
    }

    /** `load` has just become the compute buffer; re-encoding it makes layer L-1 ready. */
    lemma ReencodeStep(m: Memory<R>, compute: nat, load: nat, L: nat)
      requires Ok() && Roomy(ShapeOf(m), compute, load) && AfterFlush(m, compute, load, L) && 1 <= L <= |job.kv|
      ensures job.WellFormed() && load < |m.tensors| && |m.tensors[load]| == |m.pos|
      ensures Fits(Rope(load, job.Base()), ShapeOf(m)) && Fits(ZeroRows(load, job.Gaps()), ShapeOf(m))
      ensures Roomy(ShapeOf(m), load, compute) && AtYield(Reencoded(m, load), load, compute, L)
    {
      assert ShapeOf(m).rows[load] == |m.tensors[load]|;
      EncodeLayer(num, m.tensors[load], m.pos, job, sent[0], sent[L - 1]);
      var done := Reencoded(m, load);
      assert done.pos == m.pos;
      forall l | 0 <= l < |job.kv| ensures done.tensors[job.kv[l]] == m.tensors[job.kv[l]] {
      }
    }

    lemma CopyBoth(m: Memory<R>, load: nat, chunk: Chunk<R>, j: nat, src: nat)
      requires job.WellFormed() && j < |job.starts| && load < |m.tensors| && |m.tensors[load]| == job.Tokens()
      requires src < |m.tensors| && src != load && m.tensors[src] == chunk.rows
              && |chunk.rows| == job.ends[j] - job.starts[j]
      ensures var k, v := CopyOp(job, load, src, j, KeyPart), CopyOp(job, load, src, j, ValuePart);
              var at, len := job.starts[j] - job.Base(), |chunk.rows|;
              && Fits(k, ShapeOf(m)) && Fits(v, ShapeOf(m))
              && Exec(num, v, Exec(num, k, m)) ==
                 m.(tensors := m.tensors[load := CopyRows(CopyRows(m.tensors[load], at, chunk.rows, 0, len, KeyPart),
                                                          at, chunk.rows, 0, len, ValuePart)])
    {
      var k := CopyOp(job, load, src, j, KeyPart);
      var mk := Exec(num, k, m);
      assert mk.tensors[src] == m.tensors[src];
    }

    /** Filling the load buffer disturbs neither paged memory nor the compute buffer. */
    lemma CopyFrame(m: Memory<R>, compute: nat, load: nat, L: nat, chunks: seq<Chunk<R>>, j: nat, rows: seq<KV<R>>,
                    pos: seq<int>)
      requires Ok() && Roomy(ShapeOf(m), compute, load) && Copying(m, compute, load, L, chunks, j)
      requires j < |chunks| && RawIn(rows, job, chunks, j + 1)
      requires |rows| == |m.tensors[load]| && |pos| == |m.pos|
      requires if L == 0 then PositionsIn(pos, job, chunks, j + 1) else pos == m.pos
      ensures var r := Memory(m.tensors[load := rows], pos);
              && Roomy(ShapeOf(r), compute, load)
              && Copying(r, compute, load, L, chunks, j + 1)
    {
      hide RawIn, PositionsIn, EncodedIn, LayerLoaded;
      var r := Memory(m.tensors[load := rows], pos);
      assert ShapeOf(r) == ShapeOf(m);
      assert forall l :: 0 <= l < |job.kv| ==> r.tensors[job.kv[l]] == m.tensors[job.kv[l]];
    }

    /** The two copies of chunk j (and, with layer 0, its positions) bring it into `load`. */
    lemma CopyStep(m: Memory<R>, compute: nat, load: nat, L: nat, chunks: seq<Chunk<R>>, j: nat, src: nat)
      requires Ok() && Roomy(ShapeOf(m), compute, load) && Copying(m, compute, load, L, chunks, j)
      requires j < |chunks| && src < |m.tensors| && src != load && m.tensors[src] == chunks[j].rows
      ensures job.WellFormed() && j < |job.starts| && compute != load
      ensures var k, v := CopyOp(job, load, src, j, KeyPart), CopyOp(job, load, src, j, ValuePart);
              && Fits(k, ShapeOf(m)) && Fits(v, ShapeOf(m)) && Fits(PositionsOp(job, chunks[j].cached, j), ShapeOf(m))
              && var m2 := Exec(num, v, Exec(num, k, m));
                 var m3 := if L == 0 then Exec(num, PositionsOp(job, chunks[j].cached, j), m2) else m2;
                 && Copying(m3, compute, load, L, chunks, j + 1)
                 && forall t :: 0 <= t < |m.tensors| && t != load ==> m3.tensors[t] == m.tensors[t]
    {
      hide CopyRows, RawIn, PositionsIn, EncodedIn, LayerLoaded, SetRange;
      assert ShapeOf(m).rows[load] == |m.tensors[load]|;
      CopyBoth(m, load, chunks[j], j, src);
      CopyChunk(m.tensors[load], job, chunks, j);
      if L == 0 { CopyPositions(m.pos, job, chunks, j); }
      var m2 := Exec(num, CopyOp(job, load, src, j, ValuePart), Exec(num, CopyOp(job, load, src, j, KeyPart), m));
      CopyFrame(m, compute, load, L, chunks, j, m2.tensors[load],
                if L == 0 then SetRange(m.pos, job.starts[j] - job.Base(), chunks[j].cached) else m.pos);
    }

    /** Iterations 0 and 1 have nothing to flush, iterations 0 and n + 1 nothing to re-encode. */
    lemma SkippedStages(m: Memory<R>, compute: nat, load: nat, L: nat)
      requires Ok() && Roomy(ShapeOf(m), compute, load)
      ensures L < 2 && AtTop(m, compute, load, L) ==> AfterFlush(m, compute, load, L)
      ensures (L == 0 || L > |job.kv|) && AfterFlush(m, compute, load, L) ==> AtYield(m, compute, load, L)
    {
    }

    lemma StartStep(m: Memory<R>, compute: nat, load: nat)
      requires Ok() && Roomy(ShapeOf(m), compute, load) && sent == []
      requires (forall l :: 0 <= l < |job.kv| ==> job.kv[l] < |m.tensors|) && orig == PagedLayers(m, job.kv)
      ensures Fits(ClearOp(job), ShapeOf(m)) && AtTop(Exec(num, ClearOp(job), m), compute, load, 0)
    {
    }

    /** Between two layers of a request: nothing has been copied yet. */
    lemma CopyStart(m: Memory<R>, compute: nat, load: nat, L: nat, chunks: seq<Chunk<R>>)
      requires Ok() && Roomy(ShapeOf(m), compute, load) && AtYield(m, compute, load, L) && L < |job.kv|
      requires Matches(job, chunks)
      ensures Copying(m, compute, load, L, chunks, 0)
    {
      assert ShapeOf(m).rows[load] == |m.tensors[load]|;
    }

    lemma LastYield(m: Memory<R>, compute: nat, load: nat)
      requires Ok() && Roomy(ShapeOf(m), compute, load)
      ensures AtYield(m, compute, load, |job.kv|) ==> AtTop(m, compute, load, |job.kv| + 1)
      ensures AtYield(m, compute, load, |job.kv| + 1) ==> Loaded(m, |job.kv|)
    {
    }

    /** Once every chunk has arrived, the layer counts as delivered and iteration L + 1 begins. */
    lemma CopiedStep(m: Memory<R>, compute: nat, load: nat, L: nat, chunks: seq<Chunk<R>>)
      requires Ok() && Roomy(ShapeOf(m), compute, load) && Copying(m, compute, load, L, chunks, |chunks|)
      ensures var next := this.(sent := sent + [chunks]);
              next.Ok() && next.Roomy(ShapeOf(m), compute, load) && next.AtTop(m, compute, load, L + 1)
    {
      var next := this.(sent := sent + [chunks]);
      assert L > 0 ==> next.sent[0] == sent[0];
      assert forall l :: 0 <= l < L ==> next.sent[l] == sent[l];
    }
  }

  /** The bool mask loop over the chunks, and `torch.where` on what is left. */
  method GapPositions(job: Job) returns (gaps: set<nat>)
    requires job.WellFormed()
    ensures gaps == job.Gaps()
  {
    var mask := new bool[job.Tokens()](_ => true);
    for j := 0 to |job.starts|
      invariant forall g :: 0 <= g < mask.Length ==>
                  (mask[g] <==> forall h :: 0 <= h < j ==> !(job.starts[h] <= job.Base() + g < job.ends[h]))
    {
      forall g | job.starts[j] - job.Base() <= g < job.ends[j] - job.Base() { mask[g] := false; }
    }
    gaps := set g | 0 <= g < mask.Length && mask[g];
    assert forall g: nat :: g < mask.Length ==> (mask[g] <==> !job.Covered(g));
  }

  class Loader<R(0)> {
    const dev: Device<R>
    const job: Job
    const numLayers: nat
    const buffer0: nat
    const buffer1: nat
    var compute: nat
    var load: nat
    var bufferMapping: map<nat, nat>
    var gaps: set<nat>
    var layerId: nat
    var phase: Phase
    var yieldCount: nat
    ghost var sent: seq<seq<Chunk<R>>>
    ghost var orig: seq<seq<KV<R>>>

    ghost function Now(): Flight<R>
      reads this
    {
      Flight(dev.num, job, orig, sent)
    }

    /** A load writes the two buffers and the paged caches only. */
    ghost predicate Untouched(m: Memory<R>, r: Memory<R>) {
      && |r.tensors| == |m.tensors|
      && forall t :: 0 <= t < |m.tensors| && t != buffer0 && t != buffer1 && t !in job.kv ==>
         r.tensors[t] == m.tensors[t]
    }

    /** The generator's own fields are not device memory. */
    ghost predicate Separate() {
      dev != (this as object) && (this as object) !in dev.Arrays()
    }

    /** The two buffers only ever trade places. */
    ghost predicate Buffers()
      reads this
    {
      (compute == buffer0 && load == buffer1) || (compute == buffer1 && load == buffer0)
    }

    ghost predicate Layout()
      reads this, dev, dev.Arrays()
    {
      && dev.Valid() && Now().Ok() && Now().Roomy(dev.Shp(), compute, load)
      && numLayers == |job.kv| && gaps == job.Gaps() && Buffers() && Separate()
    }

    /** Waiting main-stream work re-encodes the compute buffer, or clears the position
        table before the first layer has been re-encoded. */
    ghost predicate MainWork()
      reads this, dev
    {
      forall op <- dev.main ::
        || ((op.Rope? || op.ZeroRows?) && op.dst == compute && layerId > 0)
        || (op.SetPositions? && job.WellFormed() && op == ClearOp(job) && yieldCount <= 1)
    }

    predicate TableCleared()
      reads dev
    {
      forall op <- dev.main :: !op.SetPositions?
    }

    /** Waiting side-stream work fills the load buffer or the position table from
        tensors the pipeline never writes. */
    ghost predicate SideWork()
      reads this, dev
    {
      forall op <- dev.side ::
        || (op.Copy? && op.dst == load && op.src != compute && op.src !in job.kv)
        || op.SetPositions?
    }

    /** At a yield the load stream is empty, at most one layer sits encoded in a
        buffer, and every earlier layer is in paged memory. */
    ghost predicate Valid()
      reads this, dev, dev.Arrays()
      ensures Valid() ==> Layout() && dev.Valid() && job.WellFormed()
    {
      && Layout() && phase != Created && dev.side == []
      && Now().AtYield(dev.Settled(), compute, load, layerId)
      && (phase.AwaitLayer? <==> layerId < numLayers)
      && (phase.LastLayerSent? <==> layerId == numLayers)
      && (phase.Finished? <==> layerId == numLayers + 1)
      && (layerId <= numLayers ==> MainWork())
      && yieldCount == layerId + 1
      && bufferMapping == (if 1 <= layerId <= numLayers then map[(layerId - 1) as nat := compute] else map[])
    }

    /** The top of iteration `layerId`. */
    ghost predicate Top()
      reads this, dev, dev.Arrays()
    {
      && Layout() && yieldCount == layerId
      && Now().AtTop(dev.Settled(), compute, load, layerId)
      && MainWork() && SideWork()
      && (layerId == 0 || layerId > numLayers ==> dev.side == [])
      && bufferMapping == (if layerId >= 2 then map[(layerId - 2) as nat := compute] else map[])
    }

    lemma WritesNoTensor(op: Op, m: Memory<R>)
      requires Fits(op, ShapeOf(m)) && op.SetPositions?
      ensures Untouched(m, Exec(dev.num, op, m))
    {
    }

    lemma UntouchedStep(a: Memory<R>, b: Memory<R>, c: Memory<R>)
      requires Untouched(a, b) && Untouched(b, c)
      ensures Untouched(a, c)
    {
    }

    /** The memory objects a load reads are not among what it writes. */
    lemma SameChunks(was: Memory<R>, now: Memory<R>, objs: seq<MemObj>)
      requires job.WellFormed() && Untouched(was, now) && Deliverable(objs) && ShapeOf(was) == ShapeOf(now) == dev.Shp()
      ensures forall j :: 0 <= j < |objs| ==> objs[j].id < |was.tensors| && objs[j].id < |now.tensors|
      ensures ChunksOf(was, objs) == ChunksOf(now, objs)
    {
      assert |ShapeOf(was).rows| == |was.tensors|;
    }

    /** Up to the last layer, nothing that waits at a yield reads a memory object any
        more: the copies of every delivered layer have completed. */
    lemma NoCopyWaiting()
      requires Valid() && layerId <= numLayers
      ensures forall op <- dev.main + dev.side, t: nat :: !Reads(op, Tensor(t))
    {
      assert dev.main + dev.side == dev.main;
    }

    constructor (dev: Device<R>, job: Job, buffer0: nat, buffer1: nat)
      ensures this.dev == dev && this.job == job && numLayers == |job.kv|
      ensures phase == Created && compute == this.buffer0 == buffer0 && load == this.buffer1 == buffer1
      ensures layerId == 0 && yieldCount == 0 && sent == [] && bufferMapping == map[]
    {
      this.dev, this.job, this.numLayers, this.buffer0, this.buffer1 := dev, job, |job.kv|, buffer0, buffer1;
      compute, load, bufferMapping, gaps, layerId := buffer0, buffer1, map[], {}, 0;
      phase, yieldCount, sent, orig := Created, 0, [], [];
    }

    /** The flush at the head of iteration `layerId`. */
    method Flush()
      requires Top() && layerId >= 2
      modifies `bufferMapping, dev, dev.Arrays()
      ensures Layout() && Now().AfterFlush(dev.Settled(), compute, load, layerId)
      ensures Untouched(old(dev.Settled()), dev.Settled())
      ensures bufferMapping == map[] && (old(dev.side) == [] ==> dev.side == [])
    {
      hide Flight.Ok, Flight.Roomy, Flight.AtTop, Flight.AfterFlush, Flight.AtYield, Flight.Copying;
      hide Exec, Fits, ShapeOf, Device.Valid, Device.Settled, Device.Contents, Device.Shp;
      ghost var m := dev.Settled();
      Now().FlushStep(m, compute, load, layerId);
      var op := Scatter(job.kv[layerId - 2], bufferMapping[layerId - 2], job.Window());
      ExecFrame(dev.num, op, m);
      dev.Launch(Main, op);
      bufferMapping := bufferMapping - {layerId - 2};
    }

    /** Synchronise, swap the buffers, re-encode layer `layerId - 1` and publish its buffer. */
    method Reencode()
      requires Layout() && Now().AfterFlush(dev.Settled(), compute, load, layerId)
      requires 1 <= layerId <= numLayers && bufferMapping == map[]
      modifies `compute, `load, `bufferMapping, dev, dev.Arrays()
      ensures Layout() && dev.side == [] && MainWork() && TableCleared()
      ensures Untouched(old(dev.Settled()), dev.Settled())
      ensures Now().AtYield(dev.Settled(), compute, load, layerId)
      ensures bufferMapping == map[(layerId - 1) as nat := compute]
    {
      hide Flight.Ok, Flight.Roomy, Flight.AtTop, Flight.AfterFlush, Flight.AtYield, Flight.Copying;
      hide Exec, Fits, ShapeOf, Device.Valid, Device.Settled, Device.Contents, Device.Shp;
      Now().ReencodeStep(dev.Settled(), compute, load, layerId);
      dev.Synchronize();
      compute, load := load, compute;
      ghost var m := dev.Settled();
      ExecFrame(dev.num, Rope(compute, job.Base()), m);
      dev.Launch(Main, Rope(compute, job.Base()));
      if gaps != {} {
        ExecFrame(dev.num, ZeroRows(compute, gaps), dev.Settled());
        dev.Launch(Main, ZeroRows(compute, gaps));
      }
      bufferMapping := bufferMapping[layerId - 1 := compute];
    }

    /** From the top of iteration `layerId` to the yield inside it. */
    method Advance()
      requires Top()
      modifies this, dev, dev.Arrays()
      ensures Valid() && unchanged(`layerId, `sent, `orig, `gaps)
      ensures Untouched(old(dev.Settled()), dev.Settled())
      ensures layerId == 0 ==> dev.main == old(dev.main)
    {
      hide Flight.Ok, Flight.Roomy, Flight.AtTop, Flight.AfterFlush, Flight.AtYield, Flight.Copying;
      hide Exec, Fits, ShapeOf, Device.Valid, Device.Settled, Device.Contents, Device.Shp;
      Now().SkippedStages(dev.Settled(), compute, load, layerId);
      if layerId > 1 {
        Flush();
      }
      Now().SkippedStages(dev.Settled(), compute, load, layerId);
      if layerId > 0 && layerId <= numLayers {
        Reencode();
      }
      Suspend();
    }

    /** The yield that iteration `layerId` reaches. */
    method Suspend()
      requires Layout() && dev.side == [] && yieldCount == layerId && (layerId <= numLayers ==> MainWork())
      requires 1 <= layerId <= numLayers ==> TableCleared()
      requires Now().AtYield(dev.Settled(), compute, load, layerId)
      requires bufferMapping == (if 1 <= layerId <= numLayers then map[(layerId - 1) as nat := compute] else map[])
      modifies `phase, `yieldCount
      ensures Valid()
    {
      hide Flight.Ok, Flight.Roomy, Flight.AtTop, Flight.AfterFlush, Flight.Copying;
      hide Exec, Fits, ShapeOf, Device.Valid, Device.Settled, Device.Contents, Device.Shp;
      if layerId < numLayers {
        phase := AwaitLayer;
      } else if layerId == numLayers {
        phase := LastLayerSent;
      } else {
        // the buffers go back to their allocator; the source asserts the mapping is empty here
        assert |bufferMapping| == 0;
        phase := Finished;
      }
      yieldCount := yieldCount + 1;
    }

    /** Before the first resume: nothing waits on the device, the two buffers match the
        request's window, and the paged caches hold its slots. */
    ghost predicate CanStart()
      reads this, dev, dev.Arrays()
      ensures CanStart() ==> dev.Valid() && forall l :: 0 <= l < |job.kv| ==> job.kv[l] < |dev.tensors|
    {
      && phase == Created && Buffers() && yieldCount == 0 && layerId == 0 && sent == [] && bufferMapping == map[]
      && Separate() && dev.Valid() && dev.main == [] && dev.side == [] && numLayers == |job.kv|
      && (forall l :: 0 <= l < |job.kv| ==> job.kv[l] < |dev.Shp().rows|)
      && var f := Flight(dev.num, job, PagedLayers(dev.Settled(), job.kv), []);
         f.Ok() && f.Roomy(dev.Shp(), compute, load)
    }

    /** First resume: set up the window, the gaps and the zeroed position table. The zero
        fill may or may not have run when the generator is suspended; on a lazy device it has not. */
    method Start()
      requires CanStart()
      modifies this, dev, dev.Arrays()
      ensures Valid() && layerId == 0 && sent == []
      ensures Untouched(old(dev.Settled()), dev.Settled())
      ensures orig == old(PagedLayers(dev.Settled(), job.kv))
      ensures dev.main == (if ClearWaits() then [ClearOp(job)] else []) && (dev.lazy ==> ClearWaits())
    {
      hide Flight.Ok, Flight.Roomy, Flight.AtTop, Flight.AfterFlush, Flight.AtYield, Flight.Copying;
      hide Exec, Fits, ShapeOf, Device.Valid, Device.Settled, Device.Contents, Device.Shp, Left, ClearOp;
      Enter();
      ClearTable();
      AllOrNone(dev.main, ClearOp(job), dev.lazy);
      Advance();
    }

    /** Nothing waits on the current stream but possibly the zero fill: is it still there? */
    predicate ClearWaits()
      reads dev
    {
      dev.main != []
    }

    /** The window, the gaps and the table are allocated; the zero fill comes next. */
    ghost predicate Entered()
      reads this, dev, dev.Arrays()
    {
      && Layout() && yieldCount == layerId == 0 && bufferMapping == map[] && dev.main == [] && dev.side == []
      && Fits(ClearOp(job), dev.Shp())
      && Now().AtTop(Exec(dev.num, ClearOp(job), dev.Settled()), compute, load, 0)
    }

    method Enter()
      requires CanStart()
      modifies `orig, `gaps
      ensures Entered() && sent == [] && orig == PagedLayers(dev.Settled(), job.kv)
    {
      hide Flight.Ok, Flight.Roomy, Flight.AtTop, Flight.AfterFlush, Flight.AtYield, Flight.Copying;
      hide Exec, Fits, Device.Valid, Device.Settled, Device.Contents;
      orig := PagedLayers(dev.Settled(), job.kv);
      Now().StartStep(dev.Settled(), compute, load);
      gaps := GapPositions(job);
    }

    method ClearTable()
      requires Entered()
      modifies dev, dev.Arrays()
      ensures Top() && layerId == 0 && Untouched(old(dev.Settled()), dev.Settled())
      ensures Left(dev.main, [ClearOp(job)], dev.lazy)
    {
      hide Flight.Ok, Flight.Roomy, Flight.AtTop, Flight.AfterFlush, Flight.AtYield, Flight.Copying;
      hide Exec, Fits, ShapeOf, Device.Valid, Device.Settled, Device.Contents;
      hide Device.Shp, Left, ClearOp, Job.WellFormed, Untouched, Top;
      ghost var op := ClearOp(job);
      ClearIsFill(job);
      WritesNoTensor(op, dev.Settled());
      dev.Issue(Main, ClearOp(job));
      OnlyOne(dev.main, op, dev.lazy);
      NoneLeft(dev.side, dev.lazy);
      FirstTop();
    }

    lemma FirstTop()
      requires Layout() && yieldCount == layerId == 0 && bufferMapping == map[] && dev.side == []
      requires Now().AtTop(dev.Settled(), compute, load, 0) && forall op <- dev.main :: op == ClearOp(job)
      ensures Top()
    {
      hide Flight.Ok, Flight.Roomy, Flight.AtTop, Device.Valid, Device.Settled, Device.Shp;
      ClearIsFill(job);
    }

    /** Time passes between two resumes: the device runs what it likes. */
    method Elapse()
      requires Valid()
      modifies dev, dev.Arrays()
      ensures Valid() && dev.Settled() == old(dev.Settled())
      ensures Left(dev.main, old(dev.main), dev.lazy)
    {
      hide Flight.Ok, Flight.Roomy, Flight.AtTop, Flight.AfterFlush, Flight.AtYield, Flight.Copying;
      hide Exec, Fits, ShapeOf, Device.Valid, Device.Settled, Device.Contents, Device.Shp, Left;
      hide ClearOf, Independent, RaceFree, AllFit, Job.WellFormed, Job.Gaps, Job.Covered, Job.InjectiveSlots;
      hide Job.Tokens, Job.Window, Within, Touches, SameWrites, Disjoint, Reads, Written, ClearOp;
      ghost var was := dev.main;
      dev.Progress();
      LeftAmong(dev.main, was, dev.lazy);
      NoneLeft(dev.side, dev.lazy);
    }

    /** The objects of one layer: one host tensor per chunk, of the chunk's length. */
    ghost predicate Deliverable(objs: seq<MemObj>)
      requires job.WellFormed()
    {
      && |objs| == |job.starts|
      && forall j :: 0 <= j < |objs| ==>
           && objs[j].id < |dev.Shp().rows| && objs[j].id != buffer0 && objs[j].id != buffer1 && objs[j].id !in job.kv
           && dev.Shp().rows[objs[j].id] == |objs[j].cached| == job.ends[j] - job.starts[j]
    }

    /** The zero fill of the position table cannot spoil a delivery of these objects. */
    predicate Calm(objs: seq<MemObj>)
      reads dev
    {
      dev.main == [] || ZeroCached(objs)
    }

    lemma CalmWrites(objs: seq<MemObj>, j: nat)
      requires job.WellFormed() && j < |objs| == |job.starts| && Calm(objs) && layerId == 0 && MainWork()
      ensures ClearOf(PositionsOp(job, objs[j].cached, j), dev.main)
    {
    }

    /** Resume with the memory objects of layer `layerId`. At layer 0 the position table must
        no longer wait to be cleared, or get nothing but zeros: see `FirstDelivery`. */
    method Send(objs: seq<MemObj>)
      requires Valid() && phase.AwaitLayer?
      requires Deliverable(objs)
      requires layerId == 0 ==> Calm(objs)
      modifies this, dev, dev.Arrays()
      ensures Valid() && layerId == old(layerId) + 1 && orig == old(orig)
      ensures Untouched(old(dev.Settled()), dev.Settled())
      ensures Deliverable(objs) && sent == old(sent) + [old(ChunksOf(dev.Settled(), objs))]
    {
      hide Flight.Ok, Flight.Roomy, Flight.AtTop, Flight.AfterFlush, Flight.AtYield, Flight.Copying;
      hide Exec, Fits, Device.Valid, Device.Settled, Device.Contents;
      ghost var chunks := ChunksOf(dev.Settled(), objs);
      Now().CopyStart(dev.Settled(), compute, load, layerId, chunks);
      CopyLayer(objs, chunks);
      Received(chunks);
      Advance();
    }

    method Received(ghost chunks: seq<Chunk<R>>)
      requires Layout() && yieldCount == layerId + 1 && layerId < numLayers
      requires Now().Copying(dev.Settled(), compute, load, layerId, chunks, |chunks|)
      requires MainWork() && SideWork()
      requires bufferMapping == (if layerId >= 1 then map[(layerId - 1) as nat := compute] else map[])
      modifies `sent, `layerId
      ensures Top() && layerId == old(layerId) + 1 && sent == old(sent) + [chunks]
    {
      hide Flight.Ok, Flight.Roomy, Flight.AtTop, Flight.AfterFlush, Flight.AtYield, Flight.Copying;
      hide Exec, Fits, Device.Valid, Device.Settled, Device.Contents;
      ghost var f := Now();
      f.CopiedStep(dev.Settled(), compute, load, layerId, chunks);
      sent := sent + [chunks];
      layerId := layerId + 1;
      assert Now() == f.(sent := f.sent + [chunks]);
    }

    method CopyLayer(objs: seq<MemObj>, ghost chunks: seq<Chunk<R>>)
      requires Layout() && Deliverable(objs) && |chunks| == |objs|
      requires Now().Copying(dev.Settled(), compute, load, layerId, chunks, 0)
      requires ChunksOf(dev.Settled(), objs) == chunks
      requires MainWork() && SideWork() && (layerId == 0 ==> Calm(objs))
      modifies dev, dev.Arrays()
      ensures Layout() && Now().Copying(dev.Settled(), compute, load, layerId, chunks, |objs|)
      ensures Untouched(old(dev.Settled()), dev.Settled())
      ensures ChunksOf(dev.Settled(), objs) == chunks
      ensures MainWork() && SideWork() && (layerId == 0 ==> Calm(objs))
    {
      hide Flight.Ok, Flight.Roomy, Flight.AtTop, Flight.AfterFlush, Flight.AtYield, Flight.Copying;
      hide Exec, Fits, Device.Valid, Device.Settled, Device.Contents;
      for j := 0 to |objs|
        invariant Layout() && Now().Copying(dev.Settled(), compute, load, layerId, chunks, j)
        invariant ChunksOf(dev.Settled(), objs) == chunks && Untouched(old(dev.Settled()), dev.Settled())
        invariant MainWork() && SideWork() && (layerId == 0 ==> Calm(objs))
      {
        CopyIn(objs, chunks, j);
      }
    }

    /** The non-blocking copies of chunk j on the load stream. */
    method CopyIn(objs: seq<MemObj>, ghost chunks: seq<Chunk<R>>, j: nat)
      requires Layout() && Deliverable(objs) && j < |objs| && |chunks| == |objs|
      requires Now().Copying(dev.Settled(), compute, load, layerId, chunks, j)
      requires ChunksOf(dev.Settled(), objs) == chunks
      requires MainWork() && SideWork() && (layerId == 0 ==> Calm(objs))
      modifies dev, dev.Arrays()
      ensures Layout() && Now().Copying(dev.Settled(), compute, load, layerId, chunks, j + 1)
      ensures Untouched(old(dev.Settled()), dev.Settled())
      ensures ChunksOf(dev.Settled(), objs) == chunks
      ensures MainWork() && SideWork() && (layerId == 0 ==> Calm(objs))
    {
      hide Flight.Ok, Flight.Roomy, Flight.AtTop, Flight.AfterFlush, Flight.AtYield, Flight.Copying;
      hide Exec, Fits, Device.Valid, Device.Settled, Device.Contents;
      ghost var m := dev.Settled();
      assert ChunksOf(m, objs)[j] == chunks[j];
      Now().CopyStep(m, compute, load, layerId, chunks, j, objs[j].id);
      dev.Launch(Side, CopyOp(job, load, objs[j].id, j, KeyPart));
      dev.Launch(Side, CopyOp(job, load, objs[j].id, j, ValuePart));
      if layerId == 0 {
        CalmWrites(objs, j);
        dev.Launch(Side, PositionsOp(job, objs[j].cached, j));
      }
    }

    /** Resume at the bare yield: flush the last layer and finish. */
    method Next()
      requires Valid() && phase.LastLayerSent?
      modifies this, dev, dev.Arrays()
      ensures Valid() && phase.Finished? && sent == old(sent) && orig == old(orig)
      ensures Untouched(old(dev.Settled()), dev.Settled())
      ensures bufferMapping == map[] && yieldCount == numLayers + 2
      ensures Now().Loaded(dev.Settled(), numLayers)
    {
      hide Flight.Ok, Flight.Roomy, Flight.AtTop, Flight.AfterFlush, Flight.AtYield, Flight.Copying;
      hide Exec, Fits, ShapeOf, Device.Valid, Device.Settled, Device.Contents, Device.Shp;
      Now().LastYield(dev.Settled(), compute, load);
      layerId := layerId + 1;
      Advance();
      Now().LastYield(dev.Settled(), compute, load);
    }
  }

  ghost function ChunksOf<R>(m: Memory<R>, objs: seq<MemObj>): (r: seq<Chunk<R>>)
    requires forall j :: 0 <= j < |objs| ==> objs[j].id < |m.tensors|
  {
    seq(|objs|, j requires 0 <= j < |objs| => Chunk(m.tensors[objs[j].id], objs[j].cached))
  }
}
