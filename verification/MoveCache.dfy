/** Storing every layer and loading it back through another slot mapping. */
module MoveCache {
  import opened DeviceStreams
  import opened LoadJob
  import LayerStore
  import LayerLoad

  type KVRows<R> = seq<KV<R>>

  predicate IsPart<T(==)>(whole: seq<T>, range: (int, int), part: seq<T>) {
    0 <= range.0 <= range.1 <= |whole| && part == whole[range.0..range.1]
  }

  /** Cutting a row list along end-to-end ranges and joining the parts gives it back. */
  lemma {:induction false} FlatOfTiles<R>(job: LayerLoad.PagedJob, whole: KVRows<R>, parts: seq<KVRows<R>>, k: nat)
    requires job.Tiles() && |whole| == |job.window| && |parts| == |job.ranges| && k <= |parts|
    requires forall j :: 0 <= j < |parts| ==> IsPart(whole, job.ranges[j], parts[j])
    ensures 0 <= job.Upto(k) <= |whole| && LayerLoad.Flat(parts[..k]) == whole[..job.Upto(k)]
  {
    hide LayerLoad.Flat, IsPart;
    LayerLoad.FlatEmpty<KV<R>>();
    if k > 0 {
      FlatOfTiles(job, whole, parts, k - 1);
      CutAt(whole, job.ranges[k - 1], parts[k - 1]);
      assert parts[..k] == parts[..k - 1] + [parts[k - 1]];
      LayerLoad.FlatAppend(parts[..k - 1], parts[k - 1]);
    }
  }

  lemma CutAt<T>(whole: seq<T>, range: (int, int), part: seq<T>)
    requires IsPart(whole, range, part)
    ensures 0 <= range.0 <= range.1 <= |whole| && whole[..range.0] + part == whole[..range.1]
  {
  }

  /** One layer: gathered through `from`, cut into chunks, joined and scattered through
      the injective `to`, every token's row is in its new slot and nothing else moved. */
  lemma LayerMoved<R>(job: LayerLoad.PagedJob, from: seq<nat>, before: KVRows<R>, parts: seq<KVRows<R>>)
    requires job.Tiles() && |from| == |job.window| && Within(from, |before|) && Within(job.window, |before|)
    requires Injective(job.window) && |parts| == |job.ranges|
    requires forall j :: 0 <= j < |parts| ==> IsPart(GatherRows(before, from), job.ranges[j], parts[j])
    ensures |LayerLoad.Flat(parts)| == |job.window|
    ensures Moved(before, ScatterRows(before, LayerLoad.Flat(parts), job.window), from, job.window)
  {
    hide IsPart, LayerLoad.Flat, ScatterRows;
    var whole := GatherRows(before, from);
    FlatOfTiles(job, whole, parts, |parts|);
    assert parts[..|parts|] == parts && whole[..|whole|] == whole;
    ScatterInjective(before, whole, job.window);
  }

  ghost predicate Moved<R>(before: KVRows<R>, after: KVRows<R>, from: seq<nat>, to: seq<nat>)
    requires |from| == |to| && Within(from, |before|) && Within(to, |before|)
  {
    && |after| == |before|
    && (forall i :: 0 <= i < |to| ==> after[to[i]] == before[from[i]])
    && (forall s :: 0 <= s < |before| && s !in to ==> after[s] == before[s])
  }

  /** Both generators run to their end over the same staging buffer. */
  class Mover<R(0)> {
    const dev: Device<R>
    const out: LayerStore.StoreJob
    const back: LayerLoad.PagedJob

    constructor (dev: Device<R>, out: LayerStore.StoreJob, back: LayerLoad.PagedJob)
      ensures this.dev == dev && this.out == out && this.back == back
    {
      this.dev, this.out, this.back := dev, out, back;
    }

    ghost predicate Ready()
      reads dev, dev.Arrays()
      ensures Ready() ==> forall l :: 0 <= l < |out.kv| ==> out.kv[l] < |dev.tensors|
    {
      && dev.Valid()
      && out.WellFormed(dev.Shp()) && back.WellFormed(dev.Shp())
      && out.kv == back.kv && out.ranges == back.ranges && out.staging == back.staging
      && |out.window| == |back.window| && Injective(back.window)
    }

    /** Every layer of the request is in its chunks' memory objects, the caches are as before. */
    method StoreAll() returns (ghost orig: seq<KVRows<R>>)
      requires Ready()
      modifies dev, dev.Arrays()
      ensures Ready() && dev.main == [] && dev.side == [] && out.Stored(dev.Settled(), orig, |out.kv|, 0)
      ensures orig == old(PagedLayers(dev.Settled(), out.kv))
    {
      var gen := new LayerStore.Generator<R>(dev, out);
      gen.Start();
      while gen.phase.Suspended?
        invariant fresh(gen) && gen.dev == dev && gen.job == out && gen.Valid()
        invariant gen.orig == old(PagedLayers(dev.Settled(), out.kv))
        decreases |out.kv| - gen.layerId
      {
        gen.Resume();
      }
      orig := gen.orig;
      dev.Synchronize();
    }

    /** What was sent for the layers so far is what the store put in their objects. */
    ghost predicate SentAsStored(orig: seq<KVRows<R>>, sent: seq<seq<KVRows<R>>>)
      requires |sent| <= |orig|
      requires forall l :: 0 <= l < |orig| ==> Within(out.window, |orig[l]|)
      requires forall j :: 0 <= j < |out.ranges| ==> 0 <= out.ranges[j].0 <= out.ranges[j].1 <= |out.window|
    {
      forall l :: 0 <= l < |sent| ==>
        |sent[l]| == |out.ranges| && forall j :: 0 <= j < |out.ranges| ==> sent[l][j] == out.ChunkRows(orig, l, j)
    }

    /** The objects still hold every layer. */
    ghost predicate ObjectsFull(m: Memory<R>, orig: seq<KVRows<R>>)
      requires out.WellFormed(ShapeOf(m)) && |orig| == |out.kv|
      requires forall l :: 0 <= l < |orig| ==> Within(out.window, |orig[l]|)
    {
      forall l, j :: 0 <= l < |out.objs| && 0 <= j < |out.objs[l]| ==>
        out.objs[l][j] < |m.tensors| && m.tensors[out.objs[l][j]] == out.ChunkRows(orig, l, j)
    }

    lemma StoredIsFull(m: Memory<R>, orig: seq<KVRows<R>>)
      requires out.WellFormed(ShapeOf(m)) && out.Stored(m, orig, |out.kv|, 0)
      ensures |orig| == |out.kv| && forall l :: 0 <= l < |orig| ==> Within(out.window, |orig[l]|)
      ensures ObjectsFull(m, orig)
    {
      assert forall l :: 0 <= l < |orig| ==> ShapeOf(m).rows[out.kv[l]] == |orig[l]|;
      assert forall l :: 0 <= l < |out.objs| ==> |out.objs[l]| == |out.ranges|;
    }

    lemma StillFull(m: Memory<R>, r: Memory<R>, orig: seq<KVRows<R>>)
      requires out.WellFormed(ShapeOf(m)) && ShapeOf(r) == ShapeOf(m) && |orig| == |out.kv|
      requires out.kv == back.kv && out.staging == back.staging
      requires forall l :: 0 <= l < |orig| ==> Within(out.window, |orig[l]|)
      requires ObjectsFull(m, orig) && LayerLoad.Untouched(m, r, back)
      ensures ObjectsFull(r, orig)
    {
      forall l, j | 0 <= l < |out.objs| && 0 <= j < |out.objs[l]|
        ensures r.tensors[out.objs[l][j]] == m.tensors[out.objs[l][j]]
      {
        assert out.HostTensor(ShapeOf(m), out.objs[l][j], j);
      }
    }

    lemma SentNext(m: Memory<R>, orig: seq<KVRows<R>>, sent: seq<seq<KVRows<R>>>, l: nat)
      requires out.WellFormed(ShapeOf(m)) && |orig| == |out.kv| && l == |sent| < |orig|
      requires forall l :: 0 <= l < |orig| ==> Within(out.window, |orig[l]|)
      requires ObjectsFull(m, orig) && SentAsStored(orig, sent)
      ensures forall j :: 0 <= j < |out.objs[l]| ==> out.objs[l][j] < |m.tensors|
      ensures SentAsStored(orig, sent + [PagedLayers(m, out.objs[l])])
    {
      assert |out.objs[l]| == |out.ranges|;
      var rows := PagedLayers(m, out.objs[l]);
      forall j | 0 <= j < |out.ranges| ensures rows[j] == out.ChunkRows(orig, l, j) {
        assert out.objs[l][j] < |m.tensors| && m.tensors[out.objs[l][j]] == out.ChunkRows(orig, l, j);
      }
    }

    lemma AllMoved(m: Memory<R>, orig: seq<KVRows<R>>, sent: seq<seq<KVRows<R>>>)
      requires out.WellFormed(ShapeOf(m)) && back.WellFormed(ShapeOf(m))
      requires out.kv == back.kv && out.ranges == back.ranges && |out.window| == |back.window| && Injective(back.window)
      requires back.Loaded(m, orig, sent, |back.kv|) && |sent| == |orig|
      requires forall l :: 0 <= l < |orig| ==> Within(out.window, |orig[l]|)
      requires SentAsStored(orig, sent)
      ensures forall l :: 0 <= l < |out.kv| ==>
                && Within(back.window, |orig[l]|)
                && Moved(orig[l], m.tensors[out.kv[l]], out.window, back.window)
    {
      forall l | 0 <= l < |out.kv|
        ensures Within(back.window, |orig[l]|) && Moved(orig[l], m.tensors[out.kv[l]], out.window, back.window)
      {
        LayerMoved(back, out.window, orig[l], sent[l]);
      }
    }

    /** Load every layer back from the objects it was stored in. */
    method LoadAll(ghost orig: seq<KVRows<R>>)
      requires Ready() && dev.main == [] && out.Stored(dev.Settled(), orig, |out.kv|, 0)
      modifies dev, dev.Arrays()
      ensures dev.Valid()
      ensures |orig| == |out.kv| && forall l :: 0 <= l < |out.kv| ==>
                && Within(out.window, |orig[l]|) && Within(back.window, |orig[l]|)
                && Moved(orig[l], dev.Settled().tensors[out.kv[l]], out.window, back.window)
    {
      hide LayerStore.StoreJob.Stored, LayerLoad.PagedJob.Loaded, Device.Settled, Device.Contents;
      hide Moved, LayerLoad.Untouched, Left, LayerLoad.PagedJob.Issues;
      StoredIsFull(dev.Settled(), orig);
      var gen := new LayerLoad.Loader<R>(dev, back);
      gen.Start();
      assert gen.orig == orig by { PagedAsBefore(dev.Settled(), orig); }
      while gen.phase.AwaitLayer?
        invariant fresh(gen) && gen.dev == dev && gen.job == back && gen.Valid() && !gen.phase.Finished?
        invariant dev.main == []
        invariant gen.orig == orig && |gen.sent| <= |orig|
        invariant SentAsStored(orig, gen.sent) && ObjectsFull(dev.Settled(), orig)
        decreases |out.kv| - gen.layerId
      {
        ghost var m := dev.Settled();
        SentNext(m, orig, gen.sent, gen.layerId);
        out.ObjectsApart(dev.Shp());
        gen.Send(out.objs[gen.layerId]);
        StillFull(m, dev.Settled(), orig);
      }
      gen.Next();
      AllMoved(dev.Settled(), orig, gen.sent);
    }

    lemma PagedAsBefore(m: Memory<R>, orig: seq<KVRows<R>>)
      requires out.WellFormed(ShapeOf(m)) && out.Stored(m, orig, |out.kv|, 0)
      requires forall l :: 0 <= l < |out.kv| ==> out.kv[l] < |m.tensors|
      ensures PagedLayers(m, out.kv) == orig
    {
    }

    /** For any number of layers: a token's rows end in its new slot, all other slots keep theirs. */
    method Move()
      requires Ready()
      modifies dev, dev.Arrays()
      ensures dev.Valid() && dev.main == [] && dev.side == []
      ensures forall l :: 0 <= l < |out.kv| ==>
                var before := old(dev.Settled()).tensors[out.kv[l]];
                && Within(out.window, |before|) && Within(back.window, |before|)
                && Moved(before, dev.Contents().tensors[out.kv[l]], out.window, back.window)
    {
      hide Moved;
      ghost var orig := StoreAll();
      LoadAll(orig);
      dev.Synchronize();
    }
  }
}
