/** `store_layer` and `retrieve_layer` of the cache engine: generators that drive a
    connector's generator one layer per resume. Each method here is one resume; its
    precondition on the connector is exactly "not exhausted". */
module LayerwiseEngine {
  import opened DeviceStreams
  import opened LoadJob
  import LayerStore
  import BufferedLoader

  /** One `batched_put`: the layer and the rows its memory objects held when it was put. */
  datatype PutRecord<R> = PutRecord(layer: nat, rows: seq<seq<KV<R>>>)

  datatype StorePhase = Fresh | BetweenLayers | StoreDone

  class StoreLayer<R(0)> {
    const gen: LayerStore.Generator<R>
    var phase: StorePhase
    var layer: nat
    var yieldCount: nat
    var puts: seq<PutRecord<R>>

    constructor (gen: LayerStore.Generator<R>)
      ensures this.gen == gen && phase == Fresh && layer == 0 && yieldCount == 0 && puts == []
    {
      this.gen := gen;
      phase, layer, yieldCount, puts := Fresh, 0, 0, [];
    }

    ghost function NumLayers(): nat { |gen.job.kv| }

    ghost predicate Separate() {
      gen != (this as object) && gen.dev != (this as object) && (this as object) !in gen.dev.Arrays()
    }

    /** With `sync`, a put hands over exactly what the paged cache held for its layer. */
    ghost predicate Faithful(p: PutRecord<R>)
      reads gen
    {
      && |p.rows| == |gen.job.ranges|
      && (gen.job.sync ==> forall j :: 0 <= j < |p.rows| ==> gen.HoldsChunk(p.rows[j], p.layer, j))
    }

    /** Layers 0, 1, ... have been put once each, in order. */
    ghost predicate PutsInOrder()
      reads this, gen
    {
      && |puts| == layer
      && forall i :: 0 <= i < |puts| ==> puts[i].layer == i && Faithful(puts[i])
    }

    ghost predicate Valid()
      reads this, gen, gen.dev, gen.dev.Arrays()
    {
      && Separate() && phase != Fresh && gen.Valid()
      && layer == gen.layerId
      && (phase.BetweenLayers? <==> gen.phase.Suspended?)
      && yieldCount == layer + 1
      && PutsInOrder()
    }

    /** First resume: prime the connector's generator and stop at the first yield. */
    method Start()
      requires Separate() && phase == Fresh && layer == 0 && yieldCount == 0 && puts == []
      requires gen.Layout() && gen.phase == LayerStore.Created && gen.layerId == 0 && gen.yieldCount == 0
      modifies this, gen, gen.dev, gen.dev.Arrays()
      ensures Valid() && gen.orig == old(PagedLayers(gen.dev.Settled(), gen.job.kv))
    {
      gen.Start();
      phase := if gen.phase.Suspended? then BetweenLayers else StoreDone;
      yieldCount := 1;
    }

    /** A later resume: let the connector finish this layer and issue the next, then put it. */
    method Resume()
      requires Valid() && phase.BetweenLayers?
      modifies this, gen, gen.dev, gen.dev.Arrays()
      ensures Valid() && layer == old(layer) + 1 && old(puts) <= puts && gen.orig == old(gen.orig)
      ensures phase.StoreDone? <==> layer == NumLayers()
    {
      hide Device.Valid, Device.Settled, GatherRows;
      gen.Resume();
      Put(layer);
      layer := layer + 1;
      phase := if layer < |gen.job.kv| then BetweenLayers else StoreDone;
      yieldCount := yieldCount + 1;
    }

    /** `batched_put`: the storage manager reads the layer's memory objects now. */
    method Put(l: nat)
      requires Separate() && gen.Valid() && l < gen.layerId
      modifies `puts
      ensures |puts| == |old(puts)| + 1 && old(puts) <= puts && puts[|puts| - 1].layer == l
      ensures Faithful(puts[|puts| - 1])
    {
      hide LayerStore.StoreJob.Stored, Device.Valid, Device.Settled, GatherRows;
      assert |gen.job.objs[l]| == |gen.job.ranges|;
      var rows := ReadTensors(gen.dev, gen.job.objs[l]);
      ghost var rec := PutRecord(l, rows);
      assert Faithful(rec) by {
        if gen.job.sync {
          forall j | 0 <= j < |rows| ensures gen.HoldsChunk(rows[j], l, j) {
            gen.SyncedObject(l, j);
          }
        }
      }
      puts := puts + [PutRecord(l, rows)];
    }
  }

  /** A whole request: every layer is put exactly once, in order, and with `sync` with
      the rows its chunks had in paged memory when the request began. */
  method StoreAll<R(0)>(eng: StoreLayer<R>)
    requires eng.Separate() && eng.phase == Fresh && eng.layer == 0 && eng.yieldCount == 0 && eng.puts == []
    requires eng.gen.Layout()
    requires eng.gen.phase == LayerStore.Created && eng.gen.layerId == 0 && eng.gen.yieldCount == 0
    modifies eng, eng.gen, eng.gen.dev, eng.gen.dev.Arrays()
    ensures eng.Valid() && eng.PutsInOrder() && |eng.puts| == eng.NumLayers()
    ensures eng.gen.phase.Finished? && eng.yieldCount == eng.gen.yieldCount == eng.NumLayers() + 1
    ensures eng.gen.orig == old(PagedLayers(eng.gen.dev.Settled(), eng.gen.job.kv))
  {
    eng.Start();
    while eng.phase.BetweenLayers?
      invariant eng.Valid()
      invariant eng.gen.orig == old(PagedLayers(eng.gen.dev.Settled(), eng.gen.job.kv))
      decreases eng.NumLayers() - eng.layer
    {
      eng.Resume();
    }
  }

  datatype RetrievePhase = NotStarted | WaitingForLayer | AllSent | RetrieveDone

  /** `retrieve_layer` over the buffered connector, for a request with hits. */
  class RetrieveLayer<R(0)> {
    const consumer: BufferedLoader.Loader<R>
    var phase: RetrievePhase
    var yieldCount: nat
    var toCountDown: seq<nat>
    var released: seq<nat>

    constructor (consumer: BufferedLoader.Loader<R>)
      ensures this.consumer == consumer && phase == NotStarted && yieldCount == 0 && toCountDown == [] && released == []
    {
      this.consumer := consumer;
      phase, yieldCount, toCountDown, released := NotStarted, 0, [], [];
    }

    ghost predicate Separate() {
      consumer != (this as object) && consumer.dev != (this as object) && (this as object) !in consumer.dev.Arrays()
    }

    /** The engine's position determines the connector's: it never meets an exhausted generator. */
    ghost predicate Valid()
      reads this, consumer, consumer.dev, consumer.dev.Arrays()
    {
      && Separate() && phase != NotStarted && consumer.Valid()
      && (phase.WaitingForLayer? <==> consumer.phase.AwaitLayer?)
      && (phase.AllSent? <==> consumer.phase.LastLayerSent?)
      && (phase.RetrieveDone? <==> consumer.phase.Finished?)
      && yieldCount == consumer.yieldCount
      && released == (if phase.WaitingForLayer? then [] else toCountDown)
    }

    /** Nothing waiting on the device reads a released memory object. */
    ghost predicate ReleasesSafe()
      reads this, consumer, consumer.dev
    {
      forall id <- released, op <- consumer.dev.main + consumer.dev.side :: !Reads(op, Tensor(id))
    }

    method Start()
      requires Separate() && phase == NotStarted && yieldCount == 0 && toCountDown == [] && released == []
      requires consumer.CanStart()
      modifies this, consumer, consumer.dev, consumer.dev.Arrays()
      ensures Valid() && toCountDown == [] && consumer.layerId == 0
      ensures consumer.Untouched(old(consumer.dev.Settled()), consumer.dev.Settled())
      ensures consumer.orig == old(PagedLayers(consumer.dev.Settled(), consumer.job.kv)) && consumer.sent == []
      ensures consumer.dev.main == (if consumer.ClearWaits() then [BufferedLoader.ClearOp(consumer.job)] else [])
      ensures consumer.dev.lazy ==> consumer.ClearWaits()
    {
      hide Left, BufferedLoader.ClearOp, BufferedLoader.Loader.Layout;
      hide BufferedLoader.Loader.Untouched, BufferedLoader.Loader.CanStart;
      hide BufferedLoader.Flight.AtYield, BufferedLoader.Flight.Ok, BufferedLoader.Flight.Roomy;
      hide Device.Valid, Device.Settled, Device.Contents;
      consumer.Start();
      phase := if consumer.phase.AwaitLayer? then WaitingForLayer else AllSent;
      yieldCount := 1;
    }

    /** The engine waits for the first layer to be fetched; meanwhile the device may run. */
    method AwaitFirst()
      requires Valid() && consumer.layerId == 0
      requires consumer.dev.main == (if consumer.ClearWaits() then [BufferedLoader.ClearOp(consumer.job)] else [])
      requires consumer.dev.lazy ==> consumer.ClearWaits()
      modifies consumer.dev, consumer.dev.Arrays()
      ensures Valid() && consumer.dev.Settled() == old(consumer.dev.Settled())
      ensures consumer.dev.main == (if consumer.ClearWaits() then [BufferedLoader.ClearOp(consumer.job)] else [])
      ensures consumer.dev.lazy ==> consumer.ClearWaits()
    {
      hide BufferedLoader.Loader.Valid, BufferedLoader.ClearOp, Left, Device.Valid, Device.Settled;
      ghost var was, op := consumer.dev.main, BufferedLoader.ClearOp(consumer.job);
      consumer.Elapse();
      if was == [op] {
        AllOrNone(consumer.dev.main, op, consumer.dev.lazy);
      } else {
        NoneLeft(consumer.dev.main, consumer.dev.lazy);
      }
    }

    /** A resume inside the layer loop: the layer's objects have been fetched and go to
        the connector; after the last layer every object is released. */
    method Deliver(objs: seq<BufferedLoader.MemObj>)
      requires Valid() && phase.WaitingForLayer? && consumer.Deliverable(objs)
      requires consumer.layerId == 0 ==> consumer.Calm(objs)
      modifies this, consumer, consumer.dev, consumer.dev.Arrays()
      ensures Valid() && consumer.layerId == old(consumer.layerId) + 1 && !phase.RetrieveDone?
      ensures consumer.Untouched(old(consumer.dev.Settled()), consumer.dev.Settled())
      ensures consumer.Deliverable(objs) && consumer.orig == old(consumer.orig)
      ensures consumer.sent == old(consumer.sent) + [old(BufferedLoader.ChunksOf(consumer.dev.Settled(), objs))]
      ensures toCountDown == old(toCountDown) + Ids(objs)
      ensures ReleasesSafe()
    {
      hide BufferedLoader.Loader.Layout, BufferedLoader.ChunksOf, Device.Valid, Device.Settled, Device.Contents, Reads;
      hide BufferedLoader.Flight.AtYield, BufferedLoader.Flight.Ok, BufferedLoader.Flight.Roomy;
      consumer.Send(objs);
      consumer.NoCopyWaiting();
      toCountDown := toCountDown + Ids(objs);
      if consumer.phase.LastLayerSent? {
        released := toCountDown;
        phase := AllSent;
      }
      yieldCount := yieldCount + 1;
    }

    /** The last resume: synchronise the last layer and return the mask. */
    method Finish()
      requires Valid() && phase.AllSent?
      modifies this, consumer, consumer.dev, consumer.dev.Arrays()
      ensures Valid() && phase.RetrieveDone? && yieldCount == consumer.numLayers + 2
      ensures consumer.Untouched(old(consumer.dev.Settled()), consumer.dev.Settled())
      ensures released == old(released) == toCountDown
      ensures consumer.sent == old(consumer.sent) && consumer.orig == old(consumer.orig)
      ensures consumer.Now().Loaded(consumer.dev.Settled(), consumer.numLayers)
    {
      hide BufferedLoader.Loader.Layout, BufferedLoader.Loader.Untouched, Device.Valid, Device.Settled, Device.Contents;
      hide BufferedLoader.Flight.AtYield, BufferedLoader.Flight.Ok;
      hide BufferedLoader.Flight.Roomy, BufferedLoader.Flight.Loaded;
      consumer.Next();
      phase := RetrieveDone;
      yieldCount := yieldCount + 1;
    }
  }

  /** All the ids delivered for the first k layers, in order. */
  function AllIds(fetched: seq<seq<BufferedLoader.MemObj>>, k: nat): (r: seq<nat>)
    requires k <= |fetched|
  {
    if k == 0 then [] else AllIds(fetched, k - 1) + Ids(fetched[k - 1])
  }

  method DeliverAll<R(0)>(eng: RetrieveLayer<R>, fetched: seq<seq<BufferedLoader.MemObj>>, ghost was: Memory<R>)
    requires eng.Valid() && eng.consumer.layerId == 0 && |fetched| == eng.consumer.numLayers
    requires (|fetched| > 0 ==> eng.consumer.Calm(fetched[0])) && eng.consumer.sent == [] && eng.toCountDown == []
    requires ShapeOf(was) == eng.consumer.dev.Shp() && eng.consumer.Untouched(was, eng.consumer.dev.Settled())
    requires forall l :: 0 <= l < |fetched| ==> eng.consumer.Deliverable(fetched[l])
    modifies eng, eng.consumer, eng.consumer.dev, eng.consumer.dev.Arrays()
    ensures eng.Valid() && eng.consumer.layerId == eng.consumer.numLayers && eng.consumer.orig == old(eng.consumer.orig)
    ensures eng.consumer.Untouched(was, eng.consumer.dev.Settled())
    ensures Fetched(eng.consumer, was, fetched, |fetched|)
    ensures eng.toCountDown == AllIds(fetched, |fetched|)
  {
    hide BufferedLoader.Loader.Layout, BufferedLoader.Loader.Untouched, BufferedLoader.ChunksOf;
    hide Device.Valid, Device.Settled, Device.Contents, Job.WellFormed, LayerLoaded, Matches;
    hide BufferedLoader.Flight.AtYield, BufferedLoader.Flight.Ok;
    hide BufferedLoader.Flight.Roomy, BufferedLoader.Flight.Loaded;
    hide BufferedLoader.Loader.MainWork, Left, Among, RaceFree, ClearOf, BufferedLoader.Loader.Separate;
    while eng.consumer.layerId < |fetched|
      invariant eng.Valid() && Underway(eng, fetched, was) && eng.consumer.orig == old(eng.consumer.orig)
      decreases |fetched| - eng.consumer.layerId
    {
      DeliverNext(eng, fetched, was);
    }
  }

  /** Part-way through the deliveries of a request that began with memory `was`. */
  ghost predicate Underway<R(0)>(eng: RetrieveLayer<R>, fetched: seq<seq<BufferedLoader.MemObj>>, was: Memory<R>)
    requires eng.Valid()
    reads eng, eng.consumer, eng.consumer.dev, eng.consumer.dev.Arrays()
  {
    var consumer := eng.consumer;
    && consumer.layerId <= |fetched| == consumer.numLayers && ShapeOf(was) == consumer.dev.Shp()
    && consumer.Untouched(was, consumer.dev.Settled())
    && Fetched(consumer, was, fetched, consumer.layerId)
    && eng.toCountDown == AllIds(fetched, consumer.layerId)
    && (consumer.layerId == 0 < |fetched| ==> consumer.Calm(fetched[0]))
    && forall l :: 0 <= l < |fetched| ==> consumer.Deliverable(fetched[l])
  }

  method DeliverNext<R(0)>(eng: RetrieveLayer<R>, fetched: seq<seq<BufferedLoader.MemObj>>, ghost was: Memory<R>)
    requires eng.Valid() && Underway(eng, fetched, was) && eng.consumer.layerId < |fetched|
    modifies eng, eng.consumer, eng.consumer.dev, eng.consumer.dev.Arrays()
    ensures eng.Valid() && Underway(eng, fetched, was)
    ensures eng.consumer.layerId == old(eng.consumer.layerId) + 1 && eng.consumer.orig == old(eng.consumer.orig)
  {
    hide BufferedLoader.Loader.Layout, BufferedLoader.Loader.Untouched, BufferedLoader.ChunksOf;
    hide Device.Valid, Device.Settled, Device.Contents, Job.WellFormed, LayerLoaded, Matches;
    hide BufferedLoader.Flight.AtYield, BufferedLoader.Flight.Ok;
    hide BufferedLoader.Flight.Roomy, BufferedLoader.Flight.Loaded;
    var consumer := eng.consumer;
    var l := consumer.layerId;
    ghost var m := consumer.dev.Settled();
    consumer.SameChunks(was, m, fetched[l]);
    eng.Deliver(fetched[l]);
    consumer.UntouchedStep(was, m, consumer.dev.Settled());
  }

  /** A whole request, for any number of layers, while the device runs what it likes. If the
      zero fill of the position table has run when the first layer arrives, or all its cached
      positions are zero, each paged layer ends as the sequential load of what was fetched for
      it, no other tensor outside the two buffers changes, every fetched object is released
      once and in order, and the generators are resumed exactly as often as they yield.
      Otherwise the request is stopped there: the zero fill, and nothing else, waits on the
      current stream, and by `LayersRightIff` some order then spoils the layers. On a lazy
      device it always waits. */
  method RetrieveAll<R(0)>(eng: RetrieveLayer<R>, fetched: seq<seq<BufferedLoader.MemObj>>) returns (raced: bool)
    requires eng.Separate() && eng.phase == NotStarted && eng.yieldCount == 0 && eng.toCountDown == []
            && eng.released == []
    requires eng.consumer.CanStart() && eng.consumer.job.WellFormed() && |fetched| == eng.consumer.numLayers
    requires forall l :: 0 <= l < |fetched| ==> eng.consumer.Deliverable(fetched[l])
    modifies eng, eng.consumer, eng.consumer.dev, eng.consumer.dev.Arrays()
    ensures eng.Valid()
    ensures raced ==>
              && |fetched| > 0 && eng.phase.WaitingForLayer? && eng.consumer.layerId == 0
              && eng.consumer.dev.main == [BufferedLoader.ClearOp(eng.consumer.job)]
              && !BufferedLoader.ZeroCached(fetched[0])
    ensures eng.consumer.dev.lazy && |fetched| > 0 && !BufferedLoader.ZeroCached(fetched[0]) ==> raced
    ensures !raced ==> eng.yieldCount == |fetched| + 2 && eng.released == AllIds(fetched, |fetched|)
    ensures var job, dev := eng.consumer.job, eng.consumer.dev;
            var was, now := old(dev.Settled()), dev.Settled();
            !raced ==>
              && eng.consumer.Untouched(was, now)
              && forall l :: 0 <= l < |fetched| ==>
                   RequestLayerLoaded(dev.num, job, was, now, fetched[0], fetched[l], job.kv[l])
  {
    hide BufferedLoader.Loader.Layout, BufferedLoader.Loader.Untouched, BufferedLoader.ChunksOf;
    hide BufferedLoader.ClearOp, Left;
    hide Device.Valid, Device.Settled, Device.Contents, Job.WellFormed, LayerLoaded, Matches;
    hide BufferedLoader.Flight.AtYield, BufferedLoader.Flight.Ok;
    hide BufferedLoader.Flight.Roomy, BufferedLoader.Flight.Loaded;
    var consumer := eng.consumer;
    var dev := consumer.dev;
    ghost var was := dev.Settled();
    eng.Start();
    eng.AwaitFirst();
    if |fetched| > 0 && !consumer.Calm(fetched[0]) {
      return true;
    }
    DeliverAll(eng, fetched, was);
    ghost var m := dev.Settled();
    eng.Finish();
    consumer.UntouchedStep(was, m, dev.Settled());
    RequestLoaded(consumer, was, fetched);
    raced := false;
  }

  /** What the connector was sent is what the objects held when the request began. */
  ghost predicate Fetched<R(0)>(consumer: BufferedLoader.Loader<R>, was: Memory<R>,
                                fetched: seq<seq<BufferedLoader.MemObj>>, l: nat)
    reads consumer
  {
    && |consumer.sent| == l <= |fetched|
    && forall h :: 0 <= h < l ==>
         && (forall j :: 0 <= j < |fetched[h]| ==> fetched[h][j].id < |was.tensors|)
         && consumer.sent[h] == BufferedLoader.ChunksOf(was, fetched[h])
  }

  lemma RequestLoaded<R(0)>(consumer: BufferedLoader.Loader<R>, was: Memory<R>,
                            fetched: seq<seq<BufferedLoader.MemObj>>)
    requires consumer.dev.Valid() && consumer.Layout() && |fetched| == consumer.numLayers
    requires Fetched(consumer, was, fetched, |fetched|)
    requires |was.tensors| == |consumer.dev.tensors|
    requires forall l :: 0 <= l < |consumer.job.kv| ==> consumer.job.kv[l] < |was.tensors|
    requires consumer.orig == PagedLayers(was, consumer.job.kv)
    requires consumer.Now().Loaded(consumer.dev.Settled(), consumer.numLayers)
    ensures forall l :: 0 <= l < |fetched| ==>
              RequestLayerLoaded(consumer.dev.num, consumer.job, was, consumer.dev.Settled(), fetched[0], fetched[l],
                  consumer.job.kv[l])
  {
    hide LayerLoaded, Device.Valid, Device.Settled, RequestLayerLoaded;
    var job, now := consumer.job, consumer.dev.Settled();
    forall l | 0 <= l < |fetched|
      ensures RequestLayerLoaded(consumer.dev.num, job, was, now, fetched[0], fetched[l], job.kv[l])
    {
      assert consumer.orig[l] == was.tensors[job.kv[l]];
      ObjectsLoaded(consumer.dev.num, job, was, now, fetched[0], fetched[l], job.kv[l]);
    }
  }

  lemma ObjectsLoaded<R>(num: Numerics<R>, job: Job, was: Memory<R>, now: Memory<R>,
                         first: seq<BufferedLoader.MemObj>, objs: seq<BufferedLoader.MemObj>, kv: nat)
    requires job.WellFormed() && kv < |was.tensors| && kv < |now.tensors| && Within(job.Window(), |was.tensors[kv]|)
    requires forall j :: 0 <= j < |first| ==> first[j].id < |was.tensors|
    requires forall j :: 0 <= j < |objs| ==> objs[j].id < |was.tensors|
    requires Matches(job, BufferedLoader.ChunksOf(was, first)) && Matches(job, BufferedLoader.ChunksOf(was, objs))
    requires LayerLoaded(num, job, BufferedLoader.ChunksOf(was, first), BufferedLoader.ChunksOf(was, objs),
                         was.tensors[kv], now.tensors[kv])
    ensures RequestLayerLoaded(num, job, was, now, first, objs, kv)
  {
    hide LayerLoaded, TokenIn, Uncovered, Job.Window;
    LayerLoadedByToken(num, job, BufferedLoader.ChunksOf(was, first), BufferedLoader.ChunksOf(was, objs),
                       was.tensors[kv], now.tensors[kv]);
  }

  /** Tensor `kv` went from `was` to `now` by the load of the objects of one layer: row i of
      object j, re-encoded, is in the slot of token starts[j] + i, the tokens between the chunks
      have zeros in theirs, and no other slot has changed. */
  ghost predicate RequestLayerLoaded<R>(num: Numerics<R>, job: Job, was: Memory<R>, now: Memory<R>,
                                        first: seq<BufferedLoader.MemObj>, objs: seq<BufferedLoader.MemObj>, kv: nat) {
    var starts, ends, slots := job.starts, job.ends, job.slots;
    && kv < |was.tensors| && kv < |now.tensors| && |now.tensors[kv]| == |was.tensors[kv]|
    && |starts| == |ends| == |first| == |objs| > 0 && starts[0] <= ends[|ends| - 1] <= |slots|
    && (forall j, i :: 0 <= j < |starts| && 0 <= i && starts[j] + i < ends[j] ==>
          && objs[j].id < |was.tensors|
          && TokenIn(num, now.tensors[kv], slots, starts[j], i, first[j].cached, was.tensors[objs[j].id]))
    && (forall t :: Uncovered(starts, ends, t) ==> ZeroIn(num, now.tensors[kv], slots, t))
    && (forall s :: 0 <= s < |was.tensors[kv]| && s !in slots[starts[0]..ends[|ends| - 1]] ==>
          now.tensors[kv][s] == was.tensors[kv][s])
  }

  function Ids(objs: seq<BufferedLoader.MemObj>): (r: seq<nat>)
    ensures |r| == |objs| && forall j :: 0 <= j < |objs| ==> r[j] == objs[j].id
  {
    seq(|objs|, j requires 0 <= j < |objs| => objs[j].id)
  }

  method ReadTensors<R(0)>(dev: Device<R>, ids: seq<nat>) returns (rows: seq<seq<KV<R>>>)
    requires forall j :: 0 <= j < |ids| ==> ids[j] < |dev.tensors|
    ensures |rows| == |ids| && forall j :: 0 <= j < |ids| ==> rows[j] == dev.Contents().tensors[ids[j]]
  {
    rows := [];
    for j := 0 to |ids|
      invariant |rows| == j && forall h :: 0 <= h < j ==> rows[h] == dev.Contents().tensors[ids[h]]
    {
      rows := rows + [dev.tensors[ids[j]][..]];
    }
  }
}
