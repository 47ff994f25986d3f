/** `batched_from_gpu` of the layerwise connectors as a step machine: one resume
    gathers a layer from paged memory into the staging buffer and starts the copies
    into that layer's memory objects, all on the store stream.

    The two VLLM connectors differ in how chunks sit in the staging buffer, in
    whether keys and values are copied separately, and in whether every resume
    waits for the store stream: `StoreJob` carries those differences. The buffered
    one is covered with position caching only; without it, it copies nothing
    (`BufferLayout.StoredObjects`). */
module LayerStore {
  import opened DeviceStreams

  /** `window` is the concatenated slot mapping, `ranges` each chunk's part of the
      staging buffer, objs[l][j] the host tensor of layer l, chunk j. */
  datatype StoreJob = StoreJob(window: seq<nat>, ranges: seq<(int, int)>, kv: seq<nat>, staging: nat,
                               objs: seq<seq<nat>>, split: bool, sync: bool) {

    /** A host tensor of chunk j's length, neither the staging buffer nor a paged cache. */
    predicate HostTensor(s: Shape, id: nat, j: nat)
      requires j < |ranges|
    {
      id < |s.rows| && s.rows[id] == ranges[j].1 - ranges[j].0 && id != staging && id !in kv
    }

    ghost predicate WellFormed(s: Shape) {
      && |objs| == |kv| && staging < |s.rows| && s.rows[staging] == |window| && staging !in kv
      && (forall l :: 0 <= l < |kv| ==> kv[l] < |s.rows| && Within(window, s.rows[kv[l]]))
      && (forall j :: 0 <= j < |ranges| ==> 0 <= ranges[j].0 <= ranges[j].1 <= |window|)
      && (forall l :: 0 <= l < |objs| ==> |objs[l]| == |ranges|)
      && (forall l, j :: 0 <= l < |objs| && 0 <= j < |objs[l]| ==> HostTensor(s, objs[l][j], j))
      && (forall l, j, l', j' :: 0 <= l < |objs| && 0 <= j < |ranges| && 0 <= l' < |objs| && 0 <= j' < |ranges|
            && (l != l' || j != j')
            ==> objs[l][j] != objs[l'][j'])
    }

    lemma ObjectsApart(s: Shape)
      requires WellFormed(s)
      ensures forall l, j :: 0 <= l < |objs| && 0 <= j < |objs[l]| ==> objs[l][j] != staging
      ensures forall l :: 0 <= l < |objs| ==> |objs[l]| == |ranges|
    {
    }

    function GatherOp(l: nat): Op requires l < |kv| { Gather(staging, kv[l], window) }

    function CopyOp(l: nat, j: nat, part: Part): Op
      requires l < |objs| && |objs[l]| == |ranges| && j < |ranges| && 0 <= ranges[j].0 <= ranges[j].1
    {
      Copy(objs[l][j], 0, staging, ranges[j].0, ranges[j].1 - ranges[j].0, part)
    }

    /** The rows of layer l that belong to chunk j. */
    ghost function ChunkRows<R>(orig: seq<seq<KV<R>>>, l: nat, j: nat): seq<KV<R>>
      requires l < |orig| && Within(window, |orig[l]|) && j < |ranges| && 0 <= ranges[j].0 <= ranges[j].1 <= |window|
    {
      GatherRows(orig[l], window)[ranges[j].0..ranges[j].1]
    }

    lemma ChunkRowsAt<R>(orig: seq<seq<KV<R>>>, l: nat, j: nat)
      requires l < |orig| && Within(window, |orig[l]|) && j < |ranges| && 0 <= ranges[j].0 <= ranges[j].1 <= |window|
      ensures |ChunkRows(orig, l, j)| == ranges[j].1 - ranges[j].0
      ensures forall i :: 0 <= i < |ChunkRows(orig, l, j)| ==>
                ChunkRows(orig, l, j)[i] == orig[l][window[ranges[j].0 + i]]
    {
    }

    ghost predicate PagedIntact<R>(m: Memory<R>, orig: seq<seq<KV<R>>>) {
      && |orig| == |kv|
      && forall l :: 0 <= l < |kv| ==> kv[l] < |m.tensors| && m.tensors[kv[l]] == orig[l]
    }

    /** Layers before l are stored, of layer l the first j chunks. */
    ghost predicate Stored<R>(m: Memory<R>, orig: seq<seq<KV<R>>>, l: nat, j: nat)
      requires WellFormed(ShapeOf(m))
    {
      && PagedIntact(m, orig) && l <= |kv| && j <= |ranges|
      && (forall l', j' :: 0 <= l' < |objs| && 0 <= j' < |ranges| && (l' < l || (l' == l && j' < j)) ==>
            objs[l'][j'] < |m.tensors| && m.tensors[objs[l'][j']] == ChunkRows(orig, l', j'))
    }

    ghost predicate Staged<R>(m: Memory<R>, orig: seq<seq<KV<R>>>, l: nat, j: nat)
      requires WellFormed(ShapeOf(m))
    {
      Stored(m, orig, l, j) && l < |kv| && m.tensors[staging] == GatherRows(orig[l], window)
    }

    lemma GatherStep<R>(num: Numerics<R>, m: Memory<R>, orig: seq<seq<KV<R>>>, l: nat)
      requires WellFormed(ShapeOf(m)) && Stored(m, orig, l, 0) && l < |kv|
      ensures Fits(GatherOp(l), ShapeOf(m)) && Staged(Exec(num, GatherOp(l), m), orig, l, 0)
    {
      var r := Exec(num, GatherOp(l), m);
      assert Within(window, ShapeOf(m).rows[kv[l]]);
      assert forall t :: 0 <= t < |m.tensors| && t != staging ==> r.tensors[t] == m.tensors[t];
    }

    /** Copying a range of the staging buffer onto a host tensor of that length, whole or
        keys first and values next, leaves that range in it. */
    lemma CopyOutRows<R>(was: seq<KV<R>>, staged: seq<KV<R>>, lo: nat, hi: nat)
      requires lo <= hi <= |staged| && |was| == hi - lo
      ensures CopyRows(was, 0, staged, lo, hi - lo, BothParts) == staged[lo..hi]
      ensures CopyRows(CopyRows(was, 0, staged, lo, hi - lo, KeyPart), 0, staged, lo, hi - lo, ValuePart)
              == staged[lo..hi]
    {
    }

    ghost function CopiedOut<R>(num: Numerics<R>, m: Memory<R>, l: nat, j: nat): (r: Memory<R>)
      requires WellFormed(ShapeOf(m)) && l < |kv| && j < |ranges|
      ensures ShapeOf(r) == ShapeOf(m)
    {
      if split then Exec(num, CopyOp(l, j, ValuePart), Exec(num, CopyOp(l, j, KeyPart), m))
      else Exec(num, CopyOp(l, j, BothParts), m)
    }

    lemma CopyStep<R>(num: Numerics<R>, m: Memory<R>, orig: seq<seq<KV<R>>>, l: nat, j: nat)
      requires WellFormed(ShapeOf(m)) && Staged(m, orig, l, j) && j < |ranges|
      ensures forall part :: Fits(CopyOp(l, j, part), ShapeOf(m))
      ensures Staged(CopiedOut(num, m, l, j), orig, l, j + 1)
    {
      var id := objs[l][j];
      var r := CopiedOut(num, m, l, j);
      assert |m.tensors[id]| == ShapeOf(m).rows[id];
      CopyOutRows(m.tensors[id], m.tensors[staging], ranges[j].0, ranges[j].1);
      assert r == m.(tensors := m.tensors[id := ChunkRows(orig, l, j)]);
    }

    /** What writes neither the paged layers nor the objects leaves the stored ones. */
    lemma StoredStays<R>(num: Numerics<R>, m: Memory<R>, orig: seq<seq<KV<R>>>, l: nat, op: Op)
      requires WellFormed(ShapeOf(m)) && Stored(m, orig, l, 0) && Fits(op, ShapeOf(m))
      requires forall h :: 0 <= h < |kv| ==> Written(op) != Tensor(kv[h])
      requires forall h, j :: 0 <= h < |objs| && 0 <= j < |objs[h]| ==> Written(op) != Tensor(objs[h][j])
      ensures Stored(Exec(num, op, m), orig, l, 0)
    {
      hide Exec, Fits, GatherRows;
      ExecFrame(num, op, m);
      var r := Exec(num, op, m);
      forall l', j' | 0 <= l' < |objs| && 0 <= j' < |ranges| && l' < l
        ensures objs[l'][j'] < |r.tensors| && r.tensors[objs[l'][j']] == ChunkRows(orig, l', j')
      {
        assert |objs[l']| == |ranges| && objs[l'][j'] < |m.tensors|;
      }
      forall h | 0 <= h < |kv| ensures kv[h] < |r.tensors| && r.tensors[kv[h]] == orig[h] {
        assert kv[h] < |m.tensors|;
      }
    }

    lemma NextLayer<R>(m: Memory<R>, orig: seq<seq<KV<R>>>, l: nat)
      requires WellFormed(ShapeOf(m)) && Staged(m, orig, l, |ranges|)
      ensures Stored(m, orig, l + 1, 0)
    {
    }
  }

  /** Where the generator is suspended: before its first resume, at the yield of layer
      `layerId`, at its final yield. */
  datatype Phase = Created | Suspended | Finished

  class Generator<R(0)> {
    const dev: Device<R>
    const job: StoreJob
    var layerId: nat
    var phase: Phase
    var yieldCount: nat
    ghost var orig: seq<seq<KV<R>>>

    ghost predicate Separate() {
      dev != (this as object) && (this as object) !in dev.Arrays()
    }

    ghost predicate Layout()
      reads this, dev, dev.Arrays()
      ensures Layout() ==> forall l :: 0 <= l < |job.kv| ==> job.kv[l] < |dev.tensors|
    {
      Separate() && dev.Valid() && job.WellFormed(dev.Shp())
    }

    /** Nothing waiting on the device writes tensor `id`. */
    ghost predicate Quiet(id: nat)
      reads this, dev
    {
      (forall op <- dev.main :: Written(op) != Tensor(id)) && (forall op <- dev.side :: Written(op) != Tensor(id))
    }

    /** A tensor nothing waiting writes already holds its final rows. */
    lemma QuietIsSettled(id: nat)
      requires dev.Valid() && Quiet(id) && id < |dev.tensors|
      ensures id < |dev.Settled().tensors| && dev.Contents().tensors[id] == dev.Settled().tensors[id]
    {
      UnwrittenTensor(dev.num, dev.main, dev.Contents(), id);
      UnwrittenTensor(dev.num, dev.side, ExecAll(dev.num, dev.main, dev.Contents()), id);
    }

    /** With `sync`, every layer before `l` has left the store stream. */
    ghost predicate QuietBefore(l: nat)
      requires job.WellFormed(dev.Shp())
      reads this, dev
    {
      job.sync ==> forall l', j :: 0 <= l' < |job.objs| && l' < l && 0 <= j < |job.ranges| ==> Quiet(job.objs[l'][j])
    }

    ghost predicate Valid()
      reads this, dev, dev.Arrays()
    {
      && Layout() && phase != Created
      && (phase.Suspended? <==> layerId < |job.kv|)
      && (phase.Finished? <==> layerId == |job.kv|)
      && yieldCount == layerId + 1
      && job.Stored(dev.Settled(), orig, if phase.Suspended? then layerId + 1 else layerId, 0)
      && QuietBefore(layerId) && MainSpares()
    }

    /** What waits on the current stream writes no object of the request. */
    ghost predicate MainSpares()
      reads this, dev
    {
      forall op <- dev.main, l, j :: 0 <= l < |job.objs| && 0 <= j < |job.objs[l]| ==>
          Written(op) != Tensor(job.objs[l][j])
    }

    /** Row by row what layer l had in the slots of chunk j. */
    ghost predicate HoldsChunk(rows: seq<KV<R>>, l: nat, j: nat)
      reads this
    {
      && l < |orig| && j < |job.ranges| && 0 <= job.ranges[j].0 <= job.ranges[j].1 <= |job.window|
      && Within(job.window, |orig[l]|) && |rows| == job.ranges[j].1 - job.ranges[j].0
      && forall i :: 0 <= i < |rows| ==> rows[i] == orig[l][job.window[job.ranges[j].0 + i]]
    }

    /** With `sync`, an earlier layer's object can be read by the host: it holds that
        layer's rows already, whatever the device is still doing. */
    lemma SyncedObject(l: nat, j: nat)
      requires Valid() && job.sync && l < layerId && j < |job.ranges|
      ensures l < |job.objs| && j < |job.objs[l]| && job.objs[l][j] < |dev.tensors|
      ensures HoldsChunk(dev.Contents().tensors[job.objs[l][j]], l, j)
    {
      hide GatherRows, Fits, Exec, RaceFree, AllFit, Device.Settled, Device.Contents, StoreJob.ChunkRows;
      var id := job.objs[l][j];
      assert Quiet(id);
      QuietIsSettled(id);
      assert dev.Settled().tensors[id] == job.ChunkRows(orig, l, j);
      job.ChunkRowsAt(orig, l, j);
    }

    constructor (dev: Device<R>, job: StoreJob)
      ensures this.dev == dev && this.job == job && phase == Created && layerId == 0 && yieldCount == 0
    {
      this.dev, this.job := dev, job;
      layerId, phase, yieldCount, orig := 0, Created, 0, [];
    }

    /** From the top of iteration `layerId` to its yield. */
    method StoreLayer()
      requires Layout() && layerId < |job.kv| && yieldCount == layerId
      requires job.Stored(dev.Settled(), orig, layerId, 0) && QuietBefore(layerId)
      modifies `phase, `yieldCount, dev, dev.Arrays()
      ensures Valid() && phase.Suspended?
    {
      hide StoreJob.Stored, StoreJob.Staged, Exec, Fits, Device.Valid, Device.Settled, Device.Contents;
      job.GatherStep(dev.num, dev.Settled(), orig, layerId);
      dev.Drain(Main);
      dev.Launch(Side, job.GatherOp(layerId));
      assert QuietBefore(layerId) by {
        job.ObjectsApart(dev.Shp());
      }
      for j := 0 to |job.ranges|
        invariant yieldCount == layerId && dev.main == []
        invariant Layout() && job.Staged(dev.Settled(), orig, layerId, j) && QuietBefore(layerId)
      {
        CopyOut(j);
      }
      job.NextLayer(dev.Settled(), orig, layerId);
      phase := Suspended;
      yieldCount := yieldCount + 1;
    }

    method CopyOut(j: nat)
      requires Layout() && j < |job.ranges| && dev.main == []
      requires job.Staged(dev.Settled(), orig, layerId, j) && QuietBefore(layerId)
      modifies dev, dev.Arrays()
      ensures Layout() && job.Staged(dev.Settled(), orig, layerId, j + 1) && QuietBefore(layerId) && dev.main == []
    {
      hide StoreJob.Stored, StoreJob.Staged, Exec, Fits, Device.Valid, Device.Settled, Device.Contents;
      job.CopyStep(dev.num, dev.Settled(), orig, layerId, j);
      if job.split {
        dev.Launch(Side, job.CopyOp(layerId, j, KeyPart));
        dev.Launch(Side, job.CopyOp(layerId, j, ValuePart));
      } else {
        dev.Launch(Side, job.CopyOp(layerId, j, BothParts));
      }
    }

    /** Between two resumes the current stream may be given any work that races with nothing
        waiting and writes neither the paged layers nor the staging buffer nor the objects:
        that is exactly what `Valid` leaves open, and the next `wait_stream` waits for it. */
    method OtherWork(op: Op)
      requires Valid() && Fits(op, dev.Shp()) && ClearOf(op, dev.side)
      requires forall l :: 0 <= l < |job.kv| ==> Written(op) != Tensor(job.kv[l])
      requires forall l, j :: 0 <= l < |job.objs| && 0 <= j < |job.objs[l]| ==> Written(op) != Tensor(job.objs[l][j])
      modifies dev, dev.Arrays()
      ensures Valid()
    {
      hide StoreJob.Stored, StoreJob.Staged, Exec, Fits, Device.Valid, Device.Settled, Device.Contents;
      ghost var l := if phase.Suspended? then layerId + 1 else layerId;
      job.StoredStays(dev.num, dev.Settled(), orig, l, op);
      dev.Launch(Main, op);
    }

    /** First resume, whatever waits on the device. */
    method Start()
      requires Layout() && phase == Created && layerId == 0 && yieldCount == 0
      modifies this, dev, dev.Arrays()
      ensures Valid() && layerId == 0
      ensures orig == old(PagedLayers(dev.Settled(), job.kv))
    {
      orig := PagedLayers(dev.Settled(), job.kv);
      if |job.kv| > 0 {
        StoreLayer();
      } else {
        phase := Finished;
        yieldCount := yieldCount + 1;
      }
    }

    /** A later resume: wait for the layer just issued (when asked to), issue the next. */
    method Resume()
      requires Valid() && phase.Suspended?
      modifies this, dev, dev.Arrays()
      ensures Valid() && layerId == old(layerId) + 1 && orig == old(orig)
    {
      hide StoreJob.WellFormed, StoreJob.Stored, StoreJob.Staged, Exec;
      hide Fits, Device.Valid, Device.Settled, Device.Contents;
      job.ObjectsApart(dev.Shp());
      if job.sync {
        dev.Drain(Side);
      }
      layerId := layerId + 1;
      if layerId < |job.kv| {
        StoreLayer();
      } else {
        phase := Finished;
        yieldCount := yieldCount + 1;
      }
    }
  }
}
