/** `VLLMPagedMemLayerwiseGPUConnector.batched_to_gpu` with its staging buffer, as a
    step machine. */
module LayerLoad {
  import opened DeviceStreams

  datatype PagedJob = PagedJob(window: seq<nat>, ranges: seq<(int, int)>, kv: seq<nat>, staging: nat) {

    /** The ranges lie end to end and fill the window. */
    predicate Tiles() {
      && (forall j :: 0 <= j < |ranges| ==> 0 <= ranges[j].0 <= ranges[j].1 <= |window|)
      && (forall j :: 0 <= j < |ranges| ==> ranges[j].0 == Upto(j))
      && Upto(|ranges|) == |window|
    }

    function Upto(j: nat): int requires j <= |ranges| { if j == 0 then 0 else ranges[j - 1].1 }

    ghost predicate WellFormed(s: Shape) {
      && Tiles() && staging < |s.rows| && s.rows[staging] == |window| && staging !in kv
      && (forall l :: 0 <= l < |kv| ==> kv[l] < |s.rows| && Within(window, s.rows[kv[l]]))
      && (forall i, j :: 0 <= i < j < |kv| ==> kv[i] != kv[j])
    }

    function CopyOp(src: nat, j: nat): Op
      requires j < |ranges| && 0 <= ranges[j].0 <= ranges[j].1
    {
      Copy(staging, ranges[j].0, src, 0, ranges[j].1 - ranges[j].0, BothParts)
    }

    function ScatterOp(l: nat): Op
      requires l < |kv|
    {
      Scatter(kv[l], staging, window)
    }

    /** The first n copies of a layer, from the tensors `objs`. */
    function CopyOps(objs: seq<nat>, n: nat): (r: seq<Op>)
      requires Tiles() && n <= |objs| == |ranges|
      ensures |r| == n
    {
      if n == 0 then [] else CopyOps(objs, n - 1) + [CopyOp(objs[n - 1], n - 1)]
    }

    /** Everything the load issues for the layers delivered so far. */
    function Issues(delivered: seq<seq<nat>>): (r: seq<Op>)
      requires Tiles() && |delivered| <= |kv| && forall l :: 0 <= l < |delivered| ==> |delivered[l]| == |ranges|
    {
      if delivered == [] then []
      else
        var l := |delivered| - 1;
        Issues(delivered[..l]) + (CopyOps(delivered[l], |ranges|) + [ScatterOp(l)])
    }

    ghost predicate FitsRanges<R>(rows: seq<seq<KV<R>>>)
      requires Tiles()
    {
      && |rows| == |ranges|
      && forall j :: 0 <= j < |rows| ==> |rows[j]| == ranges[j].1 - ranges[j].0
    }

    /** Layers before `count` scattered from what was sent for them, the others as they were. */
    ghost predicate Loaded<R>(m: Memory<R>, orig: seq<seq<KV<R>>>, sent: seq<seq<seq<KV<R>>>>, count: nat)
      requires WellFormed(ShapeOf(m))
    {
      && |orig| == |kv| && count <= |kv| && count <= |sent|
      && (forall l :: 0 <= l < |kv| ==> kv[l] < |m.tensors| && Within(window, |orig[l]|))
      && (forall l :: 0 <= l < count ==> FitsRanges(sent[l]) && |Flat(sent[l])| == |window|)
      && (forall l :: 0 <= l < count ==> m.tensors[kv[l]] == ScatterRows(orig[l], Flat(sent[l]), window))
      && (forall l :: count <= l < |kv| ==> m.tensors[kv[l]] == orig[l])
    }

    /** While a layer is being staged: its first j chunks sit at the front of the buffer. */
    ghost predicate Staging<R>(m: Memory<R>, rows: seq<seq<KV<R>>>, j: nat)
      requires WellFormed(ShapeOf(m))
    {
      && FitsRanges(rows) && j <= |ranges|
      && staging < |m.tensors| && 0 <= Upto(j) <= |m.tensors[staging]| == |window|
      && m.tensors[staging][..Upto(j)] == Flat(rows[..j])
    }

    lemma NothingLoaded<R>(m: Memory<R>)
      requires WellFormed(ShapeOf(m)) && forall l :: 0 <= l < |kv| ==> kv[l] < |m.tensors|
      ensures Loaded(m, PagedLayers(m, kv), [], 0)
    {
      assert forall l :: 0 <= l < |kv| ==> Within(window, ShapeOf(m).rows[kv[l]]);
    }

    lemma NoCopies(before: seq<Op>, objs: seq<nat>)
      requires Tiles() && |objs| == |ranges|
      ensures before + CopyOps(objs, 0) == before
    {
    }

    /** A layer's copies and scatter, behind everything issued before. */
    lemma LayerIssued(prior: seq<Op>, delivered: seq<seq<nat>>, objs: seq<nat>)
      requires Tiles() && |delivered| < |kv| && |objs| == |ranges|
      requires forall l :: 0 <= l < |delivered| ==> |delivered[l]| == |ranges|
      ensures prior + Issues(delivered) + CopyOps(objs, |objs|) + [ScatterOp(|delivered|)]
              == prior + Issues(delivered + [objs])
    {
      assert (delivered + [objs])[..|delivered|] == delivered;
    }

    lemma ScatterUntouched<R>(num: Numerics<R>, m: Memory<R>, l: nat)
      requires l < |kv| && Fits(ScatterOp(l), ShapeOf(m))
      ensures Untouched(m, Exec(num, ScatterOp(l), m), this)
    {
    }

    /** A delivered tensor is none of those the load writes. */
    lemma SourceKept<R>(was: Memory<R>, now: Memory<R>, objs: seq<nat>, j: nat)
      requires Untouched(was, now, this) && j < |objs| && objs[j] < |was.tensors| && objs[j] != staging
              && objs[j] !in kv
      ensures objs[j] < |now.tensors| && now.tensors[objs[j]] == was.tensors[objs[j]]
    {
    }

    /** On the buffer's own rows: chunk j extends the staged front. */
    lemma StageChunk<R>(was: seq<KV<R>>, rows: seq<seq<KV<R>>>, j: nat)
      requires Tiles() && FitsRanges(rows) && j < |ranges| && |was| == |window|
      requires was[..Upto(j)] == Flat(rows[..j])
      ensures CopyRows(was, ranges[j].0, rows[j], 0, ranges[j].1 - ranges[j].0, BothParts)[..ranges[j].1]
              == Flat(rows[..j + 1])
    {
      hide CopyRows, Flat;
      WholeCopy(was, ranges[j].0, rows[j]);
      var front := was[..ranges[j].0];
      assert (front + rows[j] + was[ranges[j].1..])[..ranges[j].1] == front + rows[j];
      assert rows[..j + 1] == rows[..j] + [rows[j]];
      FlatAppend(rows[..j], rows[j]);
    }

    lemma StagingStart<R>(m: Memory<R>, rows: seq<seq<KV<R>>>)
      requires WellFormed(ShapeOf(m)) && FitsRanges(rows)
      ensures Staging(m, rows, 0)
    {
      assert |m.tensors[staging]| == ShapeOf(m).rows[staging];
    }

    lemma StagingOnly<R>(m: Memory<R>, r: Memory<R>, orig: seq<seq<KV<R>>>, sent: seq<seq<seq<KV<R>>>>, count: nat)
      requires WellFormed(ShapeOf(m)) && Loaded(m, orig, sent, count) && ShapeOf(r) == ShapeOf(m)
      requires forall t :: 0 <= t < |m.tensors| && t != staging ==> r.tensors[t] == m.tensors[t]
      ensures Loaded(r, orig, sent, count)
    {
      assert |r.tensors| == |ShapeOf(r).rows|;
      assert forall l :: 0 <= l < |kv| ==> r.tensors[kv[l]] == m.tensors[kv[l]];
    }

    lemma CopyStep<R>(num: Numerics<R>, m: Memory<R>, orig: seq<seq<KV<R>>>, sent: seq<seq<seq<KV<R>>>>, count: nat,
                      rows: seq<seq<KV<R>>>, j: nat, src: nat)
      requires WellFormed(ShapeOf(m)) && Loaded(m, orig, sent, count) && Staging(m, rows, j) && j < |ranges|
      requires src < |m.tensors| && src != staging && m.tensors[src] == rows[j]
      ensures Fits(CopyOp(src, j), ShapeOf(m))
      ensures var r := Exec(num, CopyOp(src, j), m);
              && Loaded(r, orig, sent, count) && Staging(r, rows, j + 1)
              && forall t :: 0 <= t < |m.tensors| && t != staging ==> r.tensors[t] == m.tensors[t]
    {
      hide Loaded, CopyRows, Flat;
      var r := Exec(num, CopyOp(src, j), m);
      StageChunk(m.tensors[staging], rows, j);
      StagingOnly(m, r, orig, sent, count);
    }

    lemma ScatterStep<R>(num: Numerics<R>, m: Memory<R>, orig: seq<seq<KV<R>>>, sent: seq<seq<seq<KV<R>>>>,
                         rows: seq<seq<KV<R>>>)
      requires WellFormed(ShapeOf(m)) && |sent| < |kv| && Loaded(m, orig, sent, |sent|) && Staging(m, rows, |ranges|)
      ensures Fits(ScatterOp(|sent|), ShapeOf(m))
      ensures Loaded(Exec(num, ScatterOp(|sent|), m), orig, sent + [rows], |sent| + 1)
    {
      hide Flat, ScatterRows;
      var l := |sent|;
      var r := Exec(num, ScatterOp(l), m);
      assert rows[..|ranges|] == rows;
      assert m.tensors[staging][..|window|] == m.tensors[staging];
      assert forall t :: 0 <= t < |m.tensors| && t != kv[l] ==> r.tensors[t] == m.tensors[t];
      assert forall h :: 0 <= h < l ==> (sent + [rows])[h] == sent[h];
    }
  }

  /** The chunks' rows, one chunk after the other. */
  function Flat<T>(parts: seq<seq<T>>): (r: seq<T>) {
    if parts == [] then [] else Flat(parts[..|parts| - 1]) + parts[|parts| - 1]
  }

  lemma FlatEmpty<T>()
    ensures Flat<T>([]) == []
  {
  }

  lemma FlatAppend<T>(parts: seq<seq<T>>, last: seq<T>)
    ensures Flat(parts + [last]) == Flat(parts) + last
  {
    assert (parts + [last])[..|parts|] == parts;
  }

  datatype Phase = Created | AwaitLayer | LastLayerSent | Finished

  class Loader<R(0)> {
    const dev: Device<R>
    const job: PagedJob
    var phase: Phase
    var layerId: nat
    var yieldCount: nat
    ghost var orig: seq<seq<KV<R>>>
    ghost var sent: seq<seq<seq<KV<R>>>>
    /** What waited on the load stream at the start, and the objects delivered since. */
    ghost var prior: seq<Op>
    ghost var delivered: seq<seq<nat>>

    ghost predicate Layout()
      reads this, dev, dev.Arrays()
      ensures Layout() ==> job.Tiles()
      ensures Layout() ==> forall l :: 0 <= l < |job.kv| ==> job.kv[l] < |dev.tensors|
    {
      && dev != (this as object) && (this as object) !in dev.Arrays()
      && dev.Valid() && job.WellFormed(dev.Shp())
    }

    /** What waits on the load stream is the end of what was put there. */
    ghost predicate Tracked()
      requires job.Tiles()
      reads this, dev
    {
      && |delivered| == layerId <= |job.kv|
      && (forall l :: 0 <= l < |delivered| ==> |delivered[l]| == |job.ranges|)
      && Left(dev.side, prior + job.Issues(delivered), dev.lazy)
    }

    ghost predicate Valid()
      reads this, dev, dev.Arrays()
    {
      && Layout() && phase != Created
      && |sent| == layerId <= |job.kv|
      && (phase.AwaitLayer? <==> layerId < |job.kv|)
      && yieldCount == layerId + (if phase.Finished? then 2 else 1)
      && job.Loaded(dev.Settled(), orig, sent, layerId)
      && Tracked()
    }

    constructor (dev: Device<R>, job: PagedJob)
      ensures this.dev == dev && this.job == job && phase == Created && layerId == 0 && yieldCount == 0 && sent == []
    {
      this.dev, this.job := dev, job;
      phase, layerId, yieldCount, orig, sent, prior, delivered := Created, 0, 0, [], [], [], [];
    }

    /** First resume, whatever waits on the device. */
    method Start()
      requires Layout() && phase == Created && layerId == 0 && yieldCount == 0 && sent == []
      modifies this
      ensures Valid() && layerId == 0 && sent == [] && !phase.Finished? && unchanged(dev)
      ensures orig == PagedLayers(dev.Settled(), job.kv) && prior == dev.side && delivered == []
      ensures dev.Settled() == old(dev.Settled())
    {
      hide PagedJob.Loaded, PagedJob.WellFormed, PagedJob.Issues, PagedJob.Tiles, Within;
      hide Device.Valid, Device.Settled, Device.Contents, Left;
      orig := PagedLayers(dev.Settled(), job.kv);
      job.NothingLoaded(dev.Settled());
      NothingIssued(dev.side, job, dev.lazy);
      phase := if |job.kv| > 0 then AwaitLayer else LastLayerSent;
      yieldCount := 1;
      prior, delivered := dev.side, [];
    }

    /** One host tensor per chunk, of the chunk's length, none of them written by the load. */
    ghost predicate Deliverable(objs: seq<nat>)
      requires job.Tiles()
      reads this, dev
    {
      && |objs| == |job.ranges|
      && forall j :: 0 <= j < |objs| ==>
           && objs[j] < |dev.Shp().rows| && objs[j] != job.staging && objs[j] !in job.kv
           && dev.Shp().rows[objs[j]] == job.ranges[j].1 - job.ranges[j].0
    }

    /** What waits on the current stream does not touch the staging buffer or the paged
        layer about to be loaded, and does not write the delivered objects. */
    ghost predicate MainApart(l: nat, objs: seq<nat>)
      requires l < |job.kv|
      reads dev
    {
      forall op <- dev.main ::
        && !Touches(op, Tensor(job.staging)) && !Touches(op, Tensor(job.kv[l]))
        && forall j :: 0 <= j < |objs| ==> Written(op) != Tensor(objs[j])
    }

    /** That is exactly when the layer's copies and its scatter race with nothing. */
    lemma RaceFreeIff(objs: seq<nat>)
      requires Valid() && phase.AwaitLayer? && Deliverable(objs) && |objs| > 0
      ensures MainApart(layerId, objs) <==>
                && (forall j :: 0 <= j < |objs| ==> ClearOf(job.CopyOp(objs[j], j), dev.main))
                && ClearOf(job.ScatterOp(layerId), dev.main)
    {
      hide Device.Valid, Device.Settled, PagedJob.Loaded, Left, PagedJob.Issues;
      if (forall j :: 0 <= j < |objs| ==> ClearOf(job.CopyOp(objs[j], j), dev.main))
          && ClearOf(job.ScatterOp(layerId), dev.main) {
        forall op <- dev.main
          ensures !Touches(op, Tensor(job.staging)) && !Touches(op, Tensor(job.kv[layerId]))
          ensures forall j :: 0 <= j < |objs| ==> Written(op) != Tensor(objs[j])
        {
          assert Independent(job.ScatterOp(layerId), op) && Independent(job.CopyOp(objs[0], 0), op);
          forall j | 0 <= j < |objs| ensures Written(op) != Tensor(objs[j]) {
            assert Independent(job.CopyOp(objs[j], j), op);
          }
        }
      }
    }

    /** Resume with the memory objects of layer `layerId`. */
    method Send(objs: seq<nat>)
      requires Valid() && phase.AwaitLayer? && Deliverable(objs) && MainApart(layerId, objs)
      modifies this, dev, dev.Arrays()
      ensures Valid() && layerId == old(layerId) + 1 && orig == old(orig) && !phase.Finished?
      ensures sent == old(sent) + [old(PagedLayers(dev.Settled(), objs))]
      ensures Untouched(old(dev.Settled()), dev.Settled(), job)
      ensures prior == old(prior) && delivered == old(delivered) + [objs] && Among(dev.main, old(dev.main))
    {
      hide PagedJob.WellFormed, PagedJob.Loaded, PagedJob.Staging, Exec, Fits;
      hide Device.Valid, Device.Settled, Device.Contents, Left;
      hide PagedJob.Issues, PagedJob.CopyOps, Touches;
      ghost var rows := PagedLayers(dev.Settled(), objs);
      Stage(objs, rows);
      job.ScatterStep(dev.num, dev.Settled(), orig, sent, rows);
      Push(objs);
      assert Untouched(old(dev.Settled()), dev.Settled(), job);
      sent, delivered := sent + [rows], delivered + [objs];
      layerId := layerId + 1;
      phase := if layerId < |job.kv| then AwaitLayer else LastLayerSent;
      yieldCount := yieldCount + 1;
    }

    /** The copies of the first n chunks of layer `layerId` have been issued. */
    ghost predicate Copied(objs: seq<nat>, n: nat)
      requires job.Tiles() && |objs| == |job.ranges|
      reads this, dev
    {
      && |delivered| == layerId < |job.kv| && n <= |objs|
      && (forall l :: 0 <= l < |delivered| ==> |delivered[l]| == |job.ranges|)
      && Left(dev.side, prior + job.Issues(delivered) + job.CopyOps(objs, n), dev.lazy)
    }

    /** The non-blocking copies of one layer into the staging buffer. */
    method Stage(objs: seq<nat>, ghost rows: seq<seq<KV<R>>>)
      requires Layout() && Deliverable(objs) && rows == PagedLayers(dev.Settled(), objs)
      requires job.Loaded(dev.Settled(), orig, sent, layerId) && Tracked() && layerId < |job.kv|
              && MainApart(layerId, objs)
      modifies dev, dev.Arrays()
      ensures Layout() && job.Loaded(dev.Settled(), orig, sent, layerId)
      ensures job.Staging(dev.Settled(), rows, |job.ranges|)
      ensures Untouched(old(dev.Settled()), dev.Settled(), job)
      ensures Copied(objs, |job.ranges|) && MainApart(layerId, objs) && Among(dev.main, old(dev.main))
    {
      hide PagedJob.WellFormed, PagedJob.Loaded, PagedJob.Staging, Exec, Fits;
      hide Device.Valid, Device.Settled, Device.Contents, Left;
      hide PagedJob.Issues, PagedJob.CopyOps, Touches, Untouched;
      job.StagingStart(dev.Settled(), rows);
      NothingTouched(dev.Settled(), job);
      job.NoCopies(prior + job.Issues(delivered), objs);
      for j := 0 to |objs|
        invariant Layout() && job.Loaded(dev.Settled(), orig, sent, layerId) && Deliverable(objs)
        invariant job.Staging(dev.Settled(), rows, j)
        invariant Untouched(old(dev.Settled()), dev.Settled(), job)
        invariant Copied(objs, j) && MainApart(layerId, objs) && Among(dev.main, old(dev.main))
      {
        ghost var m := dev.Settled();
        job.SourceKept(old(dev.Settled()), m, objs, j);
        StageOne(objs, rows, j);
        TouchedLater(old(dev.Settled()), m, dev.Settled(), job);
      }
    }

    method StageOne(objs: seq<nat>, ghost rows: seq<seq<KV<R>>>, j: nat)
      requires Layout() && j < |job.ranges| && Deliverable(objs) && Copied(objs, j) && MainApart(layerId, objs)
      requires job.Loaded(dev.Settled(), orig, sent, layerId)
      requires job.Staging(dev.Settled(), rows, j) && objs[j] < |dev.Settled().tensors|
      requires job.FitsRanges(rows) && dev.Settled().tensors[objs[j]] == rows[j]
      modifies dev, dev.Arrays()
      ensures Layout() && job.Loaded(dev.Settled(), orig, sent, layerId)
      ensures job.Staging(dev.Settled(), rows, j + 1)
      ensures Untouched(old(dev.Settled()), dev.Settled(), job)
      ensures Copied(objs, j + 1) && MainApart(layerId, objs) && Among(dev.main, old(dev.main))
    {
      hide PagedJob.WellFormed, PagedJob.Loaded, PagedJob.Staging, Exec, Fits;
      hide Device.Valid, Device.Settled, Device.Contents, Left;
      hide PagedJob.Issues;
      ghost var main, side, op := dev.main, dev.side, job.CopyOp(objs[j], j);
      job.CopyStep(dev.num, dev.Settled(), orig, sent, layerId, rows, j, objs[j]);
      dev.Issue(Side, job.CopyOp(objs[j], j));
      LeftAmong(dev.main, main, dev.lazy);
      ghost var whole := prior + job.Issues(delivered);
      LeftOnwards(dev.side, side, [op], whole + job.CopyOps(objs, j), dev.lazy);
      assert whole + job.CopyOps(objs, j) + [op] == whole + job.CopyOps(objs, j + 1);
    }

    method Push(ghost objs: seq<nat>)
      requires Layout() && Deliverable(objs) && Copied(objs, |objs|) && MainApart(layerId, objs)
      requires Fits(job.ScatterOp(layerId), dev.Shp())
      modifies dev, dev.Arrays()
      ensures Layout() && dev.Settled() == Exec(dev.num, job.ScatterOp(layerId), old(dev.Settled()))
      ensures Untouched(old(dev.Settled()), dev.Settled(), job)
      ensures |delivered| < |job.kv| && |objs| == |job.ranges|
      ensures forall l :: 0 <= l < |delivered| ==> |delivered[l]| == |job.ranges|
      ensures Left(dev.side, prior + job.Issues(delivered + [objs]), dev.lazy) && Among(dev.main, old(dev.main))
    {
      hide PagedJob.WellFormed, Exec, Fits, Device.Valid, Device.Settled, Device.Contents, Left;
      hide PagedJob.Issues, PagedJob.CopyOps, Untouched;
      ghost var m, main, side, op := dev.Settled(), dev.main, dev.side, job.ScatterOp(layerId);
      job.ScatterUntouched(dev.num, m, layerId);
      dev.Issue(Side, job.ScatterOp(layerId));
      LeftAmong(dev.main, main, dev.lazy);
      LeftOnwards(dev.side, side, [op], prior + job.Issues(delivered) + job.CopyOps(objs, |objs|), dev.lazy);
      job.LayerIssued(prior, delivered, objs);
    }

    /** The resume at the bare yield after the last delivery: run on to the final yield. */
    method Next()
      requires Valid() && phase.LastLayerSent?
      modifies `phase, `yieldCount
      ensures Valid() && phase.Finished? && yieldCount == |job.kv| + 2
      ensures job.Loaded(dev.Settled(), orig, sent, |job.kv|)
    {
      hide PagedJob.Loaded, PagedJob.WellFormed, PagedJob.Issues, Device.Valid, Device.Settled, Left;
      phase := Finished;
      yieldCount := yieldCount + 1;
    }
  }

  lemma NothingIssued(side: seq<Op>, job: PagedJob, lazy: bool)
    requires job.Tiles()
    ensures Left(side, side + job.Issues([]), lazy)
  {
    assert side + [] == side;
  }

  lemma NothingTouched<R>(m: Memory<R>, job: PagedJob)
    ensures Untouched(m, m, job)
  {
  }

  lemma TouchedLater<R>(a: Memory<R>, b: Memory<R>, c: Memory<R>, job: PagedJob)
    requires Untouched(a, b, job) && Untouched(b, c, job)
    ensures Untouched(a, c, job)
  {
  }

  /** A load writes the staging buffer and the paged caches only. */
  ghost predicate Untouched<R>(before: Memory<R>, after: Memory<R>, job: PagedJob) {
    && |after.tensors| == |before.tensors|
    && forall t :: 0 <= t < |before.tensors| && t != job.staging && t !in job.kv ==>
       after.tensors[t] == before.tensors[t]
  }
}
