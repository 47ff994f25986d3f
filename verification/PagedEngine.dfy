/** `retrieve_layer` of the cache engine over the paged connector, for a request with hits
    and contiguous chunks. */
module PagedEngine {
  import opened DeviceStreams
  import opened LayerLoad

  datatype Step = NotStarted | WaitingForLayer | AllSent | Done

  class RetrieveLayer<R(0,!new)> {
    const consumer: Loader<R>
    var step: Step
    var yieldCount: nat
    var toCountDown: seq<nat>
    var released: seq<nat>

    constructor (consumer: Loader<R>)
      ensures this.consumer == consumer && step == NotStarted && yieldCount == 0 && toCountDown == [] && released == []
    {
      this.consumer := consumer;
      step, yieldCount, toCountDown, released := NotStarted, 0, [], [];
    }

    ghost predicate Separate() {
      consumer != (this as object) && consumer.dev != (this as object) && (this as object) !in consumer.dev.Arrays()
    }

    /** The engine's position determines the connector's: it never meets an exhausted generator. */
    ghost predicate Valid()
      reads this, consumer, consumer.dev, consumer.dev.Arrays()
    {
      && Separate() && step != NotStarted && consumer.Valid()
      && (step.WaitingForLayer? <==> consumer.phase.AwaitLayer?)
      && (step.AllSent? <==> consumer.phase.LastLayerSent?)
      && (step.Done? <==> consumer.phase.Finished?)
      && yieldCount == consumer.yieldCount
      && released == (if step.WaitingForLayer? then [] else toCountDown)
      && toCountDown == Flat(consumer.delivered)
      && forall id <- toCountDown :: id != consumer.job.staging && id !in consumer.job.kv
    }

    method Start()
      requires Separate() && step == NotStarted && yieldCount == 0 && toCountDown == [] && released == []
      requires consumer.Layout() && consumer.phase == Created && consumer.layerId == 0
      requires consumer.yieldCount == 0 && consumer.sent == []
      modifies this, consumer
      ensures Valid() && toCountDown == [] && consumer.layerId == 0 && consumer.sent == [] && !step.Done?
      ensures consumer.orig == PagedLayers(consumer.dev.Settled(), consumer.job.kv)
      ensures consumer.dev.Settled() == old(consumer.dev.Settled()) && consumer.prior == consumer.dev.side
    {
      hide PagedJob.Loaded, PagedJob.WellFormed, PagedJob.Issues, Device.Valid, Device.Settled, Left;
      consumer.Start();
      step := if consumer.phase.AwaitLayer? then WaitingForLayer else AllSent;
      yieldCount := 1;
    }

    /** A resume inside the layer loop; after the last layer every object is released. */
    method Deliver(objs: seq<nat>)
      requires Valid() && step.WaitingForLayer? && consumer.Deliverable(objs)
      requires consumer.MainApart(consumer.layerId, objs)
      modifies this, consumer, consumer.dev, consumer.dev.Arrays()
      ensures Valid() && consumer.layerId == old(consumer.layerId) + 1 && !step.Done?
      ensures consumer.orig == old(consumer.orig)
      ensures consumer.sent == old(consumer.sent) + [old(PagedLayers(consumer.dev.Settled(), objs))]
      ensures Untouched(old(consumer.dev.Settled()), consumer.dev.Settled(), consumer.job)
      ensures toCountDown == old(toCountDown) + objs && consumer.prior == old(consumer.prior)
      ensures Among(consumer.dev.main, old(consumer.dev.main))
    {
      hide PagedJob.Loaded, PagedJob.WellFormed, PagedJob.Issues, Device.Valid, Device.Settled, Device.Contents, Left;
      hide LayerLoad.Untouched, Flat, Touches;
      FlatAppend(consumer.delivered, objs);
      consumer.Send(objs);
      toCountDown := toCountDown + objs;
      if consumer.phase.LastLayerSent? {
        released := toCountDown;
        step := AllSent;
      }
      yieldCount := yieldCount + 1;
    }

    /** The last resume. */
    method Finish()
      requires Valid() && step.AllSent?
      modifies this, consumer
      ensures Valid() && step.Done? && yieldCount == |consumer.job.kv| + 2
      ensures released == old(released) == toCountDown == old(toCountDown)
      ensures consumer.sent == old(consumer.sent) && consumer.orig == old(consumer.orig)
      ensures consumer.dev.Settled() == old(consumer.dev.Settled())
      ensures consumer.job.Loaded(consumer.dev.Settled(), consumer.orig, consumer.sent, |consumer.job.kv|)
    {
      hide PagedJob.Loaded, PagedJob.WellFormed, PagedJob.Issues, Device.Valid, Device.Settled, Device.Contents, Left;
      consumer.Next();
      step := Done;
      yieldCount := yieldCount + 1;
    }

    // ----- releasing while the device still works -----

    /** The last chunk holds a token. */
    ghost predicate EndsFull()
      reads consumer, consumer.dev, consumer.dev.Arrays()
    {
      var ranges := consumer.job.ranges;
      |consumer.job.kv| > 0 && |ranges| > 0 && ranges[|ranges| - 1].0 < ranges[|ranges| - 1].1
    }

    /** After the last delivery, when the objects have been released: no waiting operation of
        the load stream still reads one of them if and only if at most the last scatter waits.
        On a lazy device more than that waits. */
    lemma ReleasedUnreadIff()
      requires Valid() && step.AllSent? && EndsFull()
      ensures (forall op <- consumer.dev.side, id <- released :: !Reads(op, Tensor(id))) <==> |consumer.dev.side| <= 1
      ensures consumer.dev.lazy ==> |consumer.dev.side| > 1
    {
      hide PagedJob.Loaded, PagedJob.WellFormed, PagedJob.Issues, Device.Valid;
      hide Device.Settled, Device.Contents, Left, Flat;
      var job, side, last := consumer.job, consumer.dev.side, consumer.delivered[|consumer.delivered| - 1];
      var copy, scatter := job.CopyOp(last[|last| - 1], |last| - 1), job.ScatterOp(|job.kv| - 1);
      var before := LastIssued(job, consumer.prior, consumer.delivered);
      LastReleased(consumer.delivered);
      var rest := EndOfQueue(side, before, copy, scatter, consumer.dev.lazy);
      if |side| > 1 {
        assert copy in side && Reads(copy, Tensor(last[|last| - 1]));
      }
    }

    /** Memories that differ in released objects only. */
    ghost predicate Reused(m: Memory<R>, r: Memory<R>)
      reads this
    {
      && ShapeOf(r) == ShapeOf(m) && r.pos == m.pos && |r.tensors| == |m.tensors|
      && forall t :: 0 <= t < |m.tensors| && t !in released ==> r.tensors[t] == m.tensors[t]
    }

    ghost predicate SameLayers(m: Memory<R>, r: Memory<R>)
      requires ShapeOf(m) == ShapeOf(r) == consumer.dev.Shp()
      requires forall l :: 0 <= l < |consumer.job.kv| ==> consumer.job.kv[l] < |consumer.dev.tensors|
    {
      forall l :: 0 <= l < |consumer.job.kv| ==>
        consumer.job.kv[l] < |m.tensors| && consumer.job.kv[l] < |r.tensors|
            && m.tensors[consumer.job.kv[l]] == r.tensors[consumer.job.kv[l]]
    }

    /** Whatever is done with the released objects' memory, the load comes out the same. */
    ghost predicate ReuseHarmless(m: Memory<R>)
      requires Valid() && ShapeOf(m) == consumer.dev.Shp()
      reads this, consumer, consumer.dev, consumer.dev.Arrays()
    {
      forall r: Memory<R> :: Reused(m, r) ==>
        SameLayers(ExecAll(consumer.dev.num, consumer.dev.side, m), ExecAll(consumer.dev.num, consumer.dev.side, r))
    }

    /** Reusing released memory cannot change what is loaded if and only if at most the last
        scatter still waits: the exact condition under which releasing right after the last
        delivery is safe. `m` is the memory at that point; earlier work on the load stream
        is assumed not to write the released objects. */
    lemma ReuseHarmlessIff(m: Memory<R>, x: R, y: R)
      requires Valid() && step.AllSent? && EndsFull() && ShapeOf(m) == consumer.dev.Shp() && x != y
      requires forall op <- consumer.prior, id <- released :: Written(op) != Tensor(id)
      ensures ReuseHarmless(m) <==> |consumer.dev.side| <= 1
    {
      hide PagedJob.Loaded, PagedJob.Issues, Device.Settled, Device.Contents, Left, Flat, ExecAll, Fits;
      var dev, job, last := consumer.dev, consumer.job, consumer.delivered[|consumer.delivered| - 1];
      var src, copy, scatter := last[|last| - 1], job.CopyOp(last[|last| - 1], |last| - 1), job.ScatterOp(|job.kv| - 1);
      var before := LastIssued(job, consumer.prior, consumer.delivered);
      LastReleased(consumer.delivered);
      var rest := EndOfQueue(dev.side, before, copy, scatter, dev.lazy);
      if |dev.side| <= 1 {
        forall r: Memory<R> | Reused(m, r)
          ensures SameLayers(ExecAll(dev.num, dev.side, m), ExecAll(dev.num, dev.side, r))
        {
          FewLeft(dev.num, job, dev.side, m, r, released);
        }
      } else {
        assert copy in dev.side;
        SourceLength(job, src, m);
        forall op <- rest ensures Written(op) != Tensor(src) {
          assert op in before;
        }
        var r := OtherRow(m, src, RowCount(job) - 1, x, y);
        hide ShapeOf;
        assert Reused(m, r);
        ReuseShows(m, r, rest, src);
      }
    }

    /** A released object with another last row changes the layer. */
    lemma ReuseShows(m: Memory<R>, r: Memory<R>, rest: seq<Op>, src: nat)
      requires Valid() && consumer.job.WellFormed(ShapeOf(m)) && |consumer.job.kv| > 0 && |consumer.job.ranges| > 0
              && RowCount(consumer.job) > 0
      requires ShapeOf(m) == ShapeOf(r) == consumer.dev.Shp()
      requires consumer.dev.side == rest + [consumer.job.CopyOp(src, |consumer.job.ranges| - 1),
                                            consumer.job.ScatterOp(|consumer.job.kv| - 1)]
      requires forall op <- rest :: Written(op) != Tensor(src)
      requires src < |m.tensors| && src < |r.tensors| && src != consumer.job.staging
      requires RowCount(consumer.job) <= |m.tensors[src]| && RowCount(consumer.job) <= |r.tensors[src]|
      requires m.tensors[src][RowCount(consumer.job) - 1] != r.tensors[src][RowCount(consumer.job) - 1]
      ensures !SameLayers(ExecAll(consumer.dev.num, consumer.dev.side, m),
              ExecAll(consumer.dev.num, consumer.dev.side, r))
    {
      hide PagedJob.Loaded, PagedJob.Issues, Device.Settled, Device.Contents, Left, Flat, ExecAll, Fits;
      LastRowDecides(consumer.dev.num, consumer.job, rest, src, m);
      LastRowDecides(consumer.dev.num, consumer.job, rest, src, r);
    }
  }

  /** The memory with another key in row n of a tensor. */
  lemma OtherRow<R>(m: Memory<R>, src: nat, n: nat, x: R, y: R) returns (r: Memory<R>)
    requires src < |m.tensors| && n < |m.tensors[src]| && x != y
    ensures ShapeOf(r) == ShapeOf(m) && r.pos == m.pos && |r.tensors| == |m.tensors|
    ensures forall t :: 0 <= t < |m.tensors| && t != src ==> r.tensors[t] == m.tensors[t]
    ensures |r.tensors[src]| == |m.tensors[src]| && r.tensors[src][n] != m.tensors[src][n]
  {
    var was := m.tensors[src][n];
    r := m.(tensors := m.tensors[src := m.tensors[src][n := KV(if was.k == x then y else x, was.v)]]);
  }

  // ----- the end of the load stream -----

  function RowCount(job: PagedJob): int
    requires |job.ranges| > 0
  {
    job.ranges[|job.ranges| - 1].1 - job.ranges[|job.ranges| - 1].0
  }

  lemma SourceLength<R>(job: PagedJob, src: nat, m: Memory<R>)
    requires job.WellFormed(ShapeOf(m)) && |job.ranges| > 0 && Fits(job.CopyOp(src, |job.ranges| - 1), ShapeOf(m))
    ensures src < |m.tensors| && RowCount(job) <= |m.tensors[src]|
  {
    assert |ShapeOf(m).rows| == |m.tensors|;
  }

  /** The last copy and the last scatter are issued last; what comes before them writes the
      staging buffer or a paged layer, or waited there already. */
  lemma LastIssued(job: PagedJob, prior: seq<Op>, delivered: seq<seq<nat>>) returns (before: seq<Op>)
    requires job.Tiles() && |delivered| == |job.kv| > 0 && |job.ranges| > 0
    requires forall l :: 0 <= l < |delivered| ==> |delivered[l]| == |job.ranges|
    ensures var last, n := delivered[|delivered| - 1], |job.ranges| - 1;
            prior + job.Issues(delivered) == before + [job.CopyOp(last[n], n), job.ScatterOp(|job.kv| - 1)]
    ensures forall op <- before ::
              op in prior || Written(op) == Tensor(job.staging)
              || exists l :: 0 <= l < |job.kv| && Written(op) == Tensor(job.kv[l])
  {
    var l, n := |delivered| - 1, |job.ranges| - 1;
    var copies := job.CopyOps(delivered[l], n);
    before := prior + job.Issues(delivered[..l]) + copies;
    var copy, scatter := job.CopyOp(delivered[l][n], n), job.ScatterOp(l);
    assert prior + (job.Issues(delivered[..l]) + (copies + [copy] + [scatter])) == before + [copy, scatter];
    OwnWrites(job, delivered[..l]);
    CopiesWrite(job, delivered[l], n);
  }

  lemma {:induction false} CopiesWrite(job: PagedJob, objs: seq<nat>, n: nat)
    requires job.Tiles() && n <= |objs| == |job.ranges|
    ensures forall op <- job.CopyOps(objs, n) :: Written(op) == Tensor(job.staging)
  {
    if n > 0 { CopiesWrite(job, objs, n - 1); }
  }

  lemma {:induction false} OwnWrites(job: PagedJob, delivered: seq<seq<nat>>)
    requires job.Tiles() && |delivered| <= |job.kv|
    requires forall l :: 0 <= l < |delivered| ==> |delivered[l]| == |job.ranges|
    ensures forall op <- job.Issues(delivered) ::
              Written(op) == Tensor(job.staging) || exists l :: 0 <= l < |job.kv| && Written(op) == Tensor(job.kv[l])
    decreases |delivered|
  {
    if delivered != [] {
      var l := |delivered| - 1;
      OwnWrites(job, delivered[..l]);
      CopiesWrite(job, delivered[l], |job.ranges|);
      assert Written(job.ScatterOp(l)) == Tensor(job.kv[l]);
    }
  }

  lemma LastReleased(delivered: seq<seq<nat>>)
    requires delivered != [] && delivered[|delivered| - 1] != []
    ensures Flat(delivered) != []
            && Flat(delivered)[|Flat(delivered)| - 1] == delivered[|delivered| - 1][|delivered[|delivered| - 1]| - 1]
    ensures delivered[|delivered| - 1][|delivered[|delivered| - 1]| - 1] in Flat(delivered)
  {
  }

  /** What can be left of a queue that ends with a copy and a scatter. */
  lemma EndOfQueue(side: seq<Op>, before: seq<Op>, copy: Op, scatter: Op, lazy: bool) returns (rest: seq<Op>)
    requires Left(side, before + [copy, scatter], lazy)
    ensures |side| > 1 ==> side == rest + [copy, scatter] && forall op <- rest :: op in before
    ensures |side| == 1 ==> side == [scatter]
    ensures lazy ==> |side| > 1
  {
    var all := before + [copy, scatter];
    rest := if |side| > 1 then before[|all| - |side|..] else [];
  }

  lemma FewLeft<R>(num: Numerics<R>, job: PagedJob, side: seq<Op>, m: Memory<R>, r: Memory<R>, released: seq<nat>)
    requires AllFit(side, ShapeOf(m)) && ShapeOf(r) == ShapeOf(m) && job.WellFormed(ShapeOf(m))
    requires side == [] || (|job.kv| > 0 && side == [job.ScatterOp(|job.kv| - 1)])
    requires |r.tensors| == |m.tensors|
    requires forall t :: 0 <= t < |m.tensors| && t !in released ==> r.tensors[t] == m.tensors[t]
    requires forall id <- released :: id != job.staging && id !in job.kv
    ensures forall l :: 0 <= l < |job.kv| ==>
              && job.kv[l] < |ExecAll(num, side, m).tensors| && job.kv[l] < |ExecAll(num, side, r).tensors|
              && ExecAll(num, side, m).tensors[job.kv[l]] == ExecAll(num, side, r).tensors[job.kv[l]]
  {
    hide PagedJob.WellFormed, ExecAll, Fits;
    forall l | 0 <= l < |job.kv|
      ensures job.kv[l] < |ExecAll(num, side, m).tensors| && job.kv[l] < |ExecAll(num, side, r).tensors|
      ensures ExecAll(num, side, m).tensors[job.kv[l]] == ExecAll(num, side, r).tensors[job.kv[l]]
    {
      FewLeftAt(num, job, side, m, r, l);
    }
  }

  lemma FewLeftAt<R>(num: Numerics<R>, job: PagedJob, side: seq<Op>, m: Memory<R>, r: Memory<R>, l: nat)
    requires AllFit(side, ShapeOf(m)) && ShapeOf(r) == ShapeOf(m) && job.WellFormed(ShapeOf(m)) && l < |job.kv|
    requires side == [] || side == [job.ScatterOp(|job.kv| - 1)]
    requires |r.tensors| == |m.tensors|
    requires forall h :: 0 <= h < |job.kv| ==> job.kv[h] < |m.tensors| ==> m.tensors[job.kv[h]] == r.tensors[job.kv[h]]
    requires job.staging < |m.tensors| ==> m.tensors[job.staging] == r.tensors[job.staging]
    ensures job.kv[l] < |ExecAll(num, side, m).tensors| && job.kv[l] < |ExecAll(num, side, r).tensors|
    ensures ExecAll(num, side, m).tensors[job.kv[l]] == ExecAll(num, side, r).tensors[job.kv[l]]
  {
    hide ScatterRows, Exec, Fits, Within, PagedJob.Tiles;
    assert |ShapeOf(m).rows| == |m.tensors|;
    assert job.kv[l] < |m.tensors|;
    if side != [] {
      var op := side[0];
      assert side[1..] == [] && op in side;
      ExecFrame(num, op, m);
      ExecFrame(num, op, r);
      SameScatter(num, op, m, r);
    }
  }

  lemma SameScatter<R>(num: Numerics<R>, op: Op, m: Memory<R>, r: Memory<R>)
    requires op.Scatter? && Fits(op, ShapeOf(m)) && ShapeOf(r) == ShapeOf(m)
    requires op.dst < |m.tensors| && op.src < |m.tensors| && op.dst < |r.tensors| && op.src < |r.tensors|
    requires m.tensors[op.dst] == r.tensors[op.dst] && m.tensors[op.src] == r.tensors[op.src]
    ensures op.dst < |Exec(num, op, m).tensors| && op.dst < |Exec(num, op, r).tensors|
    ensures Exec(num, op, m).tensors[op.dst] == Exec(num, op, r).tensors[op.dst]
  {
  }

  /** With the last copy still waiting, the last row of the last released object is what
      ends in the slot of the last token. */
  lemma LastRowDecides<R>(num: Numerics<R>, job: PagedJob, rest: seq<Op>, src: nat, m: Memory<R>)
    requires job.WellFormed(ShapeOf(m)) && |job.kv| > 0 && |job.ranges| > 0 && RowCount(job) > 0
    requires AllFit(rest + [job.CopyOp(src, |job.ranges| - 1), job.ScatterOp(|job.kv| - 1)], ShapeOf(m))
    requires forall op <- rest :: Written(op) != Tensor(src)
    requires src < |m.tensors| && src != job.staging && RowCount(job) <= |m.tensors[src]|
    ensures var ops := rest + [job.CopyOp(src, |job.ranges| - 1), job.ScatterOp(|job.kv| - 1)];
      var out, kv := ExecAll(num, ops, m), job.kv[|job.kv| - 1];
      && |job.window| > 0 && kv < |out.tensors| && job.window[|job.window| - 1] < |out.tensors[kv]|
      && out.tensors[kv][job.window[|job.window| - 1]] == m.tensors[src][RowCount(job) - 1]
  {
    hide Fits, CopyRows;
    var n, copy, scatter := |job.ranges| - 1, job.CopyOp(src, |job.ranges| - 1), job.ScatterOp(|job.kv| - 1);
    assert rest + [copy, scatter] == rest + [copy] + [scatter];
    assert copy in rest + [copy, scatter] && scatter in rest + [copy, scatter];
    var m1 := ExecAll(num, rest, m);
    UnwrittenTensor(num, rest, m, src);
    ExecAllAppend(num, rest, copy, m);
    ExecAllAppend(num, rest + [copy], scatter, m);
    CopyThenScatter(num, job, src, m1);
  }

  lemma CopyThenScatter<R>(num: Numerics<R>, job: PagedJob, src: nat, m: Memory<R>)
    requires job.WellFormed(ShapeOf(m)) && |job.kv| > 0 && |job.ranges| > 0 && RowCount(job) > 0
    requires src < |m.tensors| && src != job.staging && RowCount(job) <= |m.tensors[src]|
    requires Fits(job.CopyOp(src, |job.ranges| - 1), ShapeOf(m)) && Fits(job.ScatterOp(|job.kv| - 1), ShapeOf(m))
    ensures var copied := Exec(num, job.CopyOp(src, |job.ranges| - 1), m);
      var out, kv := Exec(num, job.ScatterOp(|job.kv| - 1), copied), job.kv[|job.kv| - 1];
      && |job.window| > 0 && kv < |out.tensors| && job.window[|job.window| - 1] < |out.tensors[kv]|
      && out.tensors[kv][job.window[|job.window| - 1]] == m.tensors[src][RowCount(job) - 1]
  {
    hide Fits, Within, Exec;
    var copy, scatter := job.CopyOp(src, |job.ranges| - 1), job.ScatterOp(|job.kv| - 1);
    LastRowCopied(num, job, src, m);
    LastRowScattered(num, scatter, Exec(num, copy, m));
  }

  lemma LastRowCopied<R>(num: Numerics<R>, job: PagedJob, src: nat, m: Memory<R>)
    requires job.WellFormed(ShapeOf(m)) && |job.ranges| > 0 && RowCount(job) > 0
    requires src < |m.tensors| && src != job.staging && RowCount(job) <= |m.tensors[src]|
    requires Fits(job.CopyOp(src, |job.ranges| - 1), ShapeOf(m))
    ensures |job.window| > 0
    ensures var out := Exec(num, job.CopyOp(src, |job.ranges| - 1), m);
      && job.staging < |out.tensors| && |job.window| == |out.tensors[job.staging]|
      && out.tensors[job.staging][|job.window| - 1] == m.tensors[src][RowCount(job) - 1]
  {
    hide Fits, Within;
    assert |m.tensors[job.staging]| == ShapeOf(m).rows[job.staging] == |job.window|;
  }

  lemma LastRowScattered<R>(num: Numerics<R>, op: Op, m: Memory<R>)
    requires op.Scatter? && Fits(op, ShapeOf(m)) && |op.slots| > 0
    ensures op.dst < |m.tensors| && op.src < |m.tensors| && |op.slots| <= |m.tensors[op.src]|
    ensures var out := Exec(num, op, m);
      && op.dst < |out.tensors| && op.slots[|op.slots| - 1] < |out.tensors[op.dst]|
      && out.tensors[op.dst][op.slots[|op.slots| - 1]] == m.tensors[op.src][|op.slots| - 1]
  {
    assert |ShapeOf(m).rows| == |m.tensors|;
  }

  /** Every fetched layer can be delivered. */
  ghost predicate Fetchable<R(0)>(consumer: Loader<R>, fetched: seq<seq<nat>>)
    requires consumer.job.Tiles()
    reads consumer, consumer.dev
  {
    |fetched| == |consumer.job.kv| && forall l :: 0 <= l < |fetched| ==> consumer.Deliverable(fetched[l])
  }

  /** What waits on the current stream touches neither the staging buffer nor the paged
      layers and writes none of the fetched objects. */
  ghost predicate Unhindered<R(0)>(consumer: Loader<R>, fetched: seq<seq<nat>>)
    requires |fetched| == |consumer.job.kv|
    reads consumer, consumer.dev
  {
    forall l :: 0 <= l < |fetched| ==> consumer.MainApart(l, fetched[l])
  }

  /** What the connector was sent is what the objects held when the request began. */
  ghost predicate SentIs<R>(sent: seq<seq<seq<KV<R>>>>, was: Memory<R>, fetched: seq<seq<nat>>) {
    && |sent| <= |fetched|
    && forall l :: 0 <= l < |sent| ==>
         && (forall j :: 0 <= j < |fetched[l]| ==> fetched[l][j] < |was.tensors|)
         && sent[l] == PagedLayers(was, fetched[l])
  }

  lemma SameRows<R(0)>(consumer: Loader<R>, was: Memory<R>, now: Memory<R>, objs: seq<nat>)
    requires consumer.job.Tiles() && consumer.Deliverable(objs) && Untouched(was, now, consumer.job)
    requires ShapeOf(was) == ShapeOf(now) == consumer.dev.Shp()
    ensures forall j :: 0 <= j < |objs| ==> objs[j] < |was.tensors| && objs[j] < |now.tensors|
    ensures PagedLayers(now, objs) == PagedLayers(was, objs)
  {
  }

  /** A whole request, for any number of layers: each paged layer ends with the fetched rows
      scattered through the slot mapping, nothing but the staging buffer and the paged
      layers changes, every fetched object is released once and in order, and the generators
      are resumed exactly as often as they yield. */
  method RetrieveAll<R(0,!new)>(eng: RetrieveLayer<R>, fetched: seq<seq<nat>>)
    requires eng.Separate() && eng.step == NotStarted && eng.yieldCount == 0 && eng.toCountDown == []
            && eng.released == []
    requires eng.consumer.Layout() && eng.consumer.phase == Created && eng.consumer.layerId == 0
    requires eng.consumer.yieldCount == 0 && eng.consumer.sent == [] && Fetchable(eng.consumer, fetched)
    requires Unhindered(eng.consumer, fetched)
    modifies eng, eng.consumer, eng.consumer.dev, eng.consumer.dev.Arrays()
    ensures eng.Valid() && eng.yieldCount == |fetched| + 2
    ensures eng.released == Flat(fetched)
    ensures var job, was, now := eng.consumer.job, old(eng.consumer.dev.Settled()), eng.consumer.dev.Settled();
            && Untouched(was, now, job)
            && forall l :: 0 <= l < |fetched| ==> LayerHolds(job, was, now, fetched[l], job.kv[l])
  {
    hide PagedJob.Loaded, PagedJob.WellFormed, PagedJob.Issues, Device.Valid;
    hide Device.Settled, Device.Contents, LayerLoad.Untouched, Left;
    hide Flat, ScatterRows, SentIs, LayerHolds;
    var consumer := eng.consumer;
    ghost var was := consumer.dev.Settled();
    eng.Start();
    NothingTouched(was, consumer.job);
    NothingSent(was, fetched);
    while eng.step.WaitingForLayer?
      invariant eng.Valid() && !eng.step.Done? && Underway(eng, fetched, was)
      decreases |fetched| - consumer.layerId
    {
      DeliverNext(eng, fetched, was);
    }
    assert fetched[..|fetched|] == fetched;
    eng.Finish();
    AllHold(consumer, was, fetched);
  }

  /** Part-way through a request that began with memory `was`. */
  ghost predicate Underway<R(0,!new)>(eng: RetrieveLayer<R>, fetched: seq<seq<nat>>, was: Memory<R>)
    requires eng.Valid()
    reads eng, eng.consumer, eng.consumer.dev, eng.consumer.dev.Arrays()
  {
    var consumer := eng.consumer;
    && consumer.layerId <= |fetched|
    && Fetchable(consumer, fetched) && Unhindered(consumer, fetched) && SentIs(consumer.sent, was, fetched)
    && ShapeOf(was) == consumer.dev.Shp()
    && (forall l :: 0 <= l < |consumer.job.kv| ==> consumer.job.kv[l] < |was.tensors|)
    && consumer.orig == PagedLayers(was, consumer.job.kv)
    && Untouched(was, consumer.dev.Settled(), consumer.job)
    && eng.toCountDown == Flat(fetched[..consumer.layerId])
  }

  method DeliverNext<R(0,!new)>(eng: RetrieveLayer<R>, fetched: seq<seq<nat>>, ghost was: Memory<R>)
    requires eng.Valid() && eng.step.WaitingForLayer? && Underway(eng, fetched, was)
    modifies eng, eng.consumer, eng.consumer.dev, eng.consumer.dev.Arrays()
    ensures eng.Valid() && !eng.step.Done? && Underway(eng, fetched, was)
    ensures eng.consumer.layerId == old(eng.consumer.layerId) + 1
  {
    hide PagedJob.Loaded, PagedJob.WellFormed, PagedJob.Issues, Device.Valid;
    hide Device.Settled, Device.Contents, LayerLoad.Untouched, Left;
    hide Flat, ScatterRows, SentIs, Touches;
    var consumer := eng.consumer;
    ghost var l, m := consumer.layerId, consumer.dev.Settled();
    SameRows(consumer, was, m, fetched[l]);
    SentNext(consumer.sent, was, fetched);
    assert fetched[..l + 1] == fetched[..l] + [fetched[l]];
    FlatAppend(fetched[..l], fetched[l]);
    eng.Deliver(fetched[consumer.layerId]);
    TouchedLater(was, m, consumer.dev.Settled(), consumer.job);
  }

  lemma NothingSent<R>(was: Memory<R>, fetched: seq<seq<nat>>)
    ensures SentIs([], was, fetched) && Flat(fetched[..0]) == []
  {
  }

  lemma SentNext<R>(sent: seq<seq<seq<KV<R>>>>, was: Memory<R>, fetched: seq<seq<nat>>)
    requires SentIs(sent, was, fetched) && |sent| < |fetched|
    requires forall j :: 0 <= j < |fetched[|sent|]| ==> fetched[|sent|][j] < |was.tensors|
    ensures SentIs(sent + [PagedLayers(was, fetched[|sent|])], was, fetched)
  {
  }

  /** Tensor `kv` went from `was` to `now` by one scatter of the objects' rows. */
  ghost predicate LayerHolds<R>(job: PagedJob, was: Memory<R>, now: Memory<R>, objs: seq<nat>, kv: nat) {
    && kv < |was.tensors| && kv < |now.tensors| && Within(job.window, |was.tensors[kv]|)
    && (forall j :: 0 <= j < |objs| ==> objs[j] < |was.tensors|)
    && |Flat(PagedLayers(was, objs))| == |job.window|
    && now.tensors[kv] == ScatterRows(was.tensors[kv], Flat(PagedLayers(was, objs)), job.window)
  }

  lemma AllHold<R(0)>(consumer: Loader<R>, was: Memory<R>, fetched: seq<seq<nat>>)
    requires consumer.dev.Valid() && consumer.job.WellFormed(consumer.dev.Shp()) && |fetched| == |consumer.job.kv|
    requires SentIs(consumer.sent, was, fetched) && |consumer.sent| == |fetched|
    requires ShapeOf(was) == consumer.dev.Shp()
    requires forall l :: 0 <= l < |consumer.job.kv| ==> consumer.job.kv[l] < |was.tensors|
    requires consumer.orig == PagedLayers(was, consumer.job.kv)
    requires consumer.job.Loaded(consumer.dev.Settled(), consumer.orig, consumer.sent, |consumer.job.kv|)
    ensures forall l :: 0 <= l < |fetched| ==>
              LayerHolds(consumer.job, was, consumer.dev.Settled(), fetched[l], consumer.job.kv[l])
  {
    hide Flat, ScatterRows, Device.Settled;
  }
}
