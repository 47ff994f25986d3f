/** The one place where the buffered load can go wrong. Its first resume clears the position
    table on the current stream, the first delivery writes the table on the load stream, and
    nothing orders the two. This is when the order matters. */
module FirstDelivery {
  import opened DeviceStreams
  import opened LoadJob
  import opened BufferedLoader

  /** The position writes of the first k chunks, in the order they are issued. */
  function Puts(job: Job, objs: seq<MemObj>, k: nat): (r: seq<Op>)
    requires job.WellFormed() && k <= |objs| == |job.starts|
    ensures |r| == k
  {
    if k == 0 then [] else Puts(job, objs, k - 1) + [PositionsOp(job, objs[k - 1].cached, k - 1)]
  }

  predicate Sized(job: Job, objs: seq<MemObj>)
    requires job.WellFormed()
  {
    && |objs| == |job.starts|
    && forall j :: 0 <= j < |objs| ==> |objs[j].cached| == job.ends[j] - job.starts[j]
  }

  // ----- hazard freedom of the first delivery -----

  /** At the first delivery the position writes race with nothing that waits if and only if
      the current stream, and with it the zero fill, has run. */
  lemma FirstDeliveryRaceFreeIff<R(0)>(loader: Loader<R>, objs: seq<MemObj>)
    requires loader.Valid() && loader.layerId == 0 && loader.phase.AwaitLayer? && loader.Deliverable(objs)
    ensures (forall j, op :: 0 <= j < |objs| && op in loader.dev.main ==>
            Disjoint(PositionsOp(loader.job, objs[j].cached, j), op))
       <==> loader.dev.main == []
  {
    if loader.dev.main != [] {
      var op := loader.dev.main[0];
      assert op in loader.dev.main && op.SetPositions?;
      assert !Disjoint(PositionsOp(loader.job, objs[0].cached, 0), op);
    }
  }

  /** The race is harmless, because both sides write the same, exactly when the zero fill has
      run or every cached position is zero anyway: the condition `Send` asks for. */
  lemma FirstDeliveryHarmlessIff<R(0)>(loader: Loader<R>, objs: seq<MemObj>)
    requires loader.Valid() && loader.layerId == 0 && loader.phase.AwaitLayer? && loader.Deliverable(objs)
    ensures (forall j :: 0 <= j < |objs| ==> ClearOf(PositionsOp(loader.job, objs[j].cached, j), loader.dev.main))
       <==> loader.Calm(objs)
  {
    hide Flight.AtYield, Device.Valid, Device.Settled;
    if loader.Calm(objs) {
      forall j | 0 <= j < |objs| ensures ClearOf(PositionsOp(loader.job, objs[j].cached, j), loader.dev.main) {
        loader.CalmWrites(objs, j);
      }
    } else if forall j :: 0 <= j < |objs| ==> ClearOf(PositionsOp(loader.job, objs[j].cached, j), loader.dev.main) {
      var op := loader.dev.main[0];
      assert op in loader.dev.main && op == ClearOp(loader.job);
      var j, i :| 0 <= j < |objs| && 0 <= i < |objs[j].cached| && objs[j].cached[i] != 0;
      ClearsOtherwise(loader.job, objs[j].cached, j, i);
      assert false;
    }
  }

  lemma ClearsOtherwise(job: Job, cached: seq<int>, j: nat, i: nat)
    requires job.WellFormed() && j < |job.starts| && i < |cached| == job.ends[j] - job.starts[j] && cached[i] != 0
    ensures !Independent(PositionsOp(job, cached, j), ClearOp(job))
  {
    var op, clear := PositionsOp(job, cached, j), ClearOp(job);
    assert op.at + i < |clear.values| && clear.values[op.at + i - clear.at] == 0;
  }

  // ----- what the table holds afterwards -----

  ghost predicate Fills(ops: seq<Op>, s: Shape) {
    forall op <- ops :: op.SetPositions? && Fits(op, s)
  }

  predicate AllZero(p: seq<int>) {
    forall g :: 0 <= g < |p| ==> p[g] == 0
  }

  /** Writes of zeros, in any order with the clear, leave zeros once the clear has run. */
  lemma {:induction false} ZerosStay<R>(num: Numerics<R>, s: seq<Op>, clear: seq<Op>, puts: seq<Op>, m: Memory<R>)
    requires Interleaving(s, clear, puts)
    requires clear == [] || (clear == [clear[0]] && clear[0].SetPositions? && clear[0].at == 0)
    requires clear != [] ==> |clear[0].values| == |m.pos| && AllZero(clear[0].values)
    requires clear == [] ==> AllZero(m.pos)
    requires Fills(puts, ShapeOf(m)) && forall op <- puts :: AllZero(op.values)
    ensures AllFit(s, ShapeOf(m)) && AllZero(ExecAll(num, s, m).pos)
    decreases |s|
  {
    if s == [] {
    } else if clear != [] && s[0] == clear[0] && Interleaving(s[1..], clear[1..], puts) {
      ZerosStay(num, s[1..], clear[1..], puts, Exec(num, s[0], m));
    } else {
      assert puts[0] in puts;
      ZerosStay(num, s[1..], clear, puts[1..], Exec(num, s[0], m));
    }
  }

  lemma {:induction false} PutsFit(job: Job, objs: seq<MemObj>, k: nat, s: Shape)
    requires job.WellFormed() && Sized(job, objs) && k <= |objs| && s.positions == job.Tokens()
    ensures Fills(Puts(job, objs, k), s)
    ensures ZeroCached(objs) ==> forall op <- Puts(job, objs, k) :: AllZero(op.values)
  {
    if k > 0 { PutsFit(job, objs, k - 1, s); }
  }

  /** Without a waiting clear the writes put every chunk's cached positions in place. */
  lemma {:induction false} PutsArrive<R>(num: Numerics<R>, job: Job, objs: seq<MemObj>, chunks: seq<Chunk<R>>, k: nat,
                                         m: Memory<R>)
    requires job.WellFormed() && Sized(job, objs) && k <= |objs| && |m.pos| == job.Tokens()
    requires Matches(job, chunks) && forall j :: 0 <= j < |objs| ==> chunks[j].cached == objs[j].cached
    ensures AllFit(Puts(job, objs, k), ShapeOf(m))
    ensures PositionsIn(ExecAll(num, Puts(job, objs, k), m).pos, job, chunks, k)
  {
    if k > 0 {
      PutsArrive(num, job, objs, chunks, k - 1, m);
      OneMorePut(num, job, chunks, k - 1, Puts(job, objs, k - 1), m);
    } else {
      NothingIn(m.pos, job, chunks);
    }
  }

  lemma OneMorePut<R>(num: Numerics<R>, job: Job, chunks: seq<Chunk<R>>, j: nat, before: seq<Op>, m: Memory<R>)
    requires job.WellFormed() && Matches(job, chunks) && j < |chunks| && AllFit(before, ShapeOf(m))
    requires PositionsIn(ExecAll(num, before, m).pos, job, chunks, j)
    ensures var ops := before + [PositionsOp(job, chunks[j].cached, j)];
            AllFit(ops, ShapeOf(m)) && PositionsIn(ExecAll(num, ops, m).pos, job, chunks, j + 1)
  {
    hide PositionsIn, Fits, Exec, Job.WellFormed, ExecAll, AllFit;
    OnePut(num, job, chunks, j, ExecAll(num, before, m));
    ExecAllAppend(num, before, PositionsOp(job, chunks[j].cached, j), m);
  }

  lemma OnePut<R>(num: Numerics<R>, job: Job, chunks: seq<Chunk<R>>, j: nat, m: Memory<R>)
    requires job.WellFormed() && Matches(job, chunks) && j < |chunks| && PositionsIn(m.pos, job, chunks, j)
    ensures Fits(PositionsOp(job, chunks[j].cached, j), ShapeOf(m))
    ensures PositionsIn(Exec(num, PositionsOp(job, chunks[j].cached, j), m).pos, job, chunks, j + 1)
  {
    hide SetRange;
    CopyPositions(m.pos, job, chunks, j);
  }

  lemma NothingIn<R>(pos: seq<int>, job: Job, chunks: seq<Chunk<R>>)
    requires job.WellFormed() && Matches(job, chunks) && |pos| == job.Tokens()
    ensures PositionsIn(pos, job, chunks, 0)
  {
  }

  lemma {:induction false} AloneInOrder(s: seq<Op>, b: seq<Op>)
    ensures Interleaving(s, [], b) <==> s == b
    decreases |s|
  {
    if s != [] && b != [] { AloneInOrder(s[1..], b[1..]); }
  }

  /** The device may run the whole load stream first. */
  lemma {:induction false} LastIsAnOrder(a: Op, b: seq<Op>)
    ensures Interleaving(b + [a], [a], b)
    decreases |b|
  {
    if b == [] {
      assert [a][1..] == [];
    } else {
      assert (b + [a])[1..] == b[1..] + [a];
      LastIsAnOrder(a, b[1..]);
    }
  }

  /** Whatever order the device picks, every chunk's cached positions end in the table. */
  ghost predicate EveryOrderRight<R>(num: Numerics<R>, job: Job, chunks: seq<Chunk<R>>, m: Memory<R>, waiting: seq<Op>,
                                     puts: seq<Op>)
    requires job.WellFormed() && Matches(job, chunks)
  {
    forall s: seq<Op> :: Interleaving(s, waiting, puts) ==>
      AllFit(s, ShapeOf(m)) && PositionsIn(ExecAll(num, s, m).pos, job, chunks, |chunks|)
  }

  lemma ZeroTableIsRight<R>(pos: seq<int>, job: Job, objs: seq<MemObj>, chunks: seq<Chunk<R>>)
    requires job.WellFormed() && Sized(job, objs) && Matches(job, chunks) && |pos| == job.Tokens()
    requires forall j :: 0 <= j < |objs| ==> chunks[j].cached == objs[j].cached
    requires AllZero(pos)
    ensures PositionsIn(pos, job, chunks, |chunks|) <==> ZeroCached(objs)
  {
    if PositionsIn(pos, job, chunks, |chunks|) {
      forall j, i | 0 <= j < |objs| && 0 <= i < |objs[j].cached| ensures objs[j].cached[i] == 0 {
        assert pos[job.At(j, i)] == chunks[j].cached[i];
      }
    }
  }

  lemma NothingWaits<R>(num: Numerics<R>, job: Job, objs: seq<MemObj>, chunks: seq<Chunk<R>>, m: Memory<R>)
    requires job.WellFormed() && Sized(job, objs) && Matches(job, chunks) && |m.pos| == job.Tokens()
    requires forall j :: 0 <= j < |objs| ==> chunks[j].cached == objs[j].cached
    ensures EveryOrderRight(num, job, chunks, m, [], Puts(job, objs, |objs|))
  {
    hide ExecAll, PositionsIn, Fits, Job.WellFormed;
    PutsArrive(num, job, objs, chunks, |objs|, m);
    forall s: seq<Op> | Interleaving(s, [], Puts(job, objs, |objs|)) ensures s == Puts(job, objs, |objs|) {
      AloneInOrder(s, Puts(job, objs, |objs|));
    }
  }

  lemma WaitingClear<R>(num: Numerics<R>, job: Job, objs: seq<MemObj>, chunks: seq<Chunk<R>>, m: Memory<R>)
    requires job.WellFormed() && Sized(job, objs) && Matches(job, chunks) && |m.pos| == job.Tokens()
    requires forall j :: 0 <= j < |objs| ==> chunks[j].cached == objs[j].cached
    ensures EveryOrderRight(num, job, chunks, m, [ClearOp(job)], Puts(job, objs, |objs|)) <==> ZeroCached(objs)
  {
    hide SetRange, PositionsIn;
    var clear, puts := ClearOp(job), Puts(job, objs, |objs|);
    PutsFit(job, objs, |objs|, ShapeOf(m));
    if ZeroCached(objs) {
      forall s: seq<Op> | Interleaving(s, [clear], puts)
        ensures AllFit(s, ShapeOf(m)) && PositionsIn(ExecAll(num, s, m).pos, job, chunks, |chunks|)
      {
        ZerosStay(num, s, [clear], puts, m);
        ZeroTableIsRight(ExecAll(num, s, m).pos, job, objs, chunks);
      }
    }
    if EveryOrderRight(num, job, chunks, m, [clear], puts) {
      LastIsAnOrder(clear, puts);
      ExecAllAppend(num, puts, clear, m);
      var table := ExecAll(num, puts + [clear], m).pos;
      FullClear(job, ExecAll(num, puts, m).pos);
      ZeroTableIsRight(table, job, objs, chunks);
    }
  }

  lemma FullClear(job: Job, p: seq<int>)
    requires job.WellFormed() && |p| == job.Tokens()
    ensures AllZero(SetRange(p, 0, ClearOp(job).values))
  {
  }

  lemma WhatArrives<R(0)>(loader: Loader<R>, objs: seq<MemObj>, m: Memory<R>)
    requires loader.Valid() && loader.Deliverable(objs) && ShapeOf(m) == loader.dev.Shp()
    ensures |m.pos| == loader.job.Tokens() && Sized(loader.job, objs)
    ensures forall j :: 0 <= j < |objs| ==> objs[j].id < |m.tensors|
    ensures Matches(loader.job, ChunksOf(m, objs))
    ensures forall j :: 0 <= j < |objs| ==> ChunksOf(m, objs)[j].cached == objs[j].cached
  {
    hide Device.Valid, Device.Settled, Flight.AtYield;
    assert |m.pos| == ShapeOf(m).positions;
    assert |m.tensors| == |ShapeOf(m).rows|;
    assert forall j :: 0 <= j < |objs| ==> |m.tensors[objs[j].id]| == ShapeOf(m).rows[objs[j].id];
  }

  /** The first delivery is right in every order the device may pick if and only if the zero
      fill has run or every cached position is zero anyway. */
  lemma FirstPositionsRightIff<R(0)>(loader: Loader<R>, objs: seq<MemObj>)
    requires loader.Valid() && loader.layerId == 0 && loader.phase.AwaitLayer? && loader.Deliverable(objs)
    requires loader.dev.main == [] || loader.dev.main == [ClearOp(loader.job)]
    ensures forall j :: 0 <= j < |objs| ==> objs[j].id < |loader.dev.Contents().tensors|
    ensures Matches(loader.job, ChunksOf(loader.dev.Contents(), objs))
    ensures EveryOrderRight(loader.dev.num, loader.job, ChunksOf(loader.dev.Contents(), objs), loader.dev.Contents(),
                            loader.dev.main, Puts(loader.job, objs, |objs|))
       <==> loader.Calm(objs)
  {
    hide Device.Valid, Device.Settled, Device.Contents, Flight.AtYield, ExecAll, Exec;
    hide Fits, PositionsIn, Loader.Valid, ClearOp, ShapeOf, EveryOrderRight;
    var dev, job, m := loader.dev, loader.job, loader.dev.Contents();
    WhatArrives(loader, objs, m);
    var chunks := ChunksOf(m, objs);
    if dev.main == [] {
      NothingWaits(dev.num, job, objs, chunks, m);
    } else {
      WaitingClear(dev.num, job, objs, chunks, m);
    }
  }

  // ----- what the layers are then -----

  /** The re-encoded buffer of a layer whose rows came in raw, for a given position table. */
  function Tile<R>(num: Numerics<R>, rows: seq<KV<R>>, pos: seq<int>, job: Job): (r: seq<KV<R>>)
    requires job.WellFormed() && |pos| == |rows|
  {
    ZeroedRows(num, RopeRows(num, rows, pos, job.Base()), job.Gaps())
  }

  ghost predicate EncodedAlways<R(!new)>(rows: seq<KV<R>>, pos: seq<int>, job: Job, first: seq<Chunk<R>>,
                                         chunks: seq<Chunk<R>>)
    requires job.WellFormed() && Matches(job, first) && Matches(job, chunks) && |pos| == |rows|
  {
    forall num: Numerics<R> :: EncodedIn(num, Tile(num, rows, pos, job), job, first, chunks)
  }

  /** Re-encoding raw rows is right for every rope function exactly when the table holds the
      cached positions: a rope that tells the wrong position from the right one shows it. */
  lemma EncodeLayerIff<R(!new)>(rows: seq<KV<R>>, pos: seq<int>, job: Job, first: seq<Chunk<R>>, chunks: seq<Chunk<R>>,
                                x: R, y: R)
    requires job.WellFormed() && Matches(job, first) && Matches(job, chunks)
    requires RawIn(rows, job, chunks, |chunks|) && |pos| == job.Tokens() && x != y
    ensures EncodedAlways(rows, pos, job, first, chunks) <==> PositionsIn(pos, job, first, |first|)
  {
    if PositionsIn(pos, job, first, |first|) {
      forall num: Numerics<R> ensures EncodedIn(num, Tile(num, rows, pos, job), job, first, chunks) {
        EncodeLayer(num, rows, pos, job, first, chunks);
      }
    } else if EncodedAlways(rows, pos, job, first, chunks) {
      var j, i :| 0 <= j < |first| && 0 <= i < |first[j].cached| && pos[job.At(j, i)] != first[j].cached[i];
      WrongPositionShows(rows, pos, job, first, chunks, j, i, x, y);
      assert false;
    }
  }

  lemma WrongPositionShows<R(!new)>(rows: seq<KV<R>>, pos: seq<int>, job: Job, first: seq<Chunk<R>>,
                                    chunks: seq<Chunk<R>>, j: nat, i: nat, x: R, y: R)
    requires job.WellFormed() && Matches(job, first) && Matches(job, chunks)
    requires RawIn(rows, job, chunks, |chunks|) && |pos| == job.Tokens() && x != y
    requires j < |first| && i < |first[j].cached| && pos[job.At(j, i)] != first[j].cached[i]
    ensures !EncodedAlways(rows, pos, job, first, chunks)
  {
    var g := job.At(j, i);
    var num := Numerics((was: int, now: int, k: R) => if was == pos[g] then x else y, x);
    assert Tile(num, rows, pos, job)[g].k == x;
    assert Encoded(num, job, first, chunks, j, i).k == y;
    assert !EncodedIn(num, Tile(num, rows, pos, job), job, first, chunks);
  }

  /** Every order the device may pick leaves a table with which every layer of the request is
      re-encoded right, whatever the rope function. */
  ghost predicate EveryTileRight<R(!new)>(num: Numerics<R>, job: Job, first: seq<Chunk<R>>, m: Memory<R>,
                                          waiting: seq<Op>, puts: seq<Op>, rows: seq<KV<R>>, chunks: seq<Chunk<R>>)
    requires job.WellFormed() && Matches(job, first) && Matches(job, chunks) && |m.pos| == |rows|
  {
    forall s: seq<Op> :: Interleaving(s, waiting, puts) ==>
      AllFit(s, ShapeOf(m)) && |ExecAll(num, s, m).pos| == |rows|
          && EncodedAlways(rows, ExecAll(num, s, m).pos, job, first, chunks)
  }

  /** The first delivery decides the layers: each one, raw in its buffer, is re-encoded right in
      every order if and only if the zero fill has run or every cached position is zero. */
  lemma LayersRightIff<R(0,!new)>(loader: Loader<R>, objs: seq<MemObj>, rows: seq<KV<R>>, chunks: seq<Chunk<R>>,
                                  x: R, y: R)
    requires loader.Valid() && loader.layerId == 0 && loader.phase.AwaitLayer? && loader.Deliverable(objs)
    requires loader.dev.main == [] || loader.dev.main == [ClearOp(loader.job)]
    requires Matches(loader.job, chunks) && RawIn(rows, loader.job, chunks, |chunks|) && x != y
    ensures forall j :: 0 <= j < |objs| ==> objs[j].id < |loader.dev.Contents().tensors|
    ensures Matches(loader.job, ChunksOf(loader.dev.Contents(), objs)) && |loader.dev.Contents().pos| == |rows|
    ensures EveryTileRight(loader.dev.num, loader.job, ChunksOf(loader.dev.Contents(), objs), loader.dev.Contents(),
                           loader.dev.main, Puts(loader.job, objs, |objs|), rows, chunks)
       <==> loader.Calm(objs)
  {
    assert |rows| == loader.job.Tokens();
    hide *;
    var dev, job, m := loader.dev, loader.job, loader.dev.Contents();
    WhatArrives(loader, objs, m);
    FirstPositionsRightIff(loader, objs);
    TilesIffPositions(dev.num, job, ChunksOf(m, objs), m, dev.main, Puts(job, objs, |objs|), rows, chunks, x, y);
  }

  lemma TilesIffPositions<R(!new)>(num: Numerics<R>, job: Job, first: seq<Chunk<R>>, m: Memory<R>, waiting: seq<Op>,
                                   puts: seq<Op>, rows: seq<KV<R>>, chunks: seq<Chunk<R>>, x: R, y: R)
    requires job.WellFormed() && Matches(job, first) && Matches(job, chunks) && RawIn(rows, job, chunks, |chunks|)
            && x != y
    requires |m.pos| == job.Tokens()
    ensures EveryTileRight(num, job, first, m, waiting, puts, rows, chunks)
            <==> EveryOrderRight(num, job, first, m, waiting, puts)
  {
    hide ExecAll, PositionsIn, EncodedAlways, Interleaving, AllFit;
    forall s: seq<Op> | AllFit(s, ShapeOf(m))
      ensures var pos := ExecAll(num, s, m).pos;
              |pos| == |rows|
                  && (EncodedAlways(rows, pos, job, first, chunks) <==> PositionsIn(pos, job, first, |first|))
    {
      var pos := ExecAll(num, s, m).pos;
      PositionCount(m);
      PositionCount(ExecAll(num, s, m));
      EncodeLayerIff(rows, pos, job, first, chunks, x, y);
    }
  }
}
