/** One layerwise load request and what it is meant to achieve: the reference
    against which the pipelined and the paged generators are proved. */
module LoadJob {
  import opened DeviceStreams

  /** Chunk j covers tokens starts[j] .. ends[j]; `slots` is the slot mapping of the
      whole token sequence; kv[l] is the tensor holding layer l's paged cache. */
  datatype Job = Job(starts: seq<nat>, ends: seq<nat>, slots: seq<nat>, kv: seq<nat>) {

    predicate WellFormed() {
      && |starts| == |ends| > 0
      && (forall j :: 0 <= j < |starts| ==> starts[j] <= ends[j] <= |slots|)
      && (forall i, j :: 0 <= i < j < |starts| ==> ends[i] <= starts[j])
      && (forall i, j :: 0 <= i < j < |kv| ==> kv[i] != kv[j])
    }

    function Base(): nat requires WellFormed() { starts[0] }

    /** The window runs from the first chunk's start to the last chunk's end. */
    function Tokens(): (n: nat)
      requires WellFormed()
      ensures forall j :: 0 <= j < |starts| ==> Base() <= starts[j] <= ends[j] <= Base() + n
      ensures Base() + n <= |slots|
    {
      ends[|ends| - 1] - starts[0]
    }

    /** Position in the window of token i of chunk j. */
    function At(j: nat, i: nat): (g: nat)
      requires WellFormed() && j < |starts| && i < ends[j] - starts[j]
      ensures g < Tokens() && Covered(g)
    {
      starts[j] - Base() + i
    }

    function Window(): (w: seq<nat>)
      requires WellFormed()
      ensures |w| == Tokens()
    {
      slots[Base()..Base() + Tokens()]
    }

    predicate Covered(g: nat)
      requires WellFormed()
    {
      exists j :: 0 <= j < |starts| && starts[j] <= Base() + g < ends[j]
    }

    function Gaps(): (r: set<nat>)
      requires WellFormed()
    {
      set g: nat | g < Tokens() && !Covered(g)
    }

    predicate InjectiveSlots()
      requires WellFormed()
    {
      Injective(Window())
    }
  }

  predicate Injective(w: seq<nat>) {
    forall i, j :: 0 <= i < j < |w| ==> w[i] != w[j]
  }

  /** What one memory object holds: its rows and the positions they were encoded at. */
  datatype Chunk<R> = Chunk(rows: seq<KV<R>>, cached: seq<int>)

  predicate Matches<R>(job: Job, chunks: seq<Chunk<R>>)
    requires job.WellFormed()
  {
    && |chunks| == |job.starts|
    && forall j :: 0 <= j < |chunks| ==>
         |chunks[j].rows| == |chunks[j].cached| == job.ends[j] - job.starts[j]
  }

  /** Token i of chunk j, re-encoded from its cached position to its place in the
      sequence. The cached positions are those delivered with layer 0. */
  function Encoded<R>(num: Numerics<R>, job: Job, first: seq<Chunk<R>>, chunks: seq<Chunk<R>>, j: nat, i: nat): KV<R>
    requires job.WellFormed() && Matches(job, first) && Matches(job, chunks)
    requires j < |chunks| && i < |chunks[j].rows|
  {
    var row := chunks[j].rows[i];
    KV(num.rope(first[j].cached[i], job.starts[j] + i, row.k), row.v)
  }

  /** The sequential meaning of loading one layer: covered tokens re-encoded in
      their slots, gap tokens zero, every other slot as before. */
  ghost predicate LayerLoaded<R>(num: Numerics<R>, job: Job, first: seq<Chunk<R>>, chunks: seq<Chunk<R>>,
                                 before: seq<KV<R>>, after: seq<KV<R>>)
    requires job.WellFormed() && Matches(job, first) && Matches(job, chunks)
    requires Within(job.Window(), |before|)
  {
    && |after| == |before|
    && (forall j, i :: 0 <= j < |chunks| && 0 <= i < |chunks[j].rows| ==>
          after[job.Window()[job.At(j, i)]] == Encoded(num, job, first, chunks, j, i))
    && (forall g: nat | g in job.Gaps() :: after[job.Window()[g]] == KV(num.zero, num.zero))
    && (forall s :: 0 <= s < |before| && s !in job.Window() ==> after[s] == before[s])
  }

  /** The scatter kernel through an injective mapping: row i lands in slot i, nothing else moves. */
  lemma {:induction false} ScatterInjective<R>(d: seq<KV<R>>, s: seq<KV<R>>, w: seq<nat>)
    requires |w| <= |s| && Within(w, |d|) && Injective(w)
    ensures forall i :: 0 <= i < |w| ==> ScatterRows(d, s, w)[w[i]] == s[i]
    ensures forall x :: 0 <= x < |d| && x !in w ==> ScatterRows(d, s, w)[x] == d[x]
  {
    if w != [] {
      var n := |w| - 1;
      ScatterInjective(d, s, w[..n]);
      forall x | 0 <= x < |d| && x !in w ensures ScatterRows(d, s, w)[x] == d[x] {
        assert x !in w[..n] && x != w[n];
      }
      forall i | 0 <= i < |w| ensures ScatterRows(d, s, w)[w[i]] == s[i] {
        if i < n { assert w[..n][i] == w[i]; }
      }
    }
  }

  lemma WindowSlot(job: Job, s: nat) returns (g: nat)
    requires job.WellFormed() && s in job.Window()
    ensures g < job.Tokens() && job.Window()[g] == s
    ensures !job.Covered(g) ==> g in job.Gaps()
  {
    g :| 0 <= g < job.Tokens() && job.Window()[g] == s;
  }

  lemma CoveringChunk(job: Job, g: nat) returns (j: nat, i: nat)
    requires job.WellFormed() && job.Covered(g)
    ensures j < |job.starts| && i < job.ends[j] - job.starts[j] && job.At(j, i) == g
  {
    j :| 0 <= j < |job.starts| && job.starts[j] <= job.Base() + g < job.ends[j];
    i := job.Base() + g - job.starts[j];
  }

  /** The reference determines the layer: two memories that satisfy it are equal. */
  lemma LayerLoadedUnique<R>(num: Numerics<R>, job: Job, first: seq<Chunk<R>>, chunks: seq<Chunk<R>>,
                             before: seq<KV<R>>, x: seq<KV<R>>, y: seq<KV<R>>)
    requires job.WellFormed() && Matches(job, first) && Matches(job, chunks)
    requires Within(job.Window(), |before|)
    requires LayerLoaded(num, job, first, chunks, before, x) && LayerLoaded(num, job, first, chunks, before, y)
    ensures x == y
  {
    forall s: nat | s < |before| && s in job.Window() ensures x[s] == y[s] {
      var g := WindowSlot(job, s);
      if job.Covered(g) {
        var j, i := CoveringChunk(job, g);
        assert x[job.Window()[job.At(j, i)]] == Encoded(num, job, first, chunks, j, i);
        assert y[job.Window()[job.At(j, i)]] == Encoded(num, job, first, chunks, j, i);
      } else {
        assert x[job.Window()[g]] == KV(num.zero, num.zero);
        assert y[job.Window()[g]] == KV(num.zero, num.zero);
      }
    }
  }

  // ----- the same, token by token -----

  /** Row i of a chunk that begins at token `start` is in its token's slot: re-encoded from the
      position it was cached at to its own, with its value as it came. */
  ghost predicate TokenIn<R>(num: Numerics<R>, after: seq<KV<R>>, slots: seq<nat>, start: nat, i: int,
                             cached: seq<int>, rows: seq<KV<R>>) {
    && 0 <= i < |cached| && i < |rows| && start + i < |slots| && slots[start + i] < |after|
    && after[slots[start + i]] == KV(num.rope(cached[i], start + i, rows[i].k), rows[i].v)
  }

  /** Token t lies between the chunks. */
  predicate Uncovered(starts: seq<nat>, ends: seq<nat>, t: int)
    requires |starts| == |ends| > 0
  {
    && starts[0] <= t < ends[|ends| - 1]
    && forall j :: 0 <= j < |starts| ==> !(starts[j] <= t < ends[j])
  }

  ghost predicate ZeroIn<R>(num: Numerics<R>, after: seq<KV<R>>, slots: seq<nat>, t: int) {
    0 <= t < |slots| && slots[t] < |after| && after[slots[t]] == KV(num.zero, num.zero)
  }

  /** The request's own fields say where everything goes: the tokens of each chunk into their
      slots, zeros into the slots of the tokens between them, nothing anywhere else. */
  ghost predicate LoadedByToken<R>(num: Numerics<R>, starts: seq<nat>, ends: seq<nat>, slots: seq<nat>,
                                   first: seq<Chunk<R>>, chunks: seq<Chunk<R>>, before: seq<KV<R>>, after: seq<KV<R>>)
  {
    && |starts| == |ends| == |first| == |chunks| > 0 && starts[0] <= ends[|ends| - 1] <= |slots|
    && |after| == |before|
    && (forall j, i :: 0 <= j < |starts| && 0 <= i && starts[j] + i < ends[j] ==>
          TokenIn(num, after, slots, starts[j], i, first[j].cached, chunks[j].rows))
    && (forall t :: Uncovered(starts, ends, t) ==> ZeroIn(num, after, slots, t))
    && (forall s :: 0 <= s < |before| && s !in slots[starts[0]..ends[|ends| - 1]] ==> after[s] == before[s])
  }

  /** The reference is what the request asks for, token by token. */
  lemma LayerLoadedByToken<R>(num: Numerics<R>, job: Job, first: seq<Chunk<R>>, chunks: seq<Chunk<R>>,
                              before: seq<KV<R>>, after: seq<KV<R>>)
    requires job.WellFormed() && Matches(job, first) && Matches(job, chunks) && Within(job.Window(), |before|)
    ensures LayerLoaded(num, job, first, chunks, before, after)
       <==> LoadedByToken(num, job.starts, job.ends, job.slots, first, chunks, before, after)
  {
    if LayerLoaded(num, job, first, chunks, before, after) {
      TokensFollow(num, job, first, chunks, before, after);
    }
    if LoadedByToken(num, job.starts, job.ends, job.slots, first, chunks, before, after) {
      LayerFollows(num, job, first, chunks, before, after);
    }
  }

  lemma WindowIsSlice(job: Job)
    requires job.WellFormed()
    ensures job.starts[0] <= job.ends[|job.ends| - 1] <= |job.slots|
    ensures job.Window() == job.slots[job.starts[0]..job.ends[|job.ends| - 1]]
  {
  }

  /** Row i of chunk j: where it goes in the window is where it goes in the slot mapping. */
  lemma TokenPlace<R>(num: Numerics<R>, job: Job, first: seq<Chunk<R>>, chunks: seq<Chunk<R>>,
                      before: seq<KV<R>>, after: seq<KV<R>>, j: nat, i: nat)
    requires job.WellFormed() && Matches(job, first) && Matches(job, chunks) && Within(job.Window(), |before|)
    requires |after| == |before| && j < |job.starts| && job.starts[j] + i < job.ends[j]
    ensures TokenIn(num, after, job.slots, job.starts[j], i, first[j].cached, chunks[j].rows)
       <==> after[job.Window()[job.At(j, i)]] == Encoded(num, job, first, chunks, j, i)
  {
    var g := job.At(j, i);
    assert job.Window()[g] == job.slots[job.starts[j] + i];
  }

  lemma GapPlace(job: Job, t: int)
    requires job.WellFormed() && Uncovered(job.starts, job.ends, t)
    ensures var g := t - job.starts[0];
            0 <= g < job.Tokens() && g in job.Gaps() && t < |job.slots| && job.Window()[g] == job.slots[t]
  {
  }

  lemma GapIsUncovered(job: Job, g: nat)
    requires job.WellFormed() && g in job.Gaps()
    ensures var t := job.starts[0] + g;
            g < job.Tokens() && Uncovered(job.starts, job.ends, t) && t < |job.slots| && job.Window()[g] == job.slots[t]
  {
  }

  lemma TokensFollow<R>(num: Numerics<R>, job: Job, first: seq<Chunk<R>>, chunks: seq<Chunk<R>>,
                        before: seq<KV<R>>, after: seq<KV<R>>)
    requires job.WellFormed() && Matches(job, first) && Matches(job, chunks) && Within(job.Window(), |before|)
    requires LayerLoaded(num, job, first, chunks, before, after)
    ensures LoadedByToken(num, job.starts, job.ends, job.slots, first, chunks, before, after)
  {
    hide TokenIn, Uncovered, Job.Window, Job.At, Job.Covered, Job.Gaps, Encoded;
    WindowIsSlice(job);
    var starts, ends, slots := job.starts, job.ends, job.slots;
    forall j, i | 0 <= j < |starts| && 0 <= i && starts[j] + i < ends[j]
      ensures TokenIn(num, after, slots, starts[j], i, first[j].cached, chunks[j].rows)
    {
      TokenPlace(num, job, first, chunks, before, after, j, i);
    }
    forall t | Uncovered(starts, ends, t) ensures ZeroIn(num, after, slots, t) {
      GapPlace(job, t);
      assert job.Window()[t - starts[0]] == slots[t];
    }
  }

  lemma LayerFollows<R>(num: Numerics<R>, job: Job, first: seq<Chunk<R>>, chunks: seq<Chunk<R>>,
                        before: seq<KV<R>>, after: seq<KV<R>>)
    requires job.WellFormed() && Matches(job, first) && Matches(job, chunks) && Within(job.Window(), |before|)
    requires LoadedByToken(num, job.starts, job.ends, job.slots, first, chunks, before, after)
    ensures LayerLoaded(num, job, first, chunks, before, after)
  {
    hide TokenIn, Uncovered, Job.Window, Job.At, Job.Covered, Encoded;
    WindowIsSlice(job);
    forall j, i | 0 <= j < |chunks| && 0 <= i < |chunks[j].rows|
      ensures after[job.Window()[job.At(j, i)]] == Encoded(num, job, first, chunks, j, i)
    {
      TokenPlace(num, job, first, chunks, before, after, j, i);
    }
    forall g: nat | g in job.Gaps() ensures after[job.Window()[g]] == KV(num.zero, num.zero) {
      GapIsUncovered(job, g);
    }
  }
}
