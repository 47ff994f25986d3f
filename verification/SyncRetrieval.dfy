/** The synchronous path: blocks are grouped by location, a location stops at its first
    failed fetch, and everything from the last failure on is given up. */
module SyncRetrieval {
  import opened Options
  import opened Retrieval

  /** The fetched blocks of one location, up to its first failure. */
  function Taken<K, O>(blocks: seq<Block<K>>, got: seq<Option<O>>): (r: seq<Chunk<K, O>>) {
    if blocks == [] || got == [] || got[0].None? then []
    else [Chunk(blocks[0].key, got[0].value, blocks[0].start, blocks[0].end)] + Taken(blocks[1..], got[1..])
  }

  /** Where that location failed, if it did. */
  function FailedAt<K, O>(blocks: seq<Block<K>>, got: seq<Option<O>>): (r: Option<nat>) {
    if blocks == [] || got == [] then None
    else if got[0].None? then Some(blocks[0].start)
    else FailedAt(blocks[1..], got[1..])
  }

  function Later(a: Option<nat>, b: Option<nat>): Option<nat> {
    if b.None? || (a.Some? && a.value >= b.value) then a else b
  }

  /** All fetched blocks over the locations, in order, and the latest failure. */
  function TakenAll<K, O>(blocks: seq<seq<Block<K>>>, got: seq<seq<Option<O>>>): (r: seq<Chunk<K, O>>)
    requires |blocks| == |got|
  {
    if blocks == [] then []
    else
      var n := |blocks| - 1;
      TakenAll(blocks[..n], got[..n]) + Taken(blocks[n], got[n])
  }

  function LastFailure<K, O>(blocks: seq<seq<Block<K>>>, got: seq<seq<Option<O>>>): (r: Option<nat>)
    requires |blocks| == |got|
  {
    if blocks == [] then None
    else
      var n := |blocks| - 1;
      Later(LastFailure(blocks[..n], got[..n]), FailedAt(blocks[n], got[n]))
  }

  /** The filter keeps what ends strictly before the failure. */
  function Kept<K, O>(chunks: seq<Chunk<K, O>>, limit: Option<nat>): (r: seq<Chunk<K, O>>) {
    if limit.None? then chunks
    else if chunks == [] then []
    else
      var n := |chunks| - 1;
      Kept(chunks[..n], limit) + (if chunks[n].end < limit.value then [chunks[n]] else [])
  }

  /** Blocks are non-empty and no token lies in two of them. */
  ghost predicate DisjointBlocks<K>(blocks: seq<seq<Block<K>>>) {
    && (forall l, b :: 0 <= l < |blocks| && 0 <= b < |blocks[l]| ==> blocks[l][b].start < blocks[l][b].end)
    && (forall l, b, l', b' :: 0 <= l < |blocks| && 0 <= b < |blocks[l]| && 0 <= l' < |blocks| && 0 <= b' < |blocks[l']|
          && (l != l' || b != b')
          ==> Apart(blocks[l][b], blocks[l'][b']))
  }

  predicate Apart<K>(a: Block<K>, b: Block<K>) {
    a.end <= b.start || b.end <= a.start
  }

  /** What the mask holds when the method returns. */
  ghost predicate MaskBit<K, O>(blocks: seq<seq<Block<K>>>, got: seq<seq<Option<O>>>, i: int)
    requires |blocks| == |got|
  {
    && Covered(TakenAll(blocks, got), i)
    && (LastFailure(blocks, got).Some? ==> i < LastFailure(blocks, got).value)
  }

  function Returned<K, O>(blocks: seq<seq<Block<K>>>, got: seq<seq<Option<O>>>): (r: seq<Chunk<K, O>>)
    requires |blocks| == |got|
  {
    Kept(TakenAll(blocks, got), LastFailure(blocks, got))
  }

  /** A taken chunk ends exactly where the last failure starts. */
  ghost predicate EndsAtFailure<K, O>(blocks: seq<seq<Block<K>>>, got: seq<seq<Option<O>>>)
    requires |blocks| == |got|
  {
    && LastFailure(blocks, got).Some?
    && exists c :: 0 <= c < |TakenAll(blocks, got)| && TakenAll(blocks, got)[c].end == LastFailure(blocks, got).value
  }

  /** Block b of location l and everything before it there was fetched. */
  predicate FetchedTo<K, O>(blocks: seq<seq<Block<K>>>, got: seq<seq<Option<O>>>, l: nat, b: nat) {
    && l < |blocks| && l < |got| && b < |blocks[l]| && b < |got[l]|
    && forall x :: 0 <= x <= b ==> got[l][x].Some?
  }

  /** Location l fails at its block b. */
  predicate FailsAt<K, O>(blocks: seq<seq<Block<K>>>, got: seq<seq<Option<O>>>, l: nat, b: nat) {
    && l < |blocks| && l < |got| && b < |blocks[l]| && b < |got[l]| && got[l][b].None?
    && forall x :: 0 <= x < b ==> got[l][x].Some?
  }

  // ----- where taken chunks and failures come from -----

  ghost predicate From<K, O>(blocks: seq<seq<Block<K>>>, got: seq<seq<Option<O>>>, l: nat, b: nat, c: Chunk<K, O>) {
    && l < |blocks| && b < |blocks[l]| && l < |got| && b < |got[l]| && got[l][b].Some?
    && c == Chunk(blocks[l][b].key, got[l][b].value, blocks[l][b].start, blocks[l][b].end)
  }

  lemma {:induction false} TakenOrigin<K, O>(blocks: seq<Block<K>>, got: seq<Option<O>>, c: nat)
    requires c < |Taken(blocks, got)|
    ensures c < |blocks| && c < |got| && got[c].Some?
    ensures Taken(blocks, got)[c] == Chunk(blocks[c].key, got[c].value, blocks[c].start, blocks[c].end)
  {
    if c > 0 { TakenOrigin(blocks[1..], got[1..], c - 1); }
  }

  lemma {:induction false} FailureOrigin<K, O>(blocks: seq<Block<K>>, got: seq<Option<O>>)
    requires FailedAt(blocks, got).Some?
    ensures var b := |Taken(blocks, got)|;
            b < |blocks| && b < |got| && got[b].None? && blocks[b].start == FailedAt(blocks, got).value
  {
    if got[0].Some? { FailureOrigin(blocks[1..], got[1..]); }
  }

  /** One location takes its blocks up to the first that was not fetched, and fails there. */
  lemma {:induction false} TakenIs<K, O>(blocks: seq<Block<K>>, got: seq<Option<O>>)
    ensures var n := |Taken(blocks, got)|;
      && n <= |blocks| && n <= |got| && (forall b :: 0 <= b < n ==> got[b].Some?)
      && (if n < |blocks| && n < |got| then got[n].None? && FailedAt(blocks, got) == Some(blocks[n].start)
          else FailedAt(blocks, got) == None)
  {
    if blocks != [] && got != [] && got[0].Some? { TakenIs(blocks[1..], got[1..]); }
  }

  lemma {:induction false} TakenAllOrigin<K, O>(blocks: seq<seq<Block<K>>>, got: seq<seq<Option<O>>>, c: nat)
    returns (l: nat, b: nat)
    requires |blocks| == |got| && c < |TakenAll(blocks, got)|
    ensures From(blocks, got, l, b, TakenAll(blocks, got)[c])
  {
    var n := |blocks| - 1;
    var before := |TakenAll(blocks[..n], got[..n])|;
    if c < before {
      l, b := TakenAllOrigin(blocks[..n], got[..n], c);
    } else {
      TakenOrigin(blocks[n], got[n], c - before);
      l, b := n, c - before;
    }
  }

  lemma {:induction false} LastFailureOrigin<K, O>(blocks: seq<seq<Block<K>>>, got: seq<seq<Option<O>>>)
    returns (l: nat, b: nat)
    requires |blocks| == |got| && LastFailure(blocks, got).Some?
    ensures l < |blocks| && b < |blocks[l]| && b < |got[l]| && got[l][b].None?
    ensures blocks[l][b].start == LastFailure(blocks, got).value && FailsAt(blocks, got, l, b)
  {
    var n := |blocks| - 1;
    var earlier := LastFailure(blocks[..n], got[..n]);
    if earlier.Some? && earlier == LastFailure(blocks, got) {
      l, b := LastFailureOrigin(blocks[..n], got[..n]);
    } else {
      FailureOrigin(blocks[n], got[n]);
      TakenIs(blocks[n], got[n]);
      l, b := n, |Taken(blocks[n], got[n])|;
    }
  }

  /** No taken chunk straddles the last failure. */
  lemma TakenAvoidsFailure<K, O>(blocks: seq<seq<Block<K>>>, got: seq<seq<Option<O>>>, c: nat)
    requires |blocks| == |got| && DisjointBlocks(blocks) && c < |TakenAll(blocks, got)|
    ensures TakenAll(blocks, got)[c].start < TakenAll(blocks, got)[c].end
    ensures LastFailure(blocks, got).Some? ==>
              TakenAll(blocks, got)[c].end <= LastFailure(blocks, got).value
              || TakenAll(blocks, got)[c].start > LastFailure(blocks, got).value
  {
    var l, b := TakenAllOrigin(blocks, got, c);
    if LastFailure(blocks, got).Some? {
      var fl, fb := LastFailureOrigin(blocks, got);
      assert Apart(blocks[l][b], blocks[fl][fb]);
    }
  }

  lemma {:induction false} KeptOrigin<K, O>(chunks: seq<Chunk<K, O>>, limit: Option<nat>, k: nat) returns (c: nat)
    requires k < |Kept(chunks, limit)|
    ensures c < |chunks| && chunks[c] == Kept(chunks, limit)[k] && (limit.Some? ==> chunks[c].end < limit.value)
  {
    if limit.None? {
      c := k;
    } else {
      var n := |chunks| - 1;
      if k < |Kept(chunks[..n], limit)| {
        c := KeptOrigin(chunks[..n], limit, k);
      } else {
        c := n;
      }
    }
  }

  lemma {:induction false} KeptHas<K, O>(chunks: seq<Chunk<K, O>>, limit: Option<nat>, c: nat) returns (k: nat)
    requires c < |chunks| && (limit.Some? ==> chunks[c].end < limit.value)
    ensures k < |Kept(chunks, limit)| && Kept(chunks, limit)[k] == chunks[c]
  {
    if limit.None? {
      k := c;
    } else {
      var n := |chunks| - 1;
      if c < n {
        k := KeptHas(chunks[..n], limit, c);
      } else {
        k := |Kept(chunks[..n], limit)|;
      }
    }
  }

  /** Every token of a returned chunk is marked, for any pattern of failures. */
  lemma ReturnedIsMarked<K, O>(blocks: seq<seq<Block<K>>>, got: seq<seq<Option<O>>>, i: int)
    requires |blocks| == |got| && Covered(Returned(blocks, got), i)
    ensures MaskBit(blocks, got, i)
  {
    var all, limit := TakenAll(blocks, got), LastFailure(blocks, got);
    var k :| 0 <= k < |Kept(all, limit)| && Kept(all, limit)[k].start <= i < Kept(all, limit)[k].end;
    var c := KeptOrigin(all, limit, k);
    assert all[c].start <= i < all[c].end;
  }

  /** A marked token is in a returned chunk or in the chunk that ends at the last failure. */
  lemma MarkedIsReturnedOrLast<K, O>(blocks: seq<seq<Block<K>>>, got: seq<seq<Option<O>>>, i: int)
    requires |blocks| == |got| && DisjointBlocks(blocks) && MaskBit(blocks, got, i)
    ensures Covered(Returned(blocks, got), i)
      || exists c :: 0 <= c < |TakenAll(blocks, got)| && LastFailure(blocks, got).Some?
           && TakenAll(blocks, got)[c].end == LastFailure(blocks, got).value
           && TakenAll(blocks, got)[c].start <= i < TakenAll(blocks, got)[c].end
  {
    var all, limit := TakenAll(blocks, got), LastFailure(blocks, got);
    var c :| 0 <= c < |all| && all[c].start <= i < all[c].end;
    TakenAvoidsFailure(blocks, got, c);
    if limit.None? || all[c].end < limit.value {
      var k := KeptHas(all, limit, c);
      assert Returned(blocks, got)[k].start <= i < Returned(blocks, got)[k].end;
    }
  }

  lemma LastTokenNotReturned<K, O>(all: seq<Chunk<K, O>>, limit: Option<nat>)
    requires limit.Some?
    ensures !Covered(Kept(all, limit), limit.value - 1)
  {
    var kept := Kept(all, limit);
    forall k | 0 <= k < |kept| ensures !(kept[k].start <= limit.value - 1 < kept[k].end) {
      var c := KeptOrigin(all, limit, k);
    }
  }

  /** The mask is exactly the union of the returned chunks if and only if no fetched chunk
      ends where the last failure starts; in particular whenever nothing failed. */
  lemma MaskIsUnionIff<K, O>(blocks: seq<seq<Block<K>>>, got: seq<seq<Option<O>>>)
    requires |blocks| == |got| && DisjointBlocks(blocks)
    ensures (forall i :: MaskBit(blocks, got, i) <==> Covered(Returned(blocks, got), i))
            <==> !EndsAtFailure(blocks, got)
  {
    var all, limit := TakenAll(blocks, got), LastFailure(blocks, got);
    if EndsAtFailure(blocks, got) {
      var c :| 0 <= c < |all| && all[c].end == limit.value;
      var i := all[c].end - 1;
      TakenAvoidsFailure(blocks, got, c);
      assert MaskBit(blocks, got, i);
      LastTokenNotReturned(all, limit);
    } else {
      forall i ensures MaskBit(blocks, got, i) <==> Covered(Returned(blocks, got), i) {
        if MaskBit(blocks, got, i) { MarkedIsReturnedOrLast(blocks, got, i); }
        if Covered(Returned(blocks, got), i) { ReturnedIsMarked(blocks, got, i); }
      }
    }
  }

  /** At most one chunk is marked without being returned. */
  lemma AtMostOneUnreturned<K, O>(blocks: seq<seq<Block<K>>>, got: seq<seq<Option<O>>>, l: nat, b: nat, l': nat,
                                  b': nat)
    requires |blocks| == |got| && DisjointBlocks(blocks) && LastFailure(blocks, got).Some?
    requires l < |blocks| && b < |blocks[l]| && blocks[l][b].end == LastFailure(blocks, got).value
    requires l' < |blocks| && b' < |blocks[l']| && blocks[l'][b'].end == LastFailure(blocks, got).value
    ensures l == l' && b == b'
  {
  }

  lemma OneLocation<K, O>(row: seq<Block<K>>, res: seq<Option<O>>)
    ensures TakenAll([row], [res]) == Taken(row, res) && LastFailure([row], [res]) == FailedAt(row, res)
  {
    hide Taken, FailedAt;
    var rows, ress := [row], [res];
    assert rows[..0] == [] && ress[..0] == [];
  }

  lemma SecondFails<K, O>(a: Block<K>, b: Block<K>, obj: O)
    ensures Taken([a, b], [Some(obj), None]) == [Chunk(a.key, obj, a.start, a.end)]
    ensures FailedAt([a, b], [Some(obj), None]) == Some(b.start)
  {
    var row: seq<Block<K>> := [a, b];
    var res: seq<Option<O>> := [Some(obj), None];
    assert row[1..] == [b] && res[1..] == [None];
    assert Taken(row[1..], res[1..]) == [] && FailedAt(row[1..], res[1..]) == Some(b.start);
  }

  /** The case is real: of two adjacent blocks at one location the second cannot be
      fetched. The first chunk was fetched and its tokens are marked, but it is not returned. */
  lemma FetchedMarkedNotReturned<K, O>(a: Block<K>, b: Block<K>, obj: O)
    requires a.start < a.end == b.start
    ensures Returned([[a, b]], [[Some(obj), None]]) == []
    ensures forall i :: a.start <= i < a.end ==> MaskBit([[a, b]], [[Some(obj), None]], i)
  {
    hide Taken, FailedAt, TakenAll, LastFailure;
    OneLocation([a, b], [Some(obj), None]);
    SecondFails(a, b, obj);
    var c := Chunk(a.key, obj, a.start, a.end);
    assert [c][..0] == [];
    assert Kept([c], Some(b.start)) == [];
    assert [c][0] == c;
  }

  // ----- the same, block by block -----

  /** Some location fails at a block that starts after i, or none fails. */
  ghost predicate BeforeAFailure<K, O>(blocks: seq<seq<Block<K>>>, got: seq<seq<Option<O>>>, i: int) {
    || (forall l: nat, b: nat :: !FailsAt(blocks, got, l, b))
    || (exists l: nat, b: nat :: FailsAt(blocks, got, l, b) && i < blocks[l][b].start)
  }

  predicate Earlier(p: (nat, nat), q: (nat, nat)) {
    p.0 < q.0 || (p.0 == q.0 && p.1 < q.1)
  }

  /** The chunks are those of the blocks at these places, location by location. */
  ghost predicate ChunksAt<K, O>(chunks: seq<Chunk<K, O>>, blocks: seq<seq<Block<K>>>, got: seq<seq<Option<O>>>,
                                 places: seq<(nat, nat)>)
  {
    && |places| == |chunks|
    && (forall x, y :: 0 <= x < y < |places| ==> Earlier(places[x], places[y]))
    && (forall x :: 0 <= x < |places| ==> From(blocks, got, places[x].0, places[x].1, chunks[x]))
  }

  lemma ChunksConcat<K, O>(a: seq<Chunk<K, O>>, b: seq<Chunk<K, O>>, blocks: seq<seq<Block<K>>>,
                           got: seq<seq<Option<O>>>, left: seq<(nat, nat)>, right: seq<(nat, nat)>)
    requires ChunksAt(a, blocks, got, left) && ChunksAt(b, blocks, got, right)
    requires forall p, q :: p in left && q in right ==> Earlier(p, q)
    ensures ChunksAt(a + b, blocks, got, left + right)
  {
    hide From, Earlier;
  }

  lemma ChunksLater<K, O>(chunks: seq<Chunk<K, O>>, blocks: seq<seq<Block<K>>>, got: seq<seq<Option<O>>>, n: nat,
                          places: seq<(nat, nat)>)
    requires n <= |blocks| && n <= |got| && ChunksAt(chunks, blocks[..n], got[..n], places)
    ensures ChunksAt(chunks, blocks, got, places) && forall p :: p in places ==> p.0 < n
  {
    hide Earlier;
    forall x | 0 <= x < |places|
      ensures From(blocks, got, places[x].0, places[x].1, chunks[x]) && places[x].0 < n
    {
      assert From(blocks[..n], got[..n], places[x].0, places[x].1, chunks[x]);
    }
  }

  lemma RowChunks<K, O>(blocks: seq<seq<Block<K>>>, got: seq<seq<Option<O>>>, n: nat) returns (places: seq<(nat, nat)>)
    requires n < |blocks| && n < |got|
    ensures ChunksAt(Taken(blocks[n], got[n]), blocks, got, places)
    ensures forall x :: 0 <= x < |places| ==> places[x] == (n, x)
  {
    var row := Taken(blocks[n], got[n]);
    places := seq(|row|, b requires 0 <= b => (n, b));
    forall b | 0 <= b < |row| ensures From(blocks, got, n, b, row[b]) { TakenOrigin(blocks[n], got[n], b); }
  }

  lemma {:induction false} TakenAllAt<K, O>(blocks: seq<seq<Block<K>>>, got: seq<seq<Option<O>>>)
    returns (places: seq<(nat, nat)>)
    requires |blocks| == |got|
    ensures ChunksAt(TakenAll(blocks, got), blocks, got, places)
    ensures forall l: nat, b: nat :: (l, b) in places <==> FetchedTo(blocks, got, l, b)
  {
    if blocks == [] {
      places := [];
    } else {
      hide ChunksAt, FetchedTo, Taken;
      var n := |blocks| - 1;
      var front := TakenAllAt(blocks[..n], got[..n]);
      var row := RowChunks(blocks, got, n);
      ChunksLater(TakenAll(blocks[..n], got[..n]), blocks, got, n, front);
      ChunksConcat(TakenAll(blocks[..n], got[..n]), Taken(blocks[n], got[n]), blocks, got, front, row);
      places := front + row;
      SameLength(Taken(blocks[n], got[n]), blocks, got, row);
      RowPlaces(blocks, got, front, places);
    }
  }

  lemma SameLength<K, O>(chunks: seq<Chunk<K, O>>, blocks: seq<seq<Block<K>>>, got: seq<seq<Option<O>>>,
                         places: seq<(nat, nat)>)
    requires ChunksAt(chunks, blocks, got, places)
    ensures |places| == |chunks|
  {
  }

  lemma RowPlaces<K, O>(blocks: seq<seq<Block<K>>>, got: seq<seq<Option<O>>>, front: seq<(nat, nat)>,
                        places: seq<(nat, nat)>)
    requires |blocks| == |got| != 0
    requires var n := |blocks| - 1;
      && (forall l: nat, b: nat :: (l, b) in front <==> FetchedTo(blocks[..n], got[..n], l, b))
      && |places| == |front| + |Taken(blocks[n], got[n])| && places[..|front|] == front
      && forall x :: |front| <= x < |places| ==> places[x] == (n, x - |front|)
    ensures forall l: nat, b: nat :: (l, b) in places <==> FetchedTo(blocks, got, l, b)
  {
    var n := |blocks| - 1;
    TakenIs(blocks[n], got[n]);
    forall l: nat, b: nat ensures (l, b) in places <==> FetchedTo(blocks, got, l, b) {
      assert l < n ==> (FetchedTo(blocks[..n], got[..n], l, b) <==> FetchedTo(blocks, got, l, b));
      assert (l, b) in places <==> (l, b) in front || (l == n && b < |Taken(blocks[n], got[n])|) by {
        if (l, b) in front {
          var x :| 0 <= x < |front| && front[x] == (l, b);
          assert places[..|front|][x] == places[x];
        } else if l == n && b < |Taken(blocks[n], got[n])| {
          assert places[|front| + b] == (l, b);
        }
        if (l, b) in places {
          var x :| 0 <= x < |places| && places[x] == (l, b);
          assert x < |front| ==> places[..|front|][x] == (l, b);
        }
      }
    }
  }

  /** Token i is in a block that was fetched and taken. */
  ghost predicate TokenTaken<K, O>(blocks: seq<seq<Block<K>>>, got: seq<seq<Option<O>>>, i: int) {
    exists l: nat, b: nat :: FetchedTo(blocks, got, l, b) && blocks[l][b].start <= i < blocks[l][b].end
  }

  /** The last failure is that of some location, and no location fails later. */
  lemma {:induction false} LastFailureIsLatest<K, O>(blocks: seq<seq<Block<K>>>, got: seq<seq<Option<O>>>)
    requires |blocks| == |got|
    ensures forall l :: 0 <= l < |blocks| && FailedAt(blocks[l], got[l]).Some? ==>
              LastFailure(blocks, got).Some? && FailedAt(blocks[l], got[l]).value <= LastFailure(blocks, got).value
    decreases |blocks|
  {
    if blocks != [] {
      var n := |blocks| - 1;
      LastFailureIsLatest(blocks[..n], got[..n]);
      assert forall l :: 0 <= l < n ==> blocks[..n][l] == blocks[l] && got[..n][l] == got[l];
    }
  }

  lemma FailsHere<K, O>(blocks: seq<seq<Block<K>>>, got: seq<seq<Option<O>>>, l: nat, b: nat)
    requires |blocks| == |got| && FailsAt(blocks, got, l, b)
    ensures FailedAt(blocks[l], got[l]) == Some(blocks[l][b].start)
  {
    TakenIs(blocks[l], got[l]);
  }

  /** Everything before the last failure is before some location's, and the other way round. */
  lemma BeforeTheLast<K, O>(blocks: seq<seq<Block<K>>>, got: seq<seq<Option<O>>>, i: int)
    requires |blocks| == |got|
    ensures BeforeAFailure(blocks, got, i)
            <==> (LastFailure(blocks, got).Some? ==> i < LastFailure(blocks, got).value)
  {
    LastFailureIsLatest(blocks, got);
    forall l: nat, b: nat | FailsAt(blocks, got, l, b)
      ensures LastFailure(blocks, got).Some? && blocks[l][b].start <= LastFailure(blocks, got).value
    {
      FailsHere(blocks, got, l, b);
    }
    if LastFailure(blocks, got).Some? {
      var l, b := LastFailureOrigin(blocks, got);
    }
  }

  /** A token is marked if and only if its block was fetched with all before it at its location,
      and some location fails at a later token, or none fails. */
  lemma MarkedIff<K, O>(blocks: seq<seq<Block<K>>>, got: seq<seq<Option<O>>>, i: int)
    requires |blocks| == |got|
    ensures MaskBit(blocks, got, i) <==> TokenTaken(blocks, got, i) && BeforeAFailure(blocks, got, i)
  {
    hide FetchedTo, TakenAll, LastFailure, BeforeAFailure;
    BeforeTheLast(blocks, got, i);
    var all := TakenAll(blocks, got);
    var places := TakenAllAt(blocks, got);
    if Covered(all, i) {
      var c :| 0 <= c < |all| && all[c].start <= i < all[c].end;
      assert places[c] == (places[c].0, places[c].1) && places[c] in places;
      assert From(blocks, got, places[c].0, places[c].1, all[c]);
    }
    if TokenTaken(blocks, got, i) {
      var l: nat, b: nat :| FetchedTo(blocks, got, l, b) && blocks[l][b].start <= i < blocks[l][b].end;
      assert (l, b) in places;
      var c :| 0 <= c < |places| && places[c] == (l, b);
      assert From(blocks, got, l, b, all[c]);
    }
  }

  lemma ChunksFront<K, O>(chunks: seq<Chunk<K, O>>, blocks: seq<seq<Block<K>>>, got: seq<seq<Option<O>>>,
                          places: seq<(nat, nat)>)
    requires chunks != [] && ChunksAt(chunks, blocks, got, places)
    ensures var n := |chunks| - 1;
      && ChunksAt(chunks[..n], blocks, got, places[..n]) && From(blocks, got, places[n].0, places[n].1, chunks[n])
      && (forall p :: p in places <==> p in places[..n] || p == places[n])
      && forall p :: p in places && p != places[n] ==> Earlier(p, places[n])
  {
    hide From;
    var n := |chunks| - 1;
    assert places == places[..n] + [places[n]];
  }

  lemma ChunksSnoc<K, O>(chunks: seq<Chunk<K, O>>, blocks: seq<seq<Block<K>>>, got: seq<seq<Option<O>>>,
                         places: seq<(nat, nat)>, c: Chunk<K, O>, p: (nat, nat))
    requires ChunksAt(chunks, blocks, got, places) && From(blocks, got, p.0, p.1, c)
    requires forall q :: q in places ==> Earlier(q, p)
    ensures ChunksAt(chunks + [c], blocks, got, places + [p])
  {
    hide From, Earlier;
  }

  lemma {:induction false} KeptAt<K, O>(chunks: seq<Chunk<K, O>>, limit: Option<nat>, blocks: seq<seq<Block<K>>>,
                                        got: seq<seq<Option<O>>>, places: seq<(nat, nat)>)
    returns (kept: seq<(nat, nat)>)
    requires ChunksAt(chunks, blocks, got, places)
    ensures ChunksAt(Kept(chunks, limit), blocks, got, kept)
    ensures forall p :: p in kept <==>
              p in places && p.0 < |blocks| && p.1 < |blocks[p.0]|
              && (limit.Some? ==> blocks[p.0][p.1].end < limit.value)
    decreases |chunks|
  {
    hide Earlier;
    if limit.None? {
      kept := places;
    } else if chunks == [] {
      kept := [];
    } else {
      hide ChunksAt;
      var n := |chunks| - 1;
      ChunksFront(chunks, blocks, got, places);
      var front := KeptAt(chunks[..n], limit, blocks, got, places[..n]);
      if chunks[n].end < limit.value {
        ChunksSnoc(Kept(chunks[..n], limit), blocks, got, front, chunks[n], places[n]);
        kept := front + [places[n]];
      } else {
        assert Kept(chunks[..n], limit) + [] == Kept(chunks[..n], limit);
        kept := front;
      }
    }
  }

  ghost predicate ReturnedFrom<K, O>(chunks: seq<Chunk<K, O>>, blocks: seq<seq<Block<K>>>, got: seq<seq<Option<O>>>,
                                     places: seq<(nat, nat)>)
  {
    && ChunksAt(chunks, blocks, got, places)
    && forall l: nat, b: nat :: (l, b) in places <==>
         FetchedTo(blocks, got, l, b) && BeforeAFailure(blocks, got, blocks[l][b].end)
  }

  /** The chunks returned are exactly those of the blocks that were fetched with all before them
      at their location and end before some location's failure, in order. */
  ghost predicate ReturnsBlocks<K, O>(chunks: seq<Chunk<K, O>>, blocks: seq<seq<Block<K>>>, got: seq<seq<Option<O>>>) {
    exists places :: ReturnedFrom(chunks, blocks, got, places)
  }

  lemma ReturnedIs<K, O>(blocks: seq<seq<Block<K>>>, got: seq<seq<Option<O>>>)
    requires |blocks| == |got|
    ensures ReturnsBlocks(Returned(blocks, got), blocks, got)
  {
    hide TakenAll, LastFailure, BeforeAFailure, Kept;
    var places := TakenAllAt(blocks, got);
    var kept := KeptAt(TakenAll(blocks, got), LastFailure(blocks, got), blocks, got, places);
    forall l: nat, b: nat
      ensures (l, b) in kept <==> FetchedTo(blocks, got, l, b) && BeforeAFailure(blocks, got, blocks[l][b].end)
    {
      if FetchedTo(blocks, got, l, b) { BeforeTheLast(blocks, got, blocks[l][b].end); }
    }
    assert ReturnedFrom(Returned(blocks, got), blocks, got, kept);
  }

  // ----- who releases what -----

  /** The objects a fetch returned, in order. */
  function Fetched<O>(got: seq<Option<O>>): (r: seq<O>) {
    if got == [] then []
    else (if got[0].Some? then [got[0].value] else []) + Fetched(got[1..])
  }

  function FetchedAll<O>(got: seq<seq<Option<O>>>): (r: seq<O>) {
    if got == [] then [] else FetchedAll(got[..|got| - 1]) + Fetched(got[|got| - 1])
  }

  /** A location returned no object after its first failure. */
  predicate StopsThere<K, O>(blocks: seq<Block<K>>, got: seq<Option<O>>) {
    forall b :: |Taken(blocks, got)| <= b < |got| ==> got[b].None?
  }

  lemma {:induction false} FetchedNone<O>(got: seq<Option<O>>)
    ensures Fetched(got) == [] <==> forall b :: 0 <= b < |got| ==> got[b].None?
  {
    if got != [] { FetchedNone(got[1..]); }
  }

  lemma {:induction false} TakenOfFetched<K, O>(blocks: seq<Block<K>>, got: seq<Option<O>>)
    ensures |Taken(blocks, got)| <= |Fetched(got)|
    ensures |Taken(blocks, got)| == |Fetched(got)| <==> StopsThere(blocks, got)
    ensures StopsThere(blocks, got) ==> Objects(Taken(blocks, got)) == Fetched(got)
  {
    if blocks == [] || got == [] || got[0].None? {
      FetchedNone(got);
    } else {
      TakenOfFetched(blocks[1..], got[1..]);
      StopsLater(blocks, got);
    }
  }

  lemma StopsLater<K, O>(blocks: seq<Block<K>>, got: seq<Option<O>>)
    requires blocks != [] && got != [] && got[0].Some?
    ensures StopsThere(blocks, got) <==> StopsThere(blocks[1..], got[1..])
  {
    var n := |Taken(blocks[1..], got[1..])|;
    if StopsThere(blocks, got) {
      forall b | n <= b < |got| - 1 ensures got[1..][b].None? { assert got[1..][b] == got[b + 1]; }
    }
    if StopsThere(blocks[1..], got[1..]) {
      forall b | n + 1 <= b < |got| ensures got[b].None? { assert got[b] == got[1..][b - 1]; }
    }
  }

  lemma {:induction false} TakenAllOfFetched<K, O>(blocks: seq<seq<Block<K>>>, got: seq<seq<Option<O>>>)
    requires |blocks| == |got|
    ensures |TakenAll(blocks, got)| <= |FetchedAll(got)|
    ensures |TakenAll(blocks, got)| == |FetchedAll(got)|
            <==> forall l :: 0 <= l < |got| ==> StopsThere(blocks[l], got[l])
    ensures |TakenAll(blocks, got)| == |FetchedAll(got)| ==> Objects(TakenAll(blocks, got)) == FetchedAll(got)
    decreases |blocks|
  {
    hide StopsThere, Taken, Fetched;
    if blocks != [] {
      var n := |blocks| - 1;
      TakenAllOfFetched(blocks[..n], got[..n]);
      TakenOfFetched(blocks[n], got[n]);
      assert forall l :: 0 <= l < n ==> blocks[..n][l] == blocks[l] && got[..n][l] == got[l];
      ObjectsConcat(TakenAll(blocks[..n], got[..n]), Taken(blocks[n], got[n]));
    }
  }

  lemma ObjectsConcat<K, O>(a: seq<Chunk<K, O>>, b: seq<Chunk<K, O>>)
    ensures Objects(a + b) == Objects(a) + Objects(b)
  {
  }

  lemma {:induction false} KeptAll<K, O>(chunks: seq<Chunk<K, O>>, limit: Option<nat>)
    ensures |Kept(chunks, limit)| <= |chunks|
    ensures |Kept(chunks, limit)| == |chunks| <==> limit.None? || forall c <- chunks :: c.end < limit.value
    ensures |Kept(chunks, limit)| == |chunks| ==> Kept(chunks, limit) == chunks
    decreases |chunks|
  {
    if limit.Some? && chunks != [] {
      var n := |chunks| - 1;
      KeptAll(chunks[..n], limit);
      assert chunks == chunks[..n] + [chunks[n]];
    }
  }

  /** `retrieve` releases the objects of the chunks it was given and nobody releases the rest:
      every fetched object is released, as often as it was fetched, if and only if no location
      returned one after its first failure and all chunks taken end before the last failure. */
  lemma AllReleasedIff<K, O>(blocks: seq<seq<Block<K>>>, got: seq<seq<Option<O>>>)
    requires |blocks| == |got|
    ensures multiset(Objects(Returned(blocks, got))) == multiset(FetchedAll(got)) <==>
              && (forall l :: 0 <= l < |got| ==> StopsThere(blocks[l], got[l]))
              && (LastFailure(blocks, got).Some? ==> forall c <- TakenAll(blocks, got) ::
                 c.end < LastFailure(blocks, got).value)
  {
    hide StopsThere, TakenAll, FetchedAll, Kept, LastFailure;
    TakenAllOfFetched(blocks, got);
    KeptAll(TakenAll(blocks, got), LastFailure(blocks, got));
    var out, all := Objects(Returned(blocks, got)), FetchedAll(got);
    assert |multiset(out)| == |out| && |multiset(all)| == |all|;
  }

  /** The method itself. `got[l]` is what `batched_get` returned for location l. */
  method ProcessTokens<K>(blocks: seq<seq<Block<K>>>, got: seq<seq<Option<MemoryObj>>>, mask: array<bool>)
    returns (chunks: seq<Chunk<K, MemoryObj>>, totSize: nat)
    requires |blocks| == |got| && forall l :: 0 <= l < |blocks| ==> InRange(blocks[l], mask.Length)
    requires forall i :: 0 <= i < mask.Length ==> !mask[i]
    modifies mask
    ensures chunks == Returned(blocks, got) && ReturnsBlocks(chunks, blocks, got)
    ensures totSize == TotalSize(TakenAll(blocks, got))
    ensures forall i :: 0 <= i < mask.Length ==> (mask[i] <==> MaskBit(blocks, got, i))
    ensures forall i :: 0 <= i < mask.Length ==>
              (mask[i] <==> TokenTaken(blocks, got, i) && BeforeAFailure(blocks, got, i))
  {
    hide ReturnsBlocks, TokenTaken, BeforeAFailure;
    var lastFailed: Option<nat> := None;
    chunks, totSize := [], 0;
    for l := 0 to |blocks|
      invariant chunks == TakenAll(blocks[..l], got[..l]) && lastFailed == LastFailure(blocks[..l], got[..l])
      invariant totSize == TotalSize(chunks)
      invariant forall i :: 0 <= i < mask.Length ==> (mask[i] <==> Covered(chunks, i))
    {
      assert blocks[..l + 1][..l] == blocks[..l] && got[..l + 1][..l] == got[..l];
      chunks, totSize, lastFailed := ProcessLocation(blocks[l], got[l], mask, chunks, totSize, lastFailed);
    }
    assert blocks[..|blocks|] == blocks && got[..|got|] == got;
    if lastFailed.Some? {
      forall i | lastFailed.value <= i < mask.Length { mask[i] := false; }
      chunks := Filter(chunks, lastFailed.value);
    }
    ReturnedIs(blocks, got);
    forall i | 0 <= i < mask.Length
      ensures MaskBit(blocks, got, i) <==> TokenTaken(blocks, got, i) && BeforeAFailure(blocks, got, i)
    {
      MarkedIff(blocks, got, i);
    }
  }

  method Filter<K, O>(chunks: seq<Chunk<K, O>>, limit: nat) returns (kept: seq<Chunk<K, O>>)
    ensures kept == Kept(chunks, Some(limit))
  {
    kept := [];
    for i := 0 to |chunks|
      invariant kept == Kept(chunks[..i], Some(limit))
    {
      assert chunks[..i + 1][..i] == chunks[..i];
      if chunks[i].end < limit {
        kept := kept + [chunks[i]];
      }
    }
    assert chunks[..|chunks|] == chunks;
  }

  /** One location of the outer loop: stop at the first failed fetch. */
  method ProcessLocation<K>(blocks: seq<Block<K>>, got: seq<Option<MemoryObj>>, mask: array<bool>,
                            before: seq<Chunk<K, MemoryObj>>, size: nat, failed: Option<nat>)
    returns (chunks: seq<Chunk<K, MemoryObj>>, totSize: nat, lastFailed: Option<nat>)
    requires InRange(blocks, mask.Length) && size == TotalSize(before)
    requires forall i :: 0 <= i < mask.Length ==> (mask[i] <==> Covered(before, i))
    modifies mask
    ensures chunks == before + Taken(blocks, got) && totSize == TotalSize(chunks)
    ensures lastFailed == Later(failed, FailedAt(blocks, got))
    ensures forall i :: 0 <= i < mask.Length ==> (mask[i] <==> Covered(chunks, i))
  {
    hide Covered, Taken, FailedAt;
    chunks, totSize, lastFailed := before, size, failed;
    var b := 0;
    assert blocks[0..] == blocks && got[0..] == got;
    while b < |blocks| && b < |got|
      invariant b <= |blocks| && b <= |got| && lastFailed == failed
      invariant chunks + Taken(blocks[b..], got[b..]) == before + Taken(blocks, got)
      invariant FailedAt(blocks[b..], got[b..]) == FailedAt(blocks, got)
      invariant totSize == TotalSize(chunks)
      invariant forall i :: 0 <= i < mask.Length ==> (mask[i] <==> Covered(chunks, i))
    {
      TakeStep(chunks, blocks, got, b);
      if got[b].None? {
        if lastFailed.None? || lastFailed.value < blocks[b].start {
          lastFailed := Some(blocks[b].start);
        }
        break;
      }
      var c := Chunk(blocks[b].key, got[b].value, blocks[b].start, blocks[b].end);
      CoveredAppend(chunks, c);
      chunks := chunks + [c];
      totSize := totSize + c.obj.size;
      Mark(mask, c.start, c.end);
      b := b + 1;
    }
    NothingTaken(chunks, blocks, got, b);
  }

  /** What block b does to the rest of the location. */
  lemma TakeStep<K, O>(chunks: seq<Chunk<K, O>>, blocks: seq<Block<K>>, got: seq<Option<O>>, b: nat)
    requires b < |blocks| && b < |got|
    ensures got[b].None? ==>
              && chunks + Taken(blocks[b..], got[b..]) == chunks
              && FailedAt(blocks[b..], got[b..]) == Some(blocks[b].start)
    ensures got[b].Some? ==>
              var c := Chunk(blocks[b].key, got[b].value, blocks[b].start, blocks[b].end);
              && chunks + Taken(blocks[b..], got[b..]) == chunks + [c] + Taken(blocks[b + 1..], got[b + 1..])
              && FailedAt(blocks[b..], got[b..]) == FailedAt(blocks[b + 1..], got[b + 1..])
  {
    assert blocks[b..][1..] == blocks[b + 1..] && got[b..][1..] == got[b + 1..];
    var rest := Taken(blocks[b + 1..], got[b + 1..]);
    if got[b].Some? {
      var c := Chunk(blocks[b].key, got[b].value, blocks[b].start, blocks[b].end);
      assert chunks + ([c] + rest) == chunks + [c] + rest;
    } else {
      assert chunks + [] == chunks;
    }
  }

  lemma NothingTaken<K, O>(chunks: seq<Chunk<K, O>>, blocks: seq<Block<K>>, got: seq<Option<O>>, b: nat)
    requires b <= |blocks| && b <= |got|
    ensures b == |blocks| || b == |got| ==>
              chunks + Taken(blocks[b..], got[b..]) == chunks && FailedAt(blocks[b..], got[b..]) == None
  {
    assert chunks + [] == chunks;
  }
}
