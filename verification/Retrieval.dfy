/** Retrieval in the cache engine: which chunks come back, what the result mask says,
    and who releases the fetched memory objects. The token database and the storage
    manager are parameters: a list of keyed blocks and a fetch result. */
module Retrieval {
  import EventManager

  class MemoryObj {
    const size: nat
    var refCount: int

    constructor (size: nat)
      ensures this.size == size && refCount == 1
    {
      this.size, refCount := size, 1;
    }

    method RefCountDown()
      modifies `refCount
      ensures refCount == old(refCount) - 1
    {
      refCount := refCount - 1;
    }
  }

  datatype Block<K> = Block(key: K, start: nat, end: nat)

  datatype Chunk<K, O> = Chunk(key: K, obj: O, start: nat, end: nat)

  /** Position i lies in one of the chunks. */
  ghost predicate Covered<K, O>(chunks: seq<Chunk<K, O>>, i: int) {
    exists c :: 0 <= c < |chunks| && chunks[c].start <= i < chunks[c].end
  }

  function Objects<K, O>(chunks: seq<Chunk<K, O>>): (r: seq<O>)
    ensures |r| == |chunks|
  {
    seq(|chunks|, i requires 0 <= i < |chunks| => chunks[i].obj)
  }

  function TotalSize<K>(chunks: seq<Chunk<K, MemoryObj>>): nat {
    if chunks == [] then 0 else TotalSize(chunks[..|chunks| - 1]) + chunks[|chunks| - 1].obj.size
  }

  /** The total is the sum of the sizes: of nothing 0, of one chunk its object's size, and of
      two lists the sum of both. */
  lemma {:induction false} TotalSizeAdds<K>(a: seq<Chunk<K, MemoryObj>>, b: seq<Chunk<K, MemoryObj>>)
    ensures TotalSize<K>([]) == 0
    ensures |a| == 1 ==> TotalSize(a) == a[0].obj.size
    ensures TotalSize(a + b) == TotalSize(a) + TotalSize(b)
    decreases |b|
  {
    if b == [] {
      assert a + b == a;
    } else {
      var n := |b| - 1;
      assert (a + b)[..|a| + n] == a + b[..n];
      TotalSizeAdds(a, b[..n]);
    }
  }

  ghost predicate NoDup<T>(s: seq<T>) {
    forall i, j :: 0 <= i < j < |s| ==> s[i] != s[j]
  }

  lemma {:induction false} NoDupCounts<T>(s: seq<T>, x: T)
    ensures multiset(s)[x] <= |s|
    ensures NoDup(s) ==> multiset(s)[x] == if x in s then 1 else 0
  {
    if s != [] {
      var n := |s| - 1;
      NoDupCounts(s[..n], x);
      assert s == s[..n] + [s[n]];
    }
  }

  lemma CountsAdd<T>(a: seq<T>, b: seq<T>)
    ensures forall x :: multiset(a + b)[x] == multiset(a)[x] + multiset(b)[x]
  {
    assert multiset(a + b) == multiset(a) + multiset(b);
  }

  lemma {:induction false} RepeatCounts<T>(s: seq<T>, i: nat, j: nat)
    requires i < j < |s| && s[i] == s[j]
    ensures multiset(s)[s[i]] >= 2
  {
    assert s == s[..j] + [s[j]] + s[j + 1..];
    assert s[..j][i] == s[i];
    assert s[i] in multiset(s[..j]);
  }

  // ----- the dictionary of fetched objects -----

  /** A dictionary in insertion order. */
  datatype Dict<K(==), O> = Dict(order: seq<K>, vals: map<K, O>) {
    function Put(k: K, v: O): Dict<K, O> {
      Dict(if k in vals then order else order + [k], vals[k := v])
    }

    /** The order lists every key once. */
    ghost predicate Consistent() {
      NoDup(order) && Keyed(order, vals) && forall k :: k in vals ==> k in order
    }
  }

  predicate Keyed<K(==), O>(order: seq<K>, vals: map<K, O>) {
    forall i :: 0 <= i < |order| ==> order[i] in vals
  }

  /** Later pairs replace earlier ones with the same key. */
  function FromPairs<K(==), O>(pairs: seq<(K, O)>): Dict<K, O> {
    if pairs == [] then Dict([], map[])
    else FromPairs(pairs[..|pairs| - 1]).Put(pairs[|pairs| - 1].0, pairs[|pairs| - 1].1)
  }

  lemma PutConsistent<K, O>(d: Dict<K, O>, k: K, v: O)
    requires d.Consistent()
    ensures d.Put(k, v).Consistent()
  {
    var e := d.Put(k, v);
    assert forall i :: 0 <= i < |d.order| ==> e.order[i] == d.order[i];
  }

  lemma {:induction false} DictConsistent<K, O>(pairs: seq<(K, O)>)
    ensures FromPairs(pairs).Consistent()
  {
    hide Dict.Consistent, Dict.Put;
    if pairs == [] {
      EmptyConsistent<K, O>();
    } else {
      DictConsistent(pairs[..|pairs| - 1]);
      PutConsistent(FromPairs(pairs[..|pairs| - 1]), pairs[|pairs| - 1].0, pairs[|pairs| - 1].1);
    }
  }

  lemma EmptyConsistent<K, O>()
    ensures Dict<K, O>.Dict([], map[]).Consistent()
  {
  }

  /** Every key is there, with the value of the last pair that has it. */
  lemma {:induction false} DictEntry<K, O>(pairs: seq<(K, O)>, k: K)
    ensures k in FromPairs(pairs).vals <==> exists i :: Last(pairs, i, k)
    ensures forall i :: Last(pairs, i, k) ==> k in FromPairs(pairs).vals && pairs[i].1 == FromPairs(pairs).vals[k]
  {
    if pairs != [] {
      var n := |pairs| - 1;
      var init := pairs[..n];
      DictEntry(init, k);
      assert forall i :: 0 <= i < n ==> init[i] == pairs[i];
      if k == pairs[n].0 {
        assert Last(pairs, n, k);
      } else {
        assert forall i :: Last(init, i, k) <==> Last(pairs, i, k);
      }
    }
  }

  lemma {:induction false} LastOne<K, O>(pairs: seq<(K, O)>, i: nat) returns (l: nat)
    requires i < |pairs|
    ensures i <= l && Last(pairs, l, pairs[i].0)
    decreases |pairs| - i
  {
    if j :| i < j < |pairs| && pairs[j].0 == pairs[i].0 {
      l := LastOne(pairs, j);
    } else {
      l := i;
    }
  }

  /** Which pair each entry of the dictionary comes from: the last one with its key. */
  lemma DictEntries<K, O>(pairs: seq<(K, O)>)
    ensures FromPairs(pairs).Consistent()
    ensures forall i :: 0 <= i < |pairs| ==> pairs[i].0 in FromPairs(pairs).vals
    ensures forall k :: k in FromPairs(pairs).vals ==>
              exists i :: Last(pairs, i, k) && pairs[i].1 == FromPairs(pairs).vals[k]
  {
    hide FromPairs, Dict.Consistent;
    DictConsistent(pairs);
    forall i | 0 <= i < |pairs| ensures pairs[i].0 in FromPairs(pairs).vals {
      var l := LastOne(pairs, i);
      DictEntry(pairs, pairs[i].0);
    }
    forall k | k in FromPairs(pairs).vals
      ensures exists i :: Last(pairs, i, k) && pairs[i].1 == FromPairs(pairs).vals[k]
    {
      DictEntry(pairs, k);
      var i :| Last(pairs, i, k);
    }
  }

  ghost predicate Last<K, O>(pairs: seq<(K, O)>, i: int, k: K) {
    0 <= i < |pairs| && pairs[i].0 == k && forall j :: i < j < |pairs| ==> pairs[j].0 != k
  }

  // ----- what the asynchronous path returns and releases -----

  /** The longest prefix of the blocks whose keys were all fetched. */
  function Hits<K(==), O>(blocks: seq<Block<K>>, fetched: map<K, O>): (r: seq<Chunk<K, O>>) {
    if blocks == [] || blocks[0].key !in fetched then []
    else [Chunk(blocks[0].key, fetched[blocks[0].key], blocks[0].start, blocks[0].end)] + Hits(blocks[1..], fetched)
  }

  /** Exactly the longest prefix: every returned block was fetched, and the first block
      not returned was not. */
  lemma {:induction false} HitsAreLongestPrefix<K, O>(blocks: seq<Block<K>>, fetched: map<K, O>)
    ensures var h := Hits(blocks, fetched);
            && |h| <= |blocks|
            && (forall i :: 0 <= i < |h| ==>
                  && blocks[i].key in fetched
                  && h[i] == Chunk(blocks[i].key, fetched[blocks[i].key], blocks[i].start, blocks[i].end))
            && (|h| < |blocks| ==> blocks[|h|].key !in fetched)
  {
    if blocks != [] && blocks[0].key in fetched {
      HitsAreLongestPrefix(blocks[1..], fetched);
    }
  }

  function UsedKeys<K(==), O>(hits: seq<Chunk<K, O>>): set<K> {
    set i | 0 <= i < |hits| :: hits[i].key
  }

  /** The fetched objects, in dictionary order, whose keys were not used. */
  function Unused<K(==), O>(order: seq<K>, vals: map<K, O>, used: set<K>): (r: seq<O>)
    requires Keyed(order, vals)
  {
    if order == [] then []
    else
      var n := |order| - 1;
      Unused(order[..n], vals, used) + (if order[n] in used then [] else [vals[order[n]]])
  }

  lemma {:induction false} UnusedOrigin<K, O>(order: seq<K>, vals: map<K, O>, used: set<K>, x: O) returns (h: nat)
    requires Keyed(order, vals) && x in Unused(order, vals, used)
    ensures h < |order| && order[h] !in used && vals[order[h]] == x
  {
    var n := |order| - 1;
    if order[n] !in used && vals[order[n]] == x {
      h := n;
    } else {
      h := UnusedOrigin(order[..n], vals, used, x);
    }
  }

  lemma {:induction false} UnusedHas<K, O>(order: seq<K>, vals: map<K, O>, used: set<K>, h: nat)
    requires Keyed(order, vals) && h < |order| && order[h] !in used
    ensures vals[order[h]] in Unused(order, vals, used)
  {
    var n := |order| - 1;
    if h < n { UnusedHas(order[..n], vals, used, h); }
  }

  lemma {:induction false} UnusedNoDup<K, O>(order: seq<K>, vals: map<K, O>, used: set<K>)
    requires Keyed(order, vals) && NoDup(order) && InjectiveMap(vals)
    ensures NoDup(Unused(order, vals, used))
  {
    if order != [] {
      var n := |order| - 1;
      UnusedNoDup(order[..n], vals, used);
      var a := Unused(order[..n], vals, used);
      forall i | 0 <= i < |a| && order[n] !in used ensures a[i] != vals[order[n]] {
        var h := UnusedOrigin(order[..n], vals, used, a[i]);
        assert order[h] != order[n];
      }
    }
  }

  ghost predicate InjectiveMap<K, O>(m: map<K, O>) {
    forall a, b :: a in m && b in m && m[a] == m[b] ==> a == b
  }

  /** Everything released for a request: the unused objects inside the token
      processing, the returned ones after the transfer to the GPU. */
  function ReleaseLog<K(==), O>(pairs: seq<(K, O)>, blocks: seq<Block<K>>): (r: seq<O>) {
    UnusedOf(pairs, blocks) + Objects(HitsOf(pairs, blocks))
  }

  function HitsOf<K(==), O>(pairs: seq<(K, O)>, blocks: seq<Block<K>>): (r: seq<Chunk<K, O>>) {
    Hits(blocks, FromPairs(pairs).vals)
  }

  function UnusedOf<K(==), O>(pairs: seq<(K, O)>, blocks: seq<Block<K>>): (r: seq<O>) {
    DictEntries(pairs);
    var d := FromPairs(pairs);
    Unused(d.order, d.vals, UsedKeys(HitsOf(pairs, blocks)))
  }

  function Second<K, O>(pairs: seq<(K, O)>): (r: seq<O>)
    ensures |r| == |pairs|
  {
    seq(|pairs|, i requires 0 <= i < |pairs| => pairs[i].1)
  }

  ghost predicate DistinctKeys<K, O>(pairs: seq<(K, O)>) {
    forall i, j :: 0 <= i < j < |pairs| ==> pairs[i].0 != pairs[j].0
  }

  ghost predicate DistinctHits<K, O>(hits: seq<Chunk<K, O>>) {
    forall i, j :: 0 <= i < j < |hits| ==> hits[i].key != hits[j].key
  }

  /** Ownership: when the backends hand over distinct objects, each of them is released
      exactly once if and only if no two of them came under the same key and no
      returned block repeats a key. */
  lemma ReleasedExactlyOnceIff<K, O>(pairs: seq<(K, O)>, blocks: seq<Block<K>>)
    requires NoDup(Second(pairs))
    ensures multiset(ReleaseLog(pairs, blocks)) == multiset(Second(pairs))
       <==> DistinctKeys(pairs) && DistinctHits(HitsOf(pairs, blocks))
  {
    hide FromPairs, Hits, Unused, UsedKeys;
    var log, all := ReleaseLog(pairs, blocks), Second(pairs);
    var hits := HitsOf(pairs, blocks);
    if DistinctKeys(pairs) && DistinctHits(hits) {
      ReleasedOnce(pairs, blocks);
    } else if !DistinctKeys(pairs) {
      var i, j :| 0 <= i < j < |pairs| && pairs[i].0 == pairs[j].0;
      SharedKeyLeaks(pairs, blocks, i, j);
      assert all[i] in multiset(all) && all[i] !in multiset(log);
    } else {
      var i, j :| 0 <= i < j < |hits| && hits[i].key == hits[j].key;
      RepeatedHitReleasesTwice(pairs, blocks, i, j);
      NoDupCounts(all, hits[i].obj);
    }
  }

  lemma FetchedInjective<K, O>(pairs: seq<(K, O)>)
    requires NoDup(Second(pairs))
    ensures InjectiveMap(FromPairs(pairs).vals)
  {
    DictEntries(pairs);
    var m := FromPairs(pairs).vals;
    forall a, b | a in m && b in m && m[a] == m[b] ensures a == b {
      var i :| Last(pairs, i, a) && pairs[i].1 == m[a];
      var j :| Last(pairs, j, b) && pairs[j].1 == m[b];
      assert Second(pairs)[i] == Second(pairs)[j];
    }
  }

  predicate Parted<T(==)>(a: seq<T>, b: seq<T>, all: seq<T>, x: T) {
    (x in all <==> x in a || x in b) && !(x in a && x in b)
  }

  lemma SplitMultiset<T>(a: seq<T>, b: seq<T>, all: seq<T>)
    requires NoDup(a) && NoDup(b) && NoDup(all)
    requires forall x :: Parted(a, b, all, x)
    ensures multiset(a + b) == multiset(all)
  {
    forall x: T ensures multiset(a + b)[x] == multiset(all)[x] {
      assert Parted(a, b, all, x);
      NoDupCounts(a, x);
      NoDupCounts(b, x);
      NoDupCounts(all, x);
      CountsAdd(a, b);
    }
  }

  lemma ReleasedOnce<K, O>(pairs: seq<(K, O)>, blocks: seq<Block<K>>)
    requires NoDup(Second(pairs)) && DistinctKeys(pairs)
    requires DistinctHits(HitsOf(pairs, blocks))
    ensures multiset(ReleaseLog(pairs, blocks)) == multiset(Second(pairs))
  {
    hide NoDup, DistinctKeys, DistinctHits, FromPairs, Second, Hits, Unused, UsedKeys, Objects, InjectiveMap;
    var d := FromPairs(pairs);
    var a, b := UnusedOf(pairs, blocks), Objects(HitsOf(pairs, blocks));
    DictEntries(pairs);
    FetchedInjective(pairs);
    UnusedNoDup(d.order, d.vals, UsedKeys(HitsOf(pairs, blocks)));
    HitObjectsDistinct(blocks, d.vals);
    forall x: O ensures Parted(a, b, Second(pairs), x) {
      OwnedSomewhere(pairs, blocks, x);
    }
    SplitMultiset(a, b, Second(pairs));
  }

  lemma HitObjectsDistinct<K, O>(blocks: seq<Block<K>>, fetched: map<K, O>)
    requires InjectiveMap(fetched) && DistinctHits(Hits(blocks, fetched))
    ensures NoDup(Objects(Hits(blocks, fetched)))
  {
    HitsAreLongestPrefix(blocks, fetched);
    var hits := Hits(blocks, fetched);
    forall i, j | 0 <= i < j < |hits| ensures hits[i].obj != hits[j].obj {
      assert hits[i].key != hits[j].key;
    }
  }

  lemma ReturnedIsFetched<K, O>(pairs: seq<(K, O)>, blocks: seq<Block<K>>, x: O)
    requires x in Objects(HitsOf(pairs, blocks))
    ensures x in Second(pairs)
    ensures exists k :: k in UsedKeys(HitsOf(pairs, blocks))
                     && k in FromPairs(pairs).vals && FromPairs(pairs).vals[k] == x
  {
    hide Hits, FromPairs, Dict.Consistent;
    var d, hits := FromPairs(pairs), HitsOf(pairs, blocks);
    DictEntries(pairs);
    HitsAreLongestPrefix(blocks, d.vals);
    var i :| 0 <= i < |hits| && hits[i].obj == x;
    var p :| Last(pairs, p, hits[i].key) && pairs[p].1 == x;
    assert Second(pairs)[p] == x;
    assert hits[i].key in UsedKeys(hits);
  }

  lemma UnusedIsFetched<K, O>(pairs: seq<(K, O)>, blocks: seq<Block<K>>, x: O)
    requires x in UnusedOf(pairs, blocks)
    ensures x in Second(pairs)
    ensures exists k :: k !in UsedKeys(HitsOf(pairs, blocks))
                     && k in FromPairs(pairs).vals && FromPairs(pairs).vals[k] == x
  {
    hide Hits, FromPairs, UsedKeys, Unused;
    var d := FromPairs(pairs);
    DictEntries(pairs);
    var h := UnusedOrigin(d.order, d.vals, UsedKeys(HitsOf(pairs, blocks)), x);
    var k := d.order[h];
    var p :| Last(pairs, p, k) && pairs[p].1 == x;
    assert Second(pairs)[p] == x;
  }

  lemma KeptIsOwned<K, O>(pairs: seq<(K, O)>, blocks: seq<Block<K>>, k: K)
    requires k in FromPairs(pairs).vals
    ensures var x := FromPairs(pairs).vals[k]; x in UnusedOf(pairs, blocks) || x in Objects(HitsOf(pairs, blocks))
  {
    hide Hits, FromPairs, Unused;
    var d, hits := FromPairs(pairs), HitsOf(pairs, blocks);
    DictEntries(pairs);
    HitsAreLongestPrefix(blocks, d.vals);
    if k in UsedKeys(hits) {
      var i :| 0 <= i < |hits| && hits[i].key == k;
      assert Objects(hits)[i] == d.vals[k];
    } else {
      var h :| 0 <= h < |d.order| && d.order[h] == k;
      UnusedHas(d.order, d.vals, UsedKeys(hits), h);
    }
  }

  /** With distinct keys an object is fetched iff it is returned or unused, never both. */
  lemma OwnedSomewhere<K, O>(pairs: seq<(K, O)>, blocks: seq<Block<K>>, x: O)
    requires NoDup(Second(pairs)) && DistinctKeys(pairs)
    ensures Parted(UnusedOf(pairs, blocks), Objects(HitsOf(pairs, blocks)), Second(pairs), x)
  {
    hide Hits, FromPairs, Unused, UsedKeys, UnusedOf, HitsOf;
    FetchedInjective(pairs);
    if x in Objects(HitsOf(pairs, blocks)) { ReturnedIsFetched(pairs, blocks, x); }
    if x in UnusedOf(pairs, blocks) { UnusedIsFetched(pairs, blocks, x); }
    if x in Second(pairs) {
      var p :| 0 <= p < |pairs| && pairs[p].1 == x;
      DictEntry(pairs, pairs[p].0);
      assert Last(pairs, p, pairs[p].0);
      KeptIsOwned(pairs, blocks, pairs[p].0);
    }
  }

  /** Two objects under one key: the first is overwritten and never released. */
  lemma SharedKeyLeaks<K, O>(pairs: seq<(K, O)>, blocks: seq<Block<K>>, i: nat, j: nat)
    requires NoDup(Second(pairs)) && i < j < |pairs| && pairs[i].0 == pairs[j].0
    ensures pairs[i].1 !in ReleaseLog(pairs, blocks)
  {
    hide Hits, FromPairs, Unused, UsedKeys, UnusedOf, HitsOf;
    var d, x := FromPairs(pairs), pairs[i].1;
    assert Second(pairs)[i] == x;
    forall k | k in d.vals ensures d.vals[k] != x {
      DictEntries(pairs);
      var p :| Last(pairs, p, k) && pairs[p].1 == d.vals[k];
      assert p != i ==> Second(pairs)[p] != Second(pairs)[i];
    }
    if x in UnusedOf(pairs, blocks) {
      UnusedIsFetched(pairs, blocks, x);
      assert false;
    }
    if x in Objects(HitsOf(pairs, blocks)) {
      ReturnedIsFetched(pairs, blocks, x);
      assert false;
    }
  }

  /** A key returned twice: its object is released twice. */
  lemma RepeatedHitReleasesTwice<K, O>(pairs: seq<(K, O)>, blocks: seq<Block<K>>, i: nat, j: nat)
    requires i < j < |HitsOf(pairs, blocks)| && HitsOf(pairs, blocks)[i].key == HitsOf(pairs, blocks)[j].key
    ensures multiset(ReleaseLog(pairs, blocks))[HitsOf(pairs, blocks)[i].obj] >= 2
  {
    hide Hits, FromPairs, Unused, UsedKeys, UnusedOf;
    HitsAreLongestPrefix(blocks, FromPairs(pairs).vals);
    var a, b := UnusedOf(pairs, blocks), Objects(HitsOf(pairs, blocks));
    RepeatCounts(b, i, j);
    CountsAdd(a, b);
  }

  // ----- the asynchronous path, with reference counts -----

  /** What the popped future holds: an error, or one list of pairs per backend. */
  datatype Future<K> = Failed | Ready(results: seq<seq<(K, MemoryObj)>>)

  function Pairs<K, O>(results: seq<seq<(K, O)>>): seq<(K, O)> {
    if results == [] then [] else Pairs(results[..|results| - 1]) + results[|results| - 1]
  }

  // ----- the results of the backends, one by one -----

  /** Result i of backend b. */
  predicate At<K, O>(results: seq<seq<(K, O)>>, b: int, i: int) {
    0 <= b < |results| && 0 <= i < |results[b]|
  }

  predicate Before(b: int, i: int, c: int, j: int) {
    b < c || (b == c && i < j)
  }

  /** The last result under the key, in the order of the backends. */
  ghost predicate LastUnder<K, O>(results: seq<seq<(K, O)>>, b: int, i: int, k: K) {
    && At(results, b, i) && results[b][i].0 == k
    && forall c, j :: At(results, c, j) && Before(b, i, c, j) ==> results[c][j].0 != k
  }

  ghost predicate KeysApart<K, O>(results: seq<seq<(K, O)>>) {
    forall b, i, c, j :: At(results, b, i) && At(results, c, j) && Before(b, i, c, j) ==>
      results[b][i].0 != results[c][j].0
  }

  ghost predicate ObjectsApart<K, O>(results: seq<seq<(K, O)>>) {
    forall b, i, c, j :: At(results, b, i) && At(results, c, j) && Before(b, i, c, j) ==>
      results[b][i].1 != results[c][j].1
  }

  /** How often the backends returned the pair. */
  function Occurrences<K(==), O(==)>(results: seq<seq<(K, O)>>, p: (K, O)): nat {
    if results == [] then 0 else Occurrences(results[1..], p) + multiset(results[0])[p]
  }

  function Offset<K, O>(results: seq<seq<(K, O)>>, b: nat): nat
    requires b <= |results|
  {
    if b == 0 then 0 else Offset(results, b - 1) + |results[b - 1]|
  }

  lemma {:induction false} PairsPrefix<K, O>(results: seq<seq<(K, O)>>, b: nat)
    requires b <= |results|
    ensures |Pairs(results[..b])| == Offset(results, b)
  {
    if b > 0 {
      PairsPrefix(results, b - 1);
      assert results[..b][..b - 1] == results[..b - 1];
    }
  }

  lemma {:induction false} PairAt<K, O>(results: seq<seq<(K, O)>>, b: nat, i: nat)
    requires At(results, b, i)
    ensures Offset(results, b) + i < |Pairs(results)| && Pairs(results)[Offset(results, b) + i] == results[b][i]
    decreases |results|
  {
    var n := |results| - 1;
    PairsPrefix(results, n);
    if b < n {
      PairAt(results[..n], b, i);
      OffsetOfPrefix(results, n, b);
    }
  }

  lemma {:induction false} OffsetOfPrefix<K, O>(results: seq<seq<(K, O)>>, n: nat, b: nat)
    requires b <= n <= |results|
    ensures Offset(results[..n], b) == Offset(results, b)
  {
    if b > 0 { OffsetOfPrefix(results, n, b - 1); }
  }

  lemma {:induction false} PairFrom<K, O>(results: seq<seq<(K, O)>>, p: nat) returns (b: nat, i: nat)
    requires p < |Pairs(results)|
    ensures At(results, b, i) && p == Offset(results, b) + i && Pairs(results)[p] == results[b][i]
    decreases |results|
  {
    var n := |results| - 1;
    PairsPrefix(results, n);
    if p < Offset(results, n) {
      b, i := PairFrom(results[..n], p);
      OffsetOfPrefix(results, n, b);
    } else {
      b, i := n, p - Offset(results, n);
    }
  }

  lemma {:induction false} OffsetsAscend<K, O>(results: seq<seq<(K, O)>>, b: nat, c: nat)
    requires b < c <= |results|
    ensures Offset(results, b) + |results[b]| <= Offset(results, c)
  {
    if b < c - 1 { OffsetsAscend(results, b, c - 1); }
  }

  /** The pairs keep the order of the results. */
  lemma SameOrder<K, O>(results: seq<seq<(K, O)>>, b: nat, i: nat, c: nat, j: nat)
    requires At(results, b, i) && At(results, c, j)
    ensures Before(b, i, c, j) <==> Offset(results, b) + i < Offset(results, c) + j
  {
    if b < c { OffsetsAscend(results, b, c); }
    if c < b { OffsetsAscend(results, c, b); }
  }

  /** Every result is fetched, as often as the backends returned it. */
  lemma {:induction false} FetchedAsReturned<K, O>(results: seq<seq<(K, O)>>, p: (K, O))
    ensures multiset(Pairs(results))[p] == Occurrences(results, p)
    decreases |results|
  {
    if results != [] {
      var n := |results| - 1;
      FetchedAsReturned(results[..n], p);
      CountsAdd(Pairs(results[..n]), results[n]);
      OccurrencesSnoc(results[..n], results[n], p);
      assert results == results[..n] + [results[n]];
    }
  }

  lemma {:induction false} OccurrencesSnoc<K, O>(results: seq<seq<(K, O)>>, last: seq<(K, O)>, p: (K, O))
    ensures Occurrences(results + [last], p) == Occurrences(results, p) + multiset(last)[p]
    decreases |results|
  {
    if results == [] {
      assert ([] + [last])[1..] == [];
    } else {
      assert (results + [last])[1..] == results[1..] + [last];
      OccurrencesSnoc(results[1..], last, p);
    }
  }

  lemma LastIsLast<K, O>(results: seq<seq<(K, O)>>, b: nat, i: nat, k: K)
    requires At(results, b, i)
    ensures Last(Pairs(results), Offset(results, b) + i, k) <==> LastUnder(results, b, i, k)
  {
    var p := Offset(results, b) + i;
    PairAt(results, b, i);
    if LastUnder(results, b, i, k) {
      forall q | p < q < |Pairs(results)| ensures Pairs(results)[q].0 != k {
        var c, j := PairFrom(results, q);
        SameOrder(results, b, i, c, j);
      }
    }
    if Last(Pairs(results), p, k) {
      forall c, j | At(results, c, j) && Before(b, i, c, j) ensures results[c][j].0 != k {
        PairAt(results, c, j);
        SameOrder(results, b, i, c, j);
      }
    }
  }

  /** The dictionary holds, under each key returned, the object of the last such result. */
  lemma DictHoldsLast<K, O>(results: seq<seq<(K, O)>>, k: K)
    ensures var vals := FromPairs(Pairs(results)).vals;
            && (k in vals <==> exists b, i :: At(results, b, i) && results[b][i].0 == k)
            && (k in vals <==> exists b, i :: LastUnder(results, b, i, k))
            && forall b, i :: LastUnder(results, b, i, k) ==> k in vals && vals[k] == results[b][i].1
  {
    hide FromPairs, Pairs, Last;
    DictEntries(Pairs(results));
    DictEntry(Pairs(results), k);
    var vals := FromPairs(Pairs(results)).vals;
    if k in vals {
      var p :| Last(Pairs(results), p, k);
      assert 0 <= p < |Pairs(results)| by { LastInside(Pairs(results), p, k); }
      var b, i := PairFrom(results, p);
      LastIsLast(results, b, i, k);
      UnderKey(results, b, i, k);
    }
    forall b, i | At(results, b, i) && results[b][i].0 == k ensures k in vals {
      PairAt(results, b, i);
    }
    forall b, i | LastUnder(results, b, i, k) ensures k in vals && vals[k] == results[b][i].1 {
      UnderKey(results, b, i, k);
      PairAt(results, b, i);
      LastIsLast(results, b, i, k);
    }
  }

  lemma LastInside<K, O>(pairs: seq<(K, O)>, p: int, k: K)
    requires Last(pairs, p, k)
    ensures 0 <= p < |pairs|
  {
  }

  lemma UnderKey<K, O>(results: seq<seq<(K, O)>>, b: int, i: int, k: K)
    requires LastUnder(results, b, i, k)
    ensures At(results, b, i) && results[b][i].0 == k
  {
  }

  /** Distinctness among the pairs is distinctness among the results. */
  lemma ApartIsDistinct<K, O>(results: seq<seq<(K, O)>>)
    ensures KeysApart(results) <==> DistinctKeys(Pairs(results))
    ensures ObjectsApart(results) <==> NoDup(Second(Pairs(results)))
  {
    hide Pairs;
    var pairs := Pairs(results);
    forall b, i, c, j | At(results, b, i) && At(results, c, j) && Before(b, i, c, j)
      ensures DistinctKeys(pairs) ==> results[b][i].0 != results[c][j].0
      ensures NoDup(Second(pairs)) ==> results[b][i].1 != results[c][j].1
    {
      PairAt(results, b, i);
      PairAt(results, c, j);
      SameOrder(results, b, i, c, j);
      assert Second(pairs)[Offset(results, b) + i] == results[b][i].1;
      assert Second(pairs)[Offset(results, c) + j] == results[c][j].1;
    }
    forall p, q | 0 <= p < q < |pairs|
      ensures KeysApart(results) ==> pairs[p].0 != pairs[q].0
      ensures ObjectsApart(results) ==> pairs[p].1 != pairs[q].1
    {
      var b, i := PairFrom(results, p);
      var c, j := PairFrom(results, q);
      SameOrder(results, b, i, c, j);
    }
  }

  /** The object is that of the last result under the key. */
  ghost predicate LastObject<K, O>(results: seq<seq<(K, O)>>, k: K, o: O) {
    exists b, i :: LastUnder(results, b, i, k) && o == results[b][i].1
  }

  /** Which chunks come back, from the results alone: the longest prefix of the blocks whose
      keys were returned, each with the object of the last result under its key. */
  ghost predicate Returns<K, O>(results: seq<seq<(K, O)>>, blocks: seq<Block<K>>, chunks: seq<Chunk<K, O>>) {
    && |chunks| <= |blocks|
    && (forall h :: 0 <= h < |chunks| ==>
          chunks[h].key == blocks[h].key && chunks[h].start == blocks[h].start && chunks[h].end == blocks[h].end)
    && (forall h :: 0 <= h < |chunks| ==> LastObject(results, blocks[h].key, chunks[h].obj))
    && (|chunks| < |blocks| ==> forall b, i :: At(results, b, i) ==> results[b][i].0 != blocks[|chunks|].key)
  }

  lemma HitsReturn<K, O>(results: seq<seq<(K, O)>>, blocks: seq<Block<K>>)
    ensures Returns(results, blocks, HitsOf(Pairs(results), blocks))
  {
    hide FromPairs, Pairs, Hits;
    var vals, chunks := FromPairs(Pairs(results)).vals, HitsOf(Pairs(results), blocks);
    HitsAreLongestPrefix(blocks, vals);
    forall h | 0 <= h < |chunks|
      ensures LastObject(results, blocks[h].key, chunks[h].obj)
    {
      DictHoldsLast(results, blocks[h].key);
      var b, i :| LastUnder(results, b, i, blocks[h].key);
      assert chunks[h].obj == vals[blocks[h].key] == results[b][i].1;
    }
    forall h | 0 <= h < |chunks|
      ensures chunks[h].key == blocks[h].key && chunks[h].start == blocks[h].start && chunks[h].end == blocks[h].end
    {
      assert blocks[h].key in vals;
    }
    if |chunks| < |blocks| { NotReturned(results, blocks[|chunks|].key); }
  }

  lemma NotReturned<K, O>(results: seq<seq<(K, O)>>, k: K)
    requires k !in FromPairs(Pairs(results)).vals
    ensures forall b, i :: At(results, b, i) ==> results[b][i].0 != k
  {
    hide FromPairs, Pairs;
    DictHoldsLast(results, k);
    forall b, i | At(results, b, i) ensures results[b][i].0 != k {
    }
  }

  function FetchedPairs<K>(f: Future<K>): seq<(K, MemoryObj)> {
    if f.Ready? then Pairs(f.results) else []
  }

  ghost function Held<K>(f: Future<K>): set<MemoryObj> {
    set p <- FetchedPairs(f) :: p.1
  }

  lemma HeldIsReturned<K>(f: Future<K>)
    requires f.Ready?
    ensures forall o :: o in Held(f) <==> exists b, i :: At(f.results, b, i) && f.results[b][i].1 == o
  {
    hide Pairs;
    var pairs := FetchedPairs(f);
    forall o ensures o in Held(f) <==> exists b, i :: At(f.results, b, i) && f.results[b][i].1 == o {
      if o in Held(f) {
        var p :| 0 <= p < |pairs| && pairs[p].1 == o;
        var b, i := PairFrom(f.results, p);
        assert At(f.results, b, i) && f.results[b][i].1 == o;
      }
      if b, i :| At(f.results, b, i) && f.results[b][i].1 == o {
        PairAt(f.results, b, i);
        assert f.results[b][i] in pairs;
      }
    }
  }

  /** Ownership over the results themselves: when the backends return distinct objects, each of
      them is released once if and only if no two results share a key and no returned block
      repeats one. */
  lemma ResultsReleasedOnceIff<K, O>(results: seq<seq<(K, O)>>, blocks: seq<Block<K>>)
    requires ObjectsApart(results)
    ensures (forall b, i :: At(results, b, i) ==> multiset(ReleaseLog(Pairs(results), blocks))[results[b][i].1] == 1)
       <==> KeysApart(results) && DistinctHits(HitsOf(Pairs(results), blocks))
  {
    hide Pairs, ReleaseLog, HitsOf, NoDup, KeysApart, ObjectsApart;
    var pairs := Pairs(results);
    var log, hits := ReleaseLog(pairs, blocks), HitsOf(pairs, blocks);
    ApartIsDistinct(results);
    if KeysApart(results) && DistinctHits(hits) {
      ReleasedExactlyOnceIff(pairs, blocks);
      forall b, i | At(results, b, i) ensures multiset(log)[results[b][i].1] == 1 {
        PairAt(results, b, i);
        NoDupCounts(Second(pairs), results[b][i].1);
        assert Second(pairs)[Offset(results, b) + i] == results[b][i].1;
      }
    } else if !KeysApart(results) {
      var p, q :| 0 <= p < q < |pairs| && pairs[p].0 == pairs[q].0;
      SharedKeyLeaks(pairs, blocks, p, q);
      var b, i := PairFrom(results, p);
      assert At(results, b, i) && multiset(log)[results[b][i].1] == 0;
    } else {
      var p, q :| 0 <= p < q < |hits| && hits[p].key == hits[q].key;
      RepeatedHitReleasesTwice(pairs, blocks, p, q);
      var b, i := HitOrigin(results, blocks, p);
      assert At(results, b, i) && multiset(log)[results[b][i].1] >= 2;
    }
  }

  lemma HitOrigin<K, O>(results: seq<seq<(K, O)>>, blocks: seq<Block<K>>, h: nat) returns (b: nat, i: nat)
    requires h < |HitsOf(Pairs(results), blocks)|
    ensures At(results, b, i) && results[b][i].1 == HitsOf(Pairs(results), blocks)[h].obj
  {
    hide Pairs, HitsOf;
    HitsReturn(results, blocks);
    b, i :| LastUnder(results, b, i, blocks[h].key) && HitsOf(Pairs(results), blocks)[h].obj == results[b][i].1;
  }

  /** Every reference count has dropped by the number of times its object occurs in `log`. */
  twostate predicate Dropped(objs: set<MemoryObj>, log: seq<MemoryObj>)
    reads objs
  {
    forall o <- objs :: o.refCount == old(o.refCount) - multiset(log)[o]
  }

  method ReleaseAll(objs: seq<MemoryObj>, ghost all: set<MemoryObj>)
    requires forall o :: o in objs ==> o in all
    modifies all`refCount
    ensures Dropped(all, objs)
  {
    for i := 0 to |objs|
      invariant Dropped(all, objs[..i])
    {
      assert objs[..i + 1] == objs[..i] + [objs[i]];
      assert objs[i] in objs;
      objs[i].RefCountDown();
    }
    assert objs[..|objs|] == objs;
  }

  method FillDict<K(==)>(results: seq<seq<(K, MemoryObj)>>) returns (d: Dict<K, MemoryObj>)
    ensures d == FromPairs(Pairs(results))
  {
    d := Dict([], map[]);
    for b := 0 to |results|
      invariant d == FromPairs(Pairs(results[..b]))
    {
      var base := Pairs(results[..b]);
      assert base + results[b][..0] == base;
      for i := 0 to |results[b]|
        invariant d == FromPairs(base + results[b][..i])
      {
        assert (base + results[b][..i + 1])[..|base| + i] == base + results[b][..i];
        d := d.Put(results[b][i].0, results[b][i].1);
      }
      assert results[..b + 1][..b] == results[..b] && results[b][..|results[b]|] == results[b];
    }
    assert results[..|results|] == results;
  }

  ghost predicate InRange<K>(blocks: seq<Block<K>>, n: nat) {
    forall i :: 0 <= i < |blocks| ==> blocks[i].start <= blocks[i].end <= n
  }

  /** `mask[start:end] = True`. */
  method Mark(mask: array<bool>, start: nat, end: nat)
    requires start <= end <= mask.Length
    modifies mask
    ensures forall i :: 0 <= i < mask.Length ==> (mask[i] <==> old(mask[i]) || start <= i < end)
  {
    forall i | start <= i < end { mask[i] := true; }
  }

  lemma OneMoreHit<K>(chunks: seq<Chunk<K, MemoryObj>>, blocks: seq<Block<K>>, fetched: map<K, MemoryObj>, i: nat)
    requires i < |blocks| && blocks[i].key in fetched
    ensures var c := Chunk(blocks[i].key, fetched[blocks[i].key], blocks[i].start, blocks[i].end);
            chunks + Hits(blocks[i..], fetched) == chunks + [c] + Hits(blocks[i + 1..], fetched)
  {
    assert blocks[i..][1..] == blocks[i + 1..];
    var c := Chunk(blocks[i].key, fetched[blocks[i].key], blocks[i].start, blocks[i].end);
    assert chunks + ([c] + Hits(blocks[i + 1..], fetched)) == chunks + [c] + Hits(blocks[i + 1..], fetched);
  }

  lemma NoMoreHits<K>(chunks: seq<Chunk<K, MemoryObj>>, blocks: seq<Block<K>>, fetched: map<K, MemoryObj>, i: nat)
    requires i == |blocks| || (i < |blocks| && blocks[i].key !in fetched)
    ensures chunks + Hits(blocks[i..], fetched) == chunks
  {
    assert chunks + [] == chunks;
  }

  /** The loop over the keyed blocks: collect the hits up to the first missing key and
      mark their tokens. */
  method CollectHits<K(==)>(blocks: seq<Block<K>>, fetched: map<K, MemoryObj>, mask: array<bool>)
    returns (chunks: seq<Chunk<K, MemoryObj>>, totSize: nat)
    requires InRange(blocks, mask.Length)
    modifies mask
    ensures chunks == Hits(blocks, fetched) && totSize == TotalSize(chunks)
    ensures forall i :: 0 <= i < mask.Length ==> (mask[i] <==> old(mask[i]) || Covered(chunks, i))
  {
    NothingReturned<K>();
    hide Covered, Hits;
    chunks, totSize := [], 0;
    var i := 0;
    assert blocks[0..] == blocks;
    while i < |blocks| && blocks[i].key in fetched
      invariant i <= |blocks| && chunks + Hits(blocks[i..], fetched) == Hits(blocks, fetched)
      invariant totSize == TotalSize(chunks)
      invariant forall h :: 0 <= h < mask.Length ==> (mask[h] <==> old(mask[h]) || Covered(chunks, h))
    {
      var b := blocks[i];
      var c := Chunk(b.key, fetched[b.key], b.start, b.end);
      OneMoreHit(chunks, blocks, fetched, i);
      CoveredAppend(chunks, c);
      chunks := chunks + [c];
      totSize := totSize + c.obj.size;
      Mark(mask, b.start, b.end);
      i := i + 1;
    }
    NoMoreHits(chunks, blocks, fetched, i);
  }

  lemma CoveredAppend<K, O>(chunks: seq<Chunk<K, O>>, c: Chunk<K, O>)
    ensures forall h :: Covered(chunks + [c], h) <==> Covered(chunks, h) || c.start <= h < c.end
  {
    forall h ensures Covered(chunks + [c], h) <==> Covered(chunks, h) || c.start <= h < c.end {
      if Covered(chunks, h) {
        var i :| 0 <= i < |chunks| && chunks[i].start <= h < chunks[i].end;
        assert (chunks + [c])[i] == chunks[i];
      }
      if c.start <= h < c.end {
        assert (chunks + [c])[|chunks|] == c;
      }
    }
  }

  lemma NothingReturned<K>()
    ensures TotalSize<K>([]) == 0 && forall i :: !Covered<K, MemoryObj>([], i)
  {
  }

  /** Loading through the event manager. The objects not returned are released here. */
  method AsyncProcessTokens<K(==)>(events: EventManager.Manager<Future<K>>, reqId: string, blocks: seq<Block<K>>,
                                     mask: array<bool>, ghost held: set<MemoryObj>)
    returns (chunks: seq<Chunk<K, MemoryObj>>, totSize: nat)
    requires reqId in events.files.done && InRange(blocks, mask.Length)
    requires held == Held(events.files.done[reqId])
    modifies events, mask, held`refCount
    ensures events.files == EventManager.Step(old(events.files), EventManager.Pop(reqId)).0
    ensures var f := old(events.files.done[reqId]);
            && chunks == (if f.Ready? then HitsOf(FetchedPairs(f), blocks) else [])
            && (f.Ready? ==> Returns(f.results, blocks, chunks))
            && totSize == TotalSize(chunks)
            && Dropped(held, if f.Ready? then UnusedOf(FetchedPairs(f), blocks) else [])
    ensures forall i :: 0 <= i < mask.Length ==> (mask[i] <==> old(mask[i]) || Covered(chunks, i))
  {
    hide FromPairs, Hits, Unused, UsedKeys, Pairs, InRange, Covered, TotalSize, HitsOf, UnusedOf;
    NothingReturned<K>();
    var popped := events.PopEvent(reqId);
    if popped.future.Failed? {
      return [], 0;
    }
    assert forall o <- held :: o.refCount == old(o.refCount);
    HitsReturn(popped.future.results, blocks);
    hide Returns;
    chunks, totSize := ProcessFetched(popped.future, blocks, mask, held);
  }

  method ProcessFetched<K(==)>(future: Future<K>, blocks: seq<Block<K>>, mask: array<bool>, ghost held: set<MemoryObj>)
    returns (chunks: seq<Chunk<K, MemoryObj>>, totSize: nat)
    requires future.Ready? && InRange(blocks, mask.Length) && held == Held(future)
    modifies mask, held`refCount
    ensures chunks == HitsOf(FetchedPairs(future), blocks) && totSize == TotalSize(chunks)
    ensures Dropped(held, UnusedOf(FetchedPairs(future), blocks))
    ensures forall i :: 0 <= i < mask.Length ==> (mask[i] <==> old(mask[i]) || Covered(chunks, i))
  {
    hide FromPairs, Hits, Unused, UsedKeys, Pairs, InRange, Covered, TotalSize, Held;
    var d := FillDict(future.results);
    DictEntries(Pairs(future.results));
    chunks, totSize := CollectHits(blocks, d.vals, mask);
    var unused := Unused(d.order, d.vals, UsedKeys(chunks));
    FetchedOnly(future, blocks);
    assert forall o <- held :: o.refCount == old(o.refCount);
    ReleaseAll(unused, held);
  }

  /** Only fetched objects are ever returned or released. */
  lemma FetchedOnly<K>(f: Future<K>, blocks: seq<Block<K>>)
    ensures forall o :: o in UnusedOf(FetchedPairs(f), blocks) ==> o in Held(f)
    ensures forall o :: o in Objects(HitsOf(FetchedPairs(f), blocks)) ==> o in Held(f)
  {
    var pairs := FetchedPairs(f);
    var d := FromPairs(pairs);
    DictEntries(pairs);
    HitsAreLongestPrefix(blocks, d.vals);
    forall o | o in UnusedOf(pairs, blocks) ensures o in Held(f) {
      var h := UnusedOrigin(d.order, d.vals, UsedKeys(HitsOf(pairs, blocks)), o);
      var q :| Last(pairs, q, d.order[h]) && pairs[q].1 == d.vals[d.order[h]];
      assert pairs[q] in pairs;
    }
    forall o | o in Objects(HitsOf(pairs, blocks)) ensures o in Held(f) {
      var i :| 0 <= i < |HitsOf(pairs, blocks)| && HitsOf(pairs, blocks)[i].obj == o;
      var k := HitsOf(pairs, blocks)[i].key;
      var q :| Last(pairs, q, k) && pairs[q].1 == d.vals[k];
      assert pairs[q] in pairs;
    }
  }

  /** The loop after the transfer. */
  method ReleaseReturned<K>(reordered: seq<Chunk<K, MemoryObj>>, ghost held: set<MemoryObj>)
    requires forall o :: o in Objects(reordered) ==> o in held
    modifies held`refCount
    ensures Dropped(held, Objects(reordered))
  {
    for i := 0 to |reordered|
      invariant Dropped(held, Objects(reordered)[..i])
    {
      assert Objects(reordered)[..i + 1] == Objects(reordered)[..i] + [reordered[i].obj];
      assert Objects(reordered)[i] in Objects(reordered);
      reordered[i].obj.RefCountDown();
    }
    assert Objects(reordered)[..|reordered|] == Objects(reordered);
  }

  /** `retrieve` over the asynchronous path, from the fresh mask to the release loop that
      follows the transfer to the GPU. */
  method Retrieve<K(==)>(events: EventManager.Manager<Future<K>>, reqId: string, numTokens: nat, blocks: seq<Block<K>>,
                         ghost held: set<MemoryObj>)
    returns (mask: array<bool>, ghost chunks: seq<Chunk<K, MemoryObj>>)
    requires reqId in events.files.done && InRange(blocks, numTokens)
    requires held == Held(events.files.done[reqId])
    modifies events, held`refCount
    ensures events.files == EventManager.Step(old(events.files), EventManager.Pop(reqId)).0
    ensures fresh(mask) && mask.Length == numTokens
    ensures var f := old(events.files.done[reqId]);
            && chunks == (if f.Ready? then HitsOf(FetchedPairs(f), blocks) else [])
            && (f.Ready? ==> Returns(f.results, blocks, chunks))
            && Dropped(held, if f.Ready? then ReleaseLog(FetchedPairs(f), blocks) else [])
    ensures forall i :: 0 <= i < mask.Length ==> (mask[i] <==> Covered(chunks, i))
    ensures var f := old(events.files.done[reqId]);
            f.Ready? && ObjectsApart(f.results) && KeysApart(f.results) && DistinctHits(chunks) ==>
              forall b, i :: At(f.results, b, i) ==>
                f.results[b][i].1.refCount == old(f.results[b][i].1.refCount) - 1
  {
    hide FromPairs, Hits, Unused, UsedKeys, Pairs, TotalSize, InRange;
    hide Covered, FetchedPairs, EventManager.Step, NoDup, DistinctKeys, DistinctHits;
    hide ObjectsApart, KeysApart, Returns, HitsOf, UnusedOf;
    ghost var f := events.files.done[reqId];
    mask := new bool[numTokens](_ => false);
    var reordered, totSize := AsyncProcessTokens(events, reqId, blocks, mask, held);
    chunks := reordered;
    FetchedOnly(f, blocks);
    ReleaseReturned(reordered, held);
    assert Dropped(held, if f.Ready? then ReleaseLog(FetchedPairs(f), blocks) else []) by {
      if f.Ready? { CountsAdd(UnusedOf(FetchedPairs(f), blocks), Objects(reordered)); }
    }
    if f.Ready? && ObjectsApart(f.results) && KeysApart(f.results) && DistinctHits(chunks) {
      assert FetchedPairs(f) == Pairs(f.results) by { FetchedFrom(f); }
      ResultsReleasedOnceIff(f.results, blocks);
      HeldIsReturned(f);
    }
  }

  lemma FetchedFrom<K>(f: Future<K>)
    requires f.Ready?
    ensures FetchedPairs(f) == Pairs(f.results)
  {
  }
}
