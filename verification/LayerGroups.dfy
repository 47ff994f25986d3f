/** Grouping the layers by KV-cache structure, the lookups, and the shapes derived from
    the groups. */
module LayerGroups {
  import opened Options

  /** A tensor's shape and dtype: what the layers of one group share. Dtypes are opaque tags. */
  datatype Structure = Structure(shape: seq<nat>, dtype: nat)

  /** One item of the cache dictionary. */
  datatype Layer = Layer(name: string, structure: Structure)

  datatype Member = Member(name: string, index: nat)

  datatype Group = Group(names: seq<string>, indices: seq<nat>, structure: Structure)

  // ----- the intended grouping -----

  /** The structures in the order of their first layer. */
  function Structures(layers: seq<Layer>): seq<Structure> {
    if layers == [] then []
    else
      var n := |layers| - 1;
      var before := Structures(layers[..n]);
      if layers[n].structure in before then before else before + [layers[n].structure]
  }

  /** The layers with a given structure, ascending. */
  function MembersOf(layers: seq<Layer>, s: Structure): seq<Member> {
    if layers == [] then []
    else
      var n := |layers| - 1;
      MembersOf(layers[..n], s) + if layers[n].structure == s then [Member(layers[n].name, n)] else []
  }

  function GroupOf(members: seq<Member>, s: Structure): Group {
    Group(seq(|members|, i requires 0 <= i < |members| => members[i].name),
          seq(|members|, i requires 0 <= i < |members| => members[i].index), s)
  }

  function GroupsOf(layers: seq<Layer>): (r: seq<Group>)
    ensures |r| == |Structures(layers)|
  {
    var ss := Structures(layers);
    seq(|ss|, i requires 0 <= i < |ss| => GroupOf(MembersOf(layers, ss[i]), ss[i]))
  }

  /** The members are layers of the structure in ascending order. */
  ghost predicate Right(ms: seq<Member>, layers: seq<Layer>, s: Structure) {
    && (forall i, j :: 0 <= i < j < |ms| ==> ms[i].index < ms[j].index)
    && (forall i :: 0 <= i < |ms| ==> ms[i].index < |layers| && layers[ms[i].index] == Layer(ms[i].name, s))
  }

  lemma {:induction false} MembersRight(layers: seq<Layer>, s: Structure)
    ensures Right(MembersOf(layers, s), layers, s)
  {
    if layers != [] {
      MembersRight(layers[..|layers| - 1], s);
    }
  }

  lemma {:induction false} EveryLayerListed(layers: seq<Layer>, k: nat) returns (i: nat)
    requires k < |layers|
    ensures i < |MembersOf(layers, layers[k].structure)| && MembersOf(layers, layers[k].structure)[i].index == k
  {
    var n := |layers| - 1;
    if k == n {
      i := |MembersOf(layers[..n], layers[k].structure)|;
    } else {
      i := EveryLayerListed(layers[..n], k);
    }
  }

  ghost predicate Occurs(layers: seq<Layer>, s: Structure) {
    exists k :: 0 <= k < |layers| && layers[k].structure == s
  }

  lemma {:induction false} StructureOccursIff(layers: seq<Layer>, s: Structure)
    ensures s in Structures(layers) <==> Occurs(layers, s)
    ensures s in Structures(layers) <==> MembersOf(layers, s) != []
  {
    if layers != [] {
      var n := |layers| - 1;
      var front := layers[..n];
      StructureOccursIff(front, s);
      if Occurs(front, s) {
        var k :| 0 <= k < n && front[k].structure == s;
        assert layers[k].structure == s;
      }
      if Occurs(layers, s) && layers[n].structure != s {
        var k :| 0 <= k < |layers| && layers[k].structure == s;
        assert front[k].structure == s;
      }
    }
  }

  lemma {:induction false} StructuresDiffer(layers: seq<Layer>, i: nat, j: nat)
    requires i < j < |Structures(layers)|
    ensures Structures(layers)[i] != Structures(layers)[j]
  {
    if layers != [] && j < |Structures(layers[..|layers| - 1])| {
      StructuresDiffer(layers[..|layers| - 1], i, j);
    }
  }

  /** Index of a structure's first layer. */
  function First(layers: seq<Layer>, s: Structure): nat
    requires MembersOf(layers, s) != []
  {
    MembersOf(layers, s)[0].index
  }

  lemma AllOccur(layers: seq<Layer>, i: nat)
    requires i < |Structures(layers)|
    ensures MembersOf(layers, Structures(layers)[i]) != []
  {
    StructureOccursIff(layers, Structures(layers)[i]);
  }

  lemma {:induction false} StructuresAscend(layers: seq<Layer>, i: nat, j: nat)
    requires i < j < |Structures(layers)|
    requires MembersOf(layers, Structures(layers)[i]) != [] && MembersOf(layers, Structures(layers)[j]) != []
    ensures First(layers, Structures(layers)[i]) < First(layers, Structures(layers)[j])
  {
    var n := |layers| - 1;
    var front := layers[..n];
    AllOccur(front, i);
    if j < |Structures(front)| {
      AllOccur(front, j);
      StructuresAscend(front, i, j);
    } else {
      StructureOccursIff(front, layers[n].structure);
      MembersRight(front, Structures(front)[i]);
    }
  }

  // ----- the grouping is a partition into maximal homogeneous groups -----

  /** Every layer is in exactly one group; groups are homogeneous, pairwise different in
      structure, ascending inside, ordered by first layer, and names go with indices. */
  ghost predicate Partition(groups: seq<Group>, layers: seq<Layer>) {
    && (forall g :: 0 <= g < |groups| ==> Homogeneous(groups[g], layers))
    && (forall g, h :: 0 <= g < h < |groups| ==> groups[g].structure != groups[h].structure)
    && (forall g, h :: 0 <= g < h < |groups| ==> groups[g].indices[0] < groups[h].indices[0])
    && (forall k :: 0 <= k < |layers| ==> Covered(groups, k))
  }

  ghost predicate Covered(groups: seq<Group>, k: nat) {
    exists g :: 0 <= g < |groups| && k in groups[g].indices
  }

  ghost predicate Homogeneous(g: Group, layers: seq<Layer>) {
    && g.indices != [] && |g.names| == |g.indices|
    && (forall i, j :: 0 <= i < j < |g.indices| ==> g.indices[i] < g.indices[j])
    && forall i :: 0 <= i < |g.indices| ==>
         g.indices[i] < |layers| && layers[g.indices[i]] == Layer(g.names[i], g.structure)
  }

  lemma GroupHomogeneous(ms: seq<Member>, layers: seq<Layer>, s: Structure)
    requires ms != [] && Right(ms, layers, s)
    ensures Homogeneous(GroupOf(ms, s), layers)
  {
  }

  lemma GroupsPartition(layers: seq<Layer>)
    ensures Partition(GroupsOf(layers), layers)
  {
    hide Structures, MembersOf, Right, Homogeneous;
    var groups, ss := GroupsOf(layers), Structures(layers);
    forall g | 0 <= g < |groups| ensures Homogeneous(groups[g], layers) && groups[g].indices != [] {
      AllOccur(layers, g);
      MembersRight(layers, ss[g]);
      GroupHomogeneous(MembersOf(layers, ss[g]), layers, ss[g]);
    }
    forall g, h | 0 <= g < h < |groups|
      ensures groups[g].structure != groups[h].structure && groups[g].indices[0] < groups[h].indices[0]
    {
      StructuresDiffer(layers, g, h);
      StructuresAscend(layers, g, h);
    }
    forall k | 0 <= k < |layers| ensures Covered(groups, k) {
      var s := layers[k].structure;
      assert Occurs(layers, s);
      StructureOccursIff(layers, s);
      var g :| 0 <= g < |ss| && ss[g] == s;
      var i := EveryLayerListed(layers, k);
      assert groups[g].indices[i] == k;
    }
  }

  /** No layer is in two groups, and layers share a group exactly when they share a structure. */
  lemma SameGroupIffSameStructure(groups: seq<Group>, layers: seq<Layer>, j: nat, k: nat, g: nat, h: nat)
    requires Partition(groups, layers) && g < |groups| && h < |groups|
    requires j in groups[g].indices && k in groups[h].indices
    ensures j < |layers| && k < |layers|
    ensures g == h <==> layers[j].structure == layers[k].structure
  {
    assert Homogeneous(groups[g], layers) && Homogeneous(groups[h], layers);
    if g < h { assert groups[g].structure != groups[h].structure; }
    if h < g { assert groups[h].structure != groups[g].structure; }
  }

  function FirstIndices(groups: seq<Group>): (r: seq<nat>)
    requires forall g :: 0 <= g < |groups| ==> groups[g].indices != []
    ensures |r| == |groups|
  {
    seq(|groups|, g requires 0 <= g < |groups| => groups[g].indices[0])
  }

  /** The laws of Partition leave no choice: they hold of one grouping only. */
  lemma PartitionIsUnique(groups: seq<Group>, other: seq<Group>, layers: seq<Layer>)
    requires Partition(groups, layers) && Partition(other, layers)
    ensures groups == other
  {
    FirstsAmong(groups, other, layers);
    FirstsAmong(other, groups, layers);
    hide Homogeneous;
    var s, t := FirstIndices(groups), FirstIndices(other);
    SameAscending(s, t);
    forall g | 0 <= g < |groups| ensures groups[g] == other[g] {
      assert s[g] == t[g];
      FirstDecides(groups, other, layers, g, g);
    }
  }

  lemma FirstDecides(groups: seq<Group>, other: seq<Group>, layers: seq<Layer>, g: nat, h: nat)
    requires Partition(groups, layers) && Partition(other, layers) && g < |groups| && h < |other|
    requires groups[g].indices != [] && other[h].indices != [] && groups[g].indices[0] == other[h].indices[0]
    ensures groups[g] == other[h]
  {
    assert Homogeneous(groups[g], layers) && Homogeneous(other[h], layers);
    SameStructureSameGroup(groups, layers, g, h, other);
  }

  /** Every group's first layer starts a group of the other partition. */
  lemma FirstsAmong(groups: seq<Group>, other: seq<Group>, layers: seq<Layer>)
    requires Partition(groups, layers) && Partition(other, layers)
    ensures forall g :: 0 <= g < |groups| ==> groups[g].indices != []
    ensures forall h :: 0 <= h < |other| ==> other[h].indices != []
    ensures forall k :: k in FirstIndices(groups) ==> k in FirstIndices(other)
  {
    forall g | 0 <= g < |groups| ensures groups[g].indices != [] { assert Homogeneous(groups[g], layers); }
    forall h | 0 <= h < |other| ensures other[h].indices != [] { assert Homogeneous(other[h], layers); }
    forall k | k in FirstIndices(groups) ensures k in FirstIndices(other) {
      var g :| 0 <= g < |groups| && FirstIndices(groups)[g] == k;
      assert Homogeneous(groups[g], layers);
      assert Covered(other, k);
      var h :| 0 <= h < |other| && k in other[h].indices;
      assert Homogeneous(other[h], layers);
      SameStructureSameGroup(groups, layers, g, h, other);
      assert FirstIndices(other)[h] == k;
    }
  }

  lemma SameStructureSameGroup(groups: seq<Group>, layers: seq<Layer>, g: nat, h: nat, other: seq<Group>)
    requires Partition(groups, layers) && Partition(other, layers)
    requires g < |groups| && h < |other| && groups[g].structure == other[h].structure
    ensures groups[g] == other[h]
  {
    SameIndices(groups, other, layers, g, h);
    SameIndices(other, groups, layers, h, g);
    SameAscending(groups[g].indices, other[h].indices);
    assert Homogeneous(groups[g], layers) && Homogeneous(other[h], layers);
    assert groups[g].names == other[h].names;
  }

  lemma SameIndices(groups: seq<Group>, other: seq<Group>, layers: seq<Layer>, g: nat, h: nat)
    requires Partition(groups, layers) && Partition(other, layers)
    requires g < |groups| && h < |other| && groups[g].structure == other[h].structure
    ensures forall k :: k in groups[g].indices ==> k in other[h].indices
    ensures forall i, j :: 0 <= i < j < |groups[g].indices| ==> groups[g].indices[i] < groups[g].indices[j]
  {
    assert Homogeneous(groups[g], layers) && Homogeneous(other[h], layers);
    forall k | k in groups[g].indices ensures k in other[h].indices {
      assert layers[k].structure == groups[g].structure;
      assert Covered(other, k);
      var at :| 0 <= at < |other| && k in other[at].indices;
      assert other[h].indices[0] in other[h].indices;
      SameGroupIffSameStructure(other, layers, k, other[h].indices[0], at, h);
    }
  }

  /** Ascending sequences with the same elements are equal. */
  lemma {:induction false} SameAscending(s: seq<nat>, t: seq<nat>)
    requires forall i, j :: 0 <= i < j < |s| ==> s[i] < s[j]
    requires forall i, j :: 0 <= i < j < |t| ==> t[i] < t[j]
    requires forall k :: k in s <==> k in t
    ensures s == t
    decreases |s|
  {
    assert t != [] ==> t[0] in t;
    if s != [] {
      assert s[|s| - 1] in t;
      var m, n := |s| - 1, |t| - 1;
      assert t[n] in s && s[m] in s;
      var a :| 0 <= a <= m && s[a] == t[n];
      var b :| 0 <= b <= n && t[b] == s[m];
      assert s[m] == t[n];
      forall k ensures k in s[..m] <==> k in t[..n] {
        if k in s[..m] { assert k in s && k < s[m]; }
        if k in t[..n] { assert k in t && k < t[n]; }
      }
      SameAscending(s[..m], t[..n]);
      assert s == s[..m] + [s[m]] && t == t[..n] + [t[n]];
    }
  }

  // ----- the manager -----

  /** What the dictionary holds after some layers: the keys in order, each with its members. */
  ghost predicate Collected(order: seq<Structure>, members: map<Structure, seq<Member>>, layers: seq<Layer>) {
    && order == Structures(layers)
    && (forall s :: s in members <==> s in order)
    && forall s :: s in members ==> members[s] == MembersOf(layers, s)
  }

  lemma OneMore(order: seq<Structure>, members: map<Structure, seq<Member>>, layers: seq<Layer>, x: Layer)
    requires Collected(order, members, layers)
    ensures var m := Member(x.name, |layers|);
            if x.structure in members
            then Collected(order, members[x.structure := members[x.structure] + [m]], layers + [x])
            else Collected(order + [x.structure], members[x.structure := [m]], layers + [x])
  {
    assert (layers + [x])[..|layers|] == layers;
    StructureOccursIff(layers, x.structure);
  }

  /** The first loop: a default dictionary, filled in iteration order. */
  method Collect(caches: seq<Layer>) returns (order: seq<Structure>, members: map<Structure, seq<Member>>)
    ensures Collected(order, members, caches)
  {
    hide Collected;
    order, members := [], map[];
    EmptyCollected();
    for idx := 0 to |caches|
      invariant Collected(order, members, caches[..idx])
    {
      var key, member := caches[idx].structure, Member(caches[idx].name, idx);
      OneMore(order, members, caches[..idx], caches[idx]);
      assert caches[..idx + 1] == caches[..idx] + [caches[idx]];
      if key in members {
        members := members[key := members[key] + [member]];
      } else {
        order, members := order + [key], members[key := [member]];
      }
    }
    assert caches[..|caches|] == caches;
  }

  lemma EmptyCollected()
    ensures Collected([], map[], [])
  {
  }

  /** Members kept per key, none empty: the sort key is then defined. */
  ghost predicate Firsts(keys: seq<Structure>, members: map<Structure, seq<Member>>) {
    forall i :: 0 <= i < |keys| ==> keys[i] in members && members[keys[i]] != []
  }

  function Key(s: Structure, members: map<Structure, seq<Member>>): nat
    requires s in members && members[s] != []
  {
    members[s][0].index
  }

  ghost predicate Sorted(keys: seq<Structure>, members: map<Structure, seq<Member>>)
    requires Firsts(keys, members)
  {
    forall i, j :: 0 <= i < j < |keys| ==> Key(keys[i], members) <= Key(keys[j], members)
  }

  ghost predicate StrictlySorted(keys: seq<Structure>, members: map<Structure, seq<Member>>)
    requires Firsts(keys, members)
  {
    forall i, j :: 0 <= i < j < |keys| ==> Key(keys[i], members) < Key(keys[j], members)
  }

  /** `sorted(keys, key=first index)`, as a stable insertion sort. */
  method SortByFirstIndex(keys: seq<Structure>, members: map<Structure, seq<Member>>) returns (r: seq<Structure>)
    requires Firsts(keys, members)
    ensures Firsts(r, members) && Sorted(r, members) && multiset(r) == multiset(keys)
  {
    r := [];
    for i := 0 to |keys|
      invariant Firsts(r, members) && Sorted(r, members) && multiset(r) == multiset(keys[..i])
    {
      assert keys[..i + 1] == keys[..i] + [keys[i]];
      r := Insert(keys[i], r, members);
    }
    assert keys[..|keys|] == keys;
  }

  method Insert(x: Structure, s: seq<Structure>, members: map<Structure, seq<Member>>) returns (r: seq<Structure>)
    requires Firsts(s, members) && Sorted(s, members) && x in members && members[x] != []
    ensures Firsts(r, members) && Sorted(r, members) && multiset(r) == multiset(s) + multiset{x}
  {
    hide Key, Sorted;
    var p := |s|;
    while p > 0 && Key(s[p - 1], members) > Key(x, members)
      invariant 0 <= p <= |s|
      invariant forall j :: p <= j < |s| ==> Key(s[j], members) > Key(x, members)
    {
      p := p - 1;
    }
    r := s[..p] + [x] + s[p..];
    InsertedMultiset(s, p, x);
    InsertedAt(s, p, x, r);
    InsertedSorted(s, p, x, r, members);
  }

  lemma InsertedMultiset<T>(s: seq<T>, p: nat, x: T)
    requires p <= |s|
    ensures multiset(s[..p] + [x] + s[p..]) == multiset(s) + multiset{x}
  {
    assert s == s[..p] + s[p..];
  }

  ghost predicate Inserted<T>(s: seq<T>, p: nat, x: T, r: seq<T>) {
    && |r| == |s| + 1 && p <= |s|
    && forall i :: 0 <= i < |r| ==> r[i] == if i < p then s[i] else if i == p then x else s[i - 1]
  }

  lemma InsertedAt<T>(s: seq<T>, p: nat, x: T, r: seq<T>)
    requires p <= |s| && r == s[..p] + [x] + s[p..]
    ensures Inserted(s, p, x, r)
  {
  }

  lemma InsertedSorted(s: seq<Structure>, p: nat, x: Structure, r: seq<Structure>, members: map<Structure, seq<Member>>)
    requires Firsts(s, members) && Sorted(s, members) && x in members && members[x] != [] && Inserted(s, p, x, r)
    requires p > 0 ==> Key(s[p - 1], members) <= Key(x, members)
    requires forall j :: p <= j < |s| ==> Key(s[j], members) > Key(x, members)
    ensures Firsts(r, members) && Sorted(r, members)
  {
    hide Key;
    forall i | 0 <= i < |r| ensures r[i] in members && members[r[i]] != [] {
      if i < p { assert r[i] == s[i]; }
      if i > p { assert r[i] == s[i - 1]; }
    }
    forall i, j | 0 <= i < j < |r| ensures Key(r[i], members) <= Key(r[j], members) {
      if i < p {
        assert r[i] == s[i] && Key(s[i], members) <= Key(s[p - 1], members);
      }
      if j < p { assert r[j] == s[j]; }
      if i > p { assert r[i] == s[i - 1]; }
      if j > p { assert r[j] == s[j - 1]; }
    }
  }

  /** Keys with strictly ascending first layers are their own only sorted permutation. */
  lemma {:induction false} SortedIsUnique(r: seq<Structure>, keys: seq<Structure>, members: map<Structure, seq<Member>>)
    requires Firsts(r, members) && Sorted(r, members) && multiset(r) == multiset(keys)
    requires Firsts(keys, members) && StrictlySorted(keys, members)
    ensures r == keys
    decreases |keys|
  {
    hide Key;
    SameLength(r, keys);
    if keys != [] {
      var n := |keys| - 1;
      var i := Position(r, keys[n], keys);
      var j := Position(keys, r[n], r);
      assert Key(r[i], members) <= Key(r[n], members);
      assert r[n] == keys[n];
      DropLast(r, keys);
      SortedIsUnique(r[..n], keys[..n], members);
      assert r == r[..n] + [r[n]] && keys == keys[..n] + [keys[n]];
    }
  }

  lemma DropLast<T>(s: seq<T>, t: seq<T>)
    requires multiset(s) == multiset(t) && |s| == |t| > 0 && s[|s| - 1] == t[|t| - 1]
    ensures multiset(s[..|s| - 1]) == multiset(t[..|t| - 1])
  {
    var n := |s| - 1;
    assert s == s[..n] + [s[n]] && t == t[..n] + [t[n]];
    assert multiset(s[..n]) == multiset(s) - multiset{s[n]};
    assert multiset(t[..n]) == multiset(t) - multiset{t[n]};
  }

  lemma SameLength<T>(s: seq<T>, t: seq<T>)
    requires multiset(s) == multiset(t)
    ensures |s| == |t|
  {
    assert |multiset(s)| == |s| && |multiset(t)| == |t|;
  }

  lemma Position<T>(s: seq<T>, x: T, t: seq<T>) returns (i: nat)
    requires multiset(s) == multiset(t) && x in t
    ensures i < |s| && s[i] == x
  {
    assert x in multiset(t);
    assert x in s;
    i :| 0 <= i < |s| && s[i] == x;
  }

  lemma OrderIsSorted(order: seq<Structure>, members: map<Structure, seq<Member>>, layers: seq<Layer>)
    requires Collected(order, members, layers)
    ensures Firsts(order, members) && StrictlySorted(order, members)
  {
    hide Structures, MembersOf;
    forall i | 0 <= i < |order| ensures order[i] in members && members[order[i]] != [] {
      AllOccur(layers, i);
    }
    forall i, j | 0 <= i < j < |order| ensures Key(order[i], members) < Key(order[j], members) {
      StructuresAscend(layers, i, j);
    }
  }

  class Manager {
    var groups: seq<Group>

    constructor ()
      ensures groups == []
    {
      groups := [];
    }

    /** `build_kv_layer_groups`: nothing happens when groups exist or there are no caches. */
    method Build(caches: seq<Layer>)
      modifies this
      ensures old(groups) != [] ==> groups == old(groups)
      ensures old(groups) == [] ==> groups == GroupsOf(caches) && Partition(groups, caches)
    {
      GroupsPartition(caches);
      if groups != [] || caches == [] {
        return;
      }
      var order, members := Collect(caches);
      OrderIsSorted(order, members, caches);
      var keys := SortByFirstIndex(order, members);
      SortedIsUnique(keys, order, members);
      groups := Assemble(keys, members, caches);
    }

    /** `get_group_by_layer_idx`; in a partition, the group of that layer. */
    method GetGroupByLayerIdx(idx: nat, ghost layers: seq<Layer>) returns (r: Option<Group>)
      ensures r.Some? ==> idx in r.value.indices && r.value in groups
      ensures r.None? ==> forall g :: 0 <= g < |groups| ==> idx !in groups[g].indices
      ensures Partition(groups, layers) ==> (r.Some? <==> idx < |layers|)
    {
      for g := 0 to |groups|
        invariant forall h :: 0 <= h < g ==> idx !in groups[h].indices
      {
        if idx in groups[g].indices {
          assert Partition(groups, layers) ==> Homogeneous(groups[g], layers);
          return Some(groups[g]);
        }
      }
      assert !Covered(groups, idx);
      r := None;
    }

    /** `get_group_by_layer_name`; in a partition, the group of the one layer so named. */
    method GetGroupByLayerName(name: string, ghost layers: seq<Layer>) returns (r: Option<Group>)
      ensures r.Some? ==> name in r.value.names && r.value in groups
      ensures r.None? ==> forall g :: 0 <= g < |groups| ==> name !in groups[g].names
      ensures Partition(groups, layers) && DistinctNames(layers) ==>
                forall k :: 0 <= k < |layers| && layers[k].name == name ==> r.Some? && k in r.value.indices
    {
      for g := 0 to |groups|
        invariant forall h :: 0 <= h < g ==> name !in groups[h].names
      {
        if name in groups[g].names {
          if Partition(groups, layers) && DistinctNames(layers) {
            NamedLayer(groups, layers, name, g);
          }
          return Some(groups[g]);
        }
      }
      if Partition(groups, layers) {
        NameMissing(groups, layers, name);
      }
      r := None;
    }

    /** `get_layer_shape` and `get_layer_dtype`: in a partition each layer's own, None beyond. */
    method GetLayerStructure(idx: nat, ghost layers: seq<Layer>) returns (r: Option<Structure>)
      ensures Partition(groups, layers) ==> r == if idx < |layers| then Some(layers[idx].structure) else None
    {
      var group := GetGroupByLayerIdx(idx, layers);
      if group.None? {
        return None;
      }
      ghost var g :| 0 <= g < |groups| && groups[g] == group.value;
      assert Partition(groups, layers) ==> Homogeneous(groups[g], layers);
      r := Some(group.value.structure);
    }
  }

  /** The second loop. */
  method Assemble(keys: seq<Structure>, members: map<Structure, seq<Member>>, ghost layers: seq<Layer>)
    returns (built: seq<Group>)
    requires Collected(keys, members, layers)
    ensures built == GroupsOf(layers)
  {
    hide Structures, MembersOf, GroupOf;
    built := [];
    for i := 0 to |keys|
      invariant built == GroupsOf(layers)[..i]
    {
      built := built + [GroupOf(members[keys[i]], keys[i])];
    }
  }

  /** The caches come from a dictionary keyed by name. */
  ghost predicate DistinctNames(layers: seq<Layer>) {
    forall j, k :: 0 <= j < k < |layers| ==> layers[j].name != layers[k].name
  }

  lemma NamedLayer(groups: seq<Group>, layers: seq<Layer>, name: string, g: nat)
    requires Partition(groups, layers) && DistinctNames(layers) && g < |groups| && name in groups[g].names
    ensures forall k :: 0 <= k < |layers| && layers[k].name == name ==> k in groups[g].indices
  {
    assert Homogeneous(groups[g], layers);
    var i :| 0 <= i < |groups[g].names| && groups[g].names[i] == name;
    assert layers[groups[g].indices[i]].name == name;
  }

  lemma NameMissing(groups: seq<Group>, layers: seq<Layer>, name: string)
    requires Partition(groups, layers) && forall g :: 0 <= g < |groups| ==> name !in groups[g].names
    ensures forall k :: 0 <= k < |layers| ==> layers[k].name != name
  {
    forall k | 0 <= k < |layers| ensures layers[k].name != name {
      assert Covered(groups, k);
      var g :| 0 <= g < |groups| && k in groups[g].indices;
      assert Homogeneous(groups[g], layers);
      var i :| 0 <= i < |groups[g].indices| && groups[g].indices[i] == k;
      assert groups[g].names[i] in groups[g].names;
    }
  }

  // ----- each group's pointers, as the connector hands them to the kernel -----

  /** The pointers whose position is in the group come out in the group's own layer order. */
  method SelectPointers(group: Group, pointers: seq<nat>, ghost layers: seq<Layer>) returns (r: seq<nat>)
    requires Homogeneous(group, layers) && |pointers| == |layers|
    ensures |r| == |group.names| == |group.indices|
    ensures forall k :: 0 <= k < |r| ==> r[k] == pointers[group.indices[k]]
  {
    r := [];
    for i := 0 to |pointers|
      invariant |r| <= |group.indices|
      invariant forall k :: 0 <= k < |r| ==> group.indices[k] < i && r[k] == pointers[group.indices[k]]
      invariant forall k :: |r| <= k < |group.indices| ==> group.indices[k] >= i
    {
      if i in group.indices {
        ghost var k :| 0 <= k < |group.indices| && group.indices[k] == i;
        assert group.indices[|r|] <= group.indices[k];
        r := r + [pointers[i]];
      }
    }
  }

  /** Layer idx is entry i of group g. */
  predicate At(groups: seq<Group>, g: int, i: int, idx: nat) {
    0 <= g < |groups| && 0 <= i < |groups[g].indices| && groups[g].indices[i] == idx
  }

  /** The layer has one place in the groups, and its pointer is in that place of the lists. */
  ghost predicate OnlyPlace(groups: seq<Group>, lists: seq<seq<nat>>, idx: nat, pointer: nat) {
    exists g, i :: At(groups, g, i, idx)
      && g < |lists| && i < |lists[g]| && lists[g][i] == pointer
      && forall h, j :: At(groups, h, j, idx) ==> h == g && j == i
  }

  lemma LayerPlace(groups: seq<Group>, layers: seq<Layer>, idx: nat) returns (g: nat, i: nat)
    requires Partition(groups, layers) && idx < |layers|
    ensures At(groups, g, i, idx) && forall h, j :: At(groups, h, j, idx) ==> h == g && j == i
  {
    assert Covered(groups, idx);
    g :| 0 <= g < |groups| && idx in groups[g].indices;
    i :| 0 <= i < |groups[g].indices| && groups[g].indices[i] == idx;
    forall h, j | At(groups, h, j, idx) ensures h == g && j == i {
      assert layers[idx].structure == groups[g].structure && layers[idx].structure == groups[h].structure;
    }
  }

  /** `_initialize_kv_cache_pointers`: every layer's pointer is in exactly one group's list. */
  method InitPointers(groups: seq<Group>, pointers: seq<nat>, ghost layers: seq<Layer>) returns (r: seq<seq<nat>>)
    requires Partition(groups, layers) && |pointers| == |layers|
    ensures |r| == |groups|
    ensures forall g :: 0 <= g < |r| ==> |r[g]| == |groups[g].indices|
    ensures forall g, k :: 0 <= g < |r| && 0 <= k < |r[g]| ==>
              r[g][k] == pointers[groups[g].indices[k]]
    ensures forall idx :: 0 <= idx < |layers| ==> OnlyPlace(groups, r, idx, pointers[idx])
  {
    r := [];
    for g := 0 to |groups|
      invariant |r| == g
      invariant forall h :: 0 <= h < g ==> |r[h]| == |groups[h].indices|
      invariant forall h, k :: 0 <= h < g && 0 <= k < |r[h]| ==> r[h][k] == pointers[groups[h].indices[k]]
    {
      var selected := SelectPointers(groups[g], pointers, layers);
      r := r + [selected];
    }
    forall idx | 0 <= idx < |layers| ensures OnlyPlace(groups, r, idx, pointers[idx]) {
      var g, i := LayerPlace(groups, layers, idx);
      assert At(groups, g, i, idx) && r[g][i] == pointers[idx];
    }
  }

  // ----- shapes and dtypes of the metadata -----

  /** `hidden_dim_size`; None is the ValueError. */
  function HiddenDim(shape: seq<nat>): Option<nat> {
    if |shape| == 5 then Some(shape[3] * shape[4])
    else if |shape| == 3 then Some(shape[2])
    else None
  }

  /** The part of the metadata that shapes depend on. `layers` etc. are the fields of
      `kv_shape`, used only while no groups have been built. */
  class Metadata {
    const useMla: bool
    const layers: nat
    const planes: nat
    const heads: nat
    const headSize: nat
    const dtype: nat
    const manager: Manager

    constructor (useMla: bool, layers: nat, planes: nat, heads: nat, headSize: nat, dtype: nat, manager: Manager)
      ensures this.useMla == useMla && this.layers == layers && this.planes == planes && this.heads == heads
      ensures this.headSize == headSize && this.dtype == dtype && this.manager == manager
    {
      this.useMla, this.layers, this.planes := useMla, layers, planes;
      this.heads, this.headSize, this.dtype, this.manager := heads, headSize, dtype, manager;
    }

    /** `get_shapes`; None when some group's shape has no hidden size. */
    method GetShapes(numTokens: nat) returns (shapes: Option<seq<seq<nat>>>)
      ensures manager.groups == [] ==> shapes == Some([[planes, layers, numTokens, heads * headSize]])
      ensures manager.groups != [] && shapes.None? ==>
                exists g :: 0 <= g < |manager.groups| && |manager.groups[g].structure.shape| !in {3, 5}
      ensures manager.groups != [] && shapes.Some? ==>
                forall g :: 0 <= g < |manager.groups| ==> |manager.groups[g].structure.shape| in {3, 5}
      ensures manager.groups != [] && shapes.Some? ==>
                ShapesOf(shapes.value, manager.groups, numTokens, if useMla then 1 else 2)
    {
      if manager.groups == [] {
        return Some([[planes, layers, numTokens, heads * headSize]]);
      }
      var kvSize := if useMla then 1 else 2;
      var r: seq<seq<nat>> := [];
      for g := 0 to |manager.groups|
        invariant ShapesOf(r, manager.groups[..g], numTokens, kvSize)
      {
        var hidden := HiddenDim(manager.groups[g].structure.shape);
        if hidden.None? {
          return None;
        }
        r := r + [[kvSize, |manager.groups[g].names|, numTokens, hidden.value]];
      }
      assert manager.groups[..|manager.groups|] == manager.groups;
      forall g | 0 <= g < |manager.groups| ensures |manager.groups[g].structure.shape| in {3, 5} {
        assert |r[g]| == 4;
      }
      shapes := Some(r);
    }

    /** `get_dtypes`: one per shape, in the same order. */
    method GetDtypes() returns (dtypes: seq<nat>)
      ensures manager.groups == [] ==> dtypes == [dtype]
      ensures manager.groups != [] ==> |dtypes| == |manager.groups|
      ensures manager.groups != [] ==>
                forall g :: 0 <= g < |dtypes| ==> dtypes[g] == manager.groups[g].structure.dtype
    {
      if manager.groups == [] {
        return [dtype];
      }
      dtypes := [];
      for g := 0 to |manager.groups|
        invariant |dtypes| == g && forall h :: 0 <= h < g ==> dtypes[h] == manager.groups[h].structure.dtype
      {
        dtypes := dtypes + [manager.groups[g].structure.dtype];
      }
    }
  }

  /** Heads times head size of a five-dimensional layer, the last dimension of a
      three-dimensional one. */
  predicate HasHidden(shape: seq<nat>, hidden: nat) {
    (|shape| == 5 && hidden == shape[3] * shape[4]) || (|shape| == 3 && hidden == shape[2])
  }

  /** Group by group: planes, number of layers, tokens, hidden size. */
  ghost predicate ShapesOf(shapes: seq<seq<nat>>, groups: seq<Group>, numTokens: nat, kvSize: nat) {
    && |shapes| == |groups|
    && forall g :: 0 <= g < |shapes| ==>
         && |shapes[g]| == 4 && HasHidden(groups[g].structure.shape, shapes[g][3])
         && shapes[g][0] == kvSize && shapes[g][1] == |groups[g].names| && shapes[g][2] == numTokens
  }

  // ----- total size -----

  function Elements(shape: seq<nat>): nat {
    if shape == [] then 1 else shape[0] * Elements(shape[1..])
  }

  function SumElements(shapes: seq<seq<nat>>): nat {
    if shapes == [] then 0 else SumElements(shapes[..|shapes| - 1]) + Elements(shapes[|shapes| - 1])
  }

  /** Elements one layer needs for the tokens. */
  function LayerElements(s: Structure, numTokens: nat, kvSize: nat): nat {
    if |s.shape| == 5 then kvSize * numTokens * (s.shape[3] * s.shape[4])
    else if |s.shape| == 3 then kvSize * numTokens * s.shape[2]
    else 0
  }

  function SumLayers(layers: seq<Layer>, numTokens: nat, kvSize: nat): nat {
    if layers == [] then 0
    else
      var n := |layers| - 1;
      SumLayers(layers[..n], numTokens, kvSize) + LayerElements(layers[n].structure, numTokens, kvSize)
  }

  /** Layers counted structure by structure. */
  function SumStructures(ss: seq<Structure>, layers: seq<Layer>, numTokens: nat, kvSize: nat): nat {
    if ss == [] then 0
    else
      var n := |ss| - 1;
      SumStructures(ss[..n], layers, numTokens, kvSize)
          + |MembersOf(layers, ss[n])| * LayerElements(ss[n], numTokens, kvSize)
  }

  lemma OneMoreMember(layers: seq<Layer>, x: Layer, s: Structure)
    ensures |MembersOf(layers + [x], s)| == |MembersOf(layers, s)| + if x.structure == s then 1 else 0
  {
    assert (layers + [x])[..|layers|] == layers;
  }

  /** One more layer adds its share to its own structure and to no other. */
  lemma {:induction false} OneMoreLayer(ss: seq<Structure>, layers: seq<Layer>, x: Layer, numTokens: nat, kvSize: nat)
    requires forall i, j :: 0 <= i < j < |ss| ==> ss[i] != ss[j]
    ensures SumStructures(ss, layers + [x], numTokens, kvSize)
         == SumStructures(ss, layers, numTokens, kvSize)
            + if x.structure in ss then LayerElements(x.structure, numTokens, kvSize) else 0
    decreases |ss|
  {
    hide LayerElements, MembersOf;
    if ss != [] {
      var n := |ss| - 1;
      OneMoreLayer(ss[..n], layers, x, numTokens, kvSize);
      OneMoreMember(layers, x, ss[n]);
      var count, e := |MembersOf(layers, ss[n])|, LayerElements(ss[n], numTokens, kvSize);
      assert (count + 1) * e == count * e + e;
      assert ss == ss[..n] + [ss[n]];
    }
  }

  lemma {:induction false} StructuresCoverLayers(layers: seq<Layer>, numTokens: nat, kvSize: nat)
    ensures SumStructures(Structures(layers), layers, numTokens, kvSize) == SumLayers(layers, numTokens, kvSize)
    decreases |layers|
  {
    hide LayerElements, MembersOf;
    if layers != [] {
      var n := |layers| - 1;
      var front, x := layers[..n], layers[n];
      StructuresCoverLayers(front, numTokens, kvSize);
      forall i, j | 0 <= i < j < |Structures(front)| ensures Structures(front)[i] != Structures(front)[j] {
        StructuresDiffer(front, i, j);
      }
      OneMoreLayer(Structures(front), front, x, numTokens, kvSize);
      assert layers == front + [x];
      if x.structure !in Structures(front) {
        StructureOccursIff(front, x.structure);
        OneMoreMember(front, x, x.structure);
        NewStructure(Structures(front), layers, x.structure, numTokens, kvSize);
      }
    }
  }

  lemma NewStructure(before: seq<Structure>, layers: seq<Layer>, s: Structure, numTokens: nat, kvSize: nat)
    requires |MembersOf(layers, s)| == 1
    ensures SumStructures(before + [s], layers, numTokens, kvSize)
         == SumStructures(before, layers, numTokens, kvSize) + LayerElements(s, numTokens, kvSize)
  {
    assert (before + [s])[..|before|] == before;
  }

  lemma {:induction false} ShapesOfGroups(ss: seq<Structure>, layers: seq<Layer>, groups: seq<Group>,
                                          shapes: seq<seq<nat>>, numTokens: nat, kvSize: nat)
    requires |groups| == |ss| && forall i :: 0 <= i < |ss| ==> groups[i] == GroupOf(MembersOf(layers, ss[i]), ss[i])
    requires ShapesOf(shapes, groups, numTokens, kvSize)
    ensures SumElements(shapes) == SumStructures(ss, layers, numTokens, kvSize)
    decreases |ss|
  {
    hide MembersOf, Elements;
    if ss != [] {
      var n := |ss| - 1;
      ShapesOfGroups(ss[..n], layers, groups[..n], shapes[..n], numTokens, kvSize);
      assert |shapes[n]| == 4 && groups[n].structure == ss[n];
      assert shapes[n] == [kvSize, |MembersOf(layers, ss[n])|, numTokens, shapes[n][3]];
      FourElements(kvSize, |MembersOf(layers, ss[n])|, numTokens, shapes[n][3]);
    }
  }

  lemma FourElements(a: nat, b: nat, c: nat, d: nat)
    ensures Elements([a, b, c, d]) == b * (a * c * d)
  {
    assert [a, b, c, d][1..] == [b, c, d] && [b, c, d][1..] == [c, d] && [c, d][1..] == [d] && [d][1..] == [];
    assert Elements([d]) == d * Elements([]);
    assert Elements([c, d]) == c * d;
    assert Elements([b, c, d]) == b * (c * d);
    Regroup(a, b, c, d);
  }

  lemma Regroup(a: nat, b: nat, c: nat, d: nat)
    ensures a * (b * (c * d)) == b * (a * c * d)
  {
    assert a * (b * (c * d)) == (a * b) * (c * d);
    assert b * (a * c * d) == (b * a) * (c * d) by {
      assert a * c * d == a * (c * d);
    }
  }

  /** The shapes of the groups hold exactly the elements the layers need one by one. */
  lemma ShapesConserveElements(layers: seq<Layer>, shapes: seq<seq<nat>>, numTokens: nat, kvSize: nat)
    requires ShapesOf(shapes, GroupsOf(layers), numTokens, kvSize)
    ensures SumElements(shapes) == SumLayers(layers, numTokens, kvSize)
  {
    ShapesOfGroups(Structures(layers), layers, GroupsOf(layers), shapes, numTokens, kvSize);
    StructuresCoverLayers(layers, numTokens, kvSize);
  }
}
