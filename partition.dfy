/** The parameter partitioner of `Trainer._get_optimizer`: keep the
    parameters that require a gradient, split them by tensor rank into a
    weight-decayed and a non-decayed group, and count their elements. */
module ParamPartition {

  /** A named parameter tensor, reduced to what the partitioner reads. */
  datatype Param = Param(name: string, dim: nat, numel: nat, requiresGrad: bool)

  /** One optimizer group as `_get_optimizer` builds it: its tensors and its
      weight decay. */
  datatype GroupSpec = GroupSpec(params: seq<Param>, weightDecay: real)

  /** What the partitioner reports: both lists and their element counts. */
  datatype Partition = Partition(
    decay: seq<Param>,
    nodecay: seq<Param>,
    numDecay: nat,
    numNodecay: nat)

  function Names(s: seq<Param>): set<string> {
    set p | p in s :: p.name
  }

  /** No two entries share a name: the invariant of a Python dict's items. */
  predicate UniqueNames(s: seq<Param>) {
    forall i, j :: 0 <= i < j < |s| ==> s[i].name != s[j].name
  }

  // ---------------------------------------------------------------------------
  // The dict comprehension `{pn: p for pn, p in ...}`, as an insertion-ordered
  // list of entries.

  /** `d[p.name] = p`: replace the entry with that key in place, or append. */
  function Put(d: seq<Param>, p: Param): (r: seq<Param>)
    ensures p in r
    ensures |r| == |d| || r == d + [p]
  {
    if d == [] then [p]
    else if d[0].name == p.name then [p] + d[1..]
    else [d[0]] + Put(d[1..], p)
  }

  lemma NamesCons(x: Param, s: seq<Param>)
    ensures Names([x] + s) == {x.name} + Names(s)
  {
    assert forall q :: q in [x] + s <==> q == x || q in s;
  }

  /** Putting an entry adds its key and no other. */
  lemma {:induction false} PutNames(d: seq<Param>, p: Param)
    ensures Names(Put(d, p)) == Names(d) + {p.name}
  {
    if d == [] {
      assert Names([p]) == {p.name} by { NamesCons(p, []); }
    } else {
      assert d == [d[0]] + d[1..];
      NamesCons(d[0], d[1..]);
      if d[0].name == p.name {
        NamesCons(p, d[1..]);
      } else {
        PutNames(d[1..], p);
        NamesCons(d[0], Put(d[1..], p));
      }
    }
  }

  lemma UniqueCons(x: Param, s: seq<Param>)
    requires UniqueNames(s) && x.name !in Names(s)
    ensures UniqueNames([x] + s)
  {
    var r := [x] + s;
    forall i, j | 0 <= i < j < |r| ensures r[i].name != r[j].name {
      assert r[j] == s[j - 1];
      if i == 0 {
        assert s[j - 1] in s;
      } else {
        assert r[i] == s[i - 1];
      }
    }
  }

  /** Putting an entry keeps the keys unique. */
  lemma {:induction false} PutKeepsUnique(d: seq<Param>, p: Param)
    requires UniqueNames(d)
    ensures UniqueNames(Put(d, p))
  {
    if d != [] {
      var x, tail := d[0], d[1..];
      assert UniqueNames(tail);
      assert x.name !in Names(tail) by {
        forall q | q in tail ensures q.name != x.name {
          var k :| 0 <= k < |tail| && tail[k] == q;
          assert d[k + 1] == q;
        }
      }
      if x.name == p.name {
        UniqueCons(p, tail);
      } else {
        PutKeepsUnique(tail, p);
        PutNames(tail, p);
        UniqueCons(x, Put(tail, p));
      }
    }
  }

  /** A new key is appended at the end. */
  lemma {:induction false} PutNew(d: seq<Param>, p: Param)
    requires p.name !in Names(d)
    ensures Put(d, p) == d + [p]
  {
    if d != [] {
      assert d[0] in d;
      assert p.name !in Names(d[1..]);
      PutNew(d[1..], p);
      assert d == [d[0]] + d[1..];
    }
  }

  /** Re-inserting an existing key overwrites the one entry holding that key,
      in its slot, and leaves every other entry where it was. */
  lemma {:induction false} PutExisting(d: seq<Param>, p: Param)
    requires UniqueNames(d) && p.name in Names(d)
    ensures |Put(d, p)| == |d|
    ensures forall i :: 0 <= i < |d| ==> Put(d, p)[i] == (if d[i].name == p.name then p else d[i])
  {
    var x, tail := d[0], d[1..];
    assert d == [x] + tail;
    NamesCons(x, tail);
    if x.name == p.name {
      forall i | 1 <= i < |d| ensures d[i].name != p.name {
        assert d[0].name != d[i].name;
      }
    } else {
      assert UniqueNames(tail);
      PutExisting(tail, p);
    }
  }

  /** The dict built by inserting the pairs of `s` from left to right. */
  function BuildDict(s: seq<Param>): (d: seq<Param>)
    ensures UniqueNames(d)
    ensures Names(d) == Names(s)
  {
    if s == [] then []
    else
      var init := s[..|s| - 1];
      var last := s[|s| - 1];
      assert s == init + [last];
      assert Names(s) == Names(init) + {last.name} by {
        assert forall q :: q in s <==> q in init || q == last;
      }
      PutNames(BuildDict(init), last);
      PutKeepsUnique(BuildDict(init), last);
      Put(BuildDict(init), last)
  }

  /** When no name repeats, the comprehension keeps every pair in order. */
  lemma {:induction false} BuildDictOfUnique(s: seq<Param>)
    requires UniqueNames(s)
    ensures BuildDict(s) == s
  {
    if s != [] {
      var init := s[..|s| - 1];
      assert UniqueNames(init);
      BuildDictOfUnique(init);
      assert s[|s| - 1].name !in Names(init);
      PutNew(init, s[|s| - 1]);
      assert init + [s[|s| - 1]] == s;
    }
  }

  // ---------------------------------------------------------------------------
  // Order-preserving filters (the `if` of a list comprehension)

  function Filter(s: seq<Param>, keep: Param -> bool): (r: seq<Param>)
    ensures |r| <= |s|
  {
    if s == [] then []
    else (if keep(s[0]) then [s[0]] else []) + Filter(s[1..], keep)
  }

  predicate RequiresGrad(p: Param) { p.requiresGrad }

  /** The partition key: matrices and embeddings (rank >= 2) decay. */
  predicate IsDecayed(p: Param) { p.dim >= 2 }

  predicate IsNotDecayed(p: Param) { p.dim < 2 }

  /** Lines 240-241: the trainable parameters, in the model's order. */
  function TrainableParams(named: seq<Param>): seq<Param> {
    BuildDict(Filter(BuildDict(named), RequiresGrad))
  }

  function SumNumel(s: seq<Param>): nat {
    if s == [] then 0 else s[0].numel + SumNumel(s[1..])
  }

  /** Lines 245-246 and 253-254. */
  function PartitionParams(named: seq<Param>): Partition {
    var trainable := TrainableParams(named);
    var decay := Filter(trainable, IsDecayed);
    var nodecay := Filter(trainable, IsNotDecayed);
    Partition(decay, nodecay, SumNumel(decay), SumNumel(nodecay))
  }

  /** Lines 248-251: the decay group first, then the group without decay. */
  function OptimGroups(named: seq<Param>, weightDecay: real): seq<GroupSpec> {
    var part := PartitionParams(named);
    [GroupSpec(part.decay, weightDecay), GroupSpec(part.nodecay, 0.0)]
  }

  // ---------------------------------------------------------------------------
  // Properties

  /** `s` is `a` and `b` merged, each keeping its order: every element of `s`
      lands in exactly one of them, once, in the order of `s`. */
  predicate Interleaving(s: seq<Param>, a: seq<Param>, b: seq<Param>)
    decreases |s|
  {
    if s == [] then a == [] && b == []
    else
      || (a != [] && a[0] == s[0] && Interleaving(s[1..], a[1..], b))
      || (b != [] && b[0] == s[0] && Interleaving(s[1..], a, b[1..]))
  }

  lemma {:induction false} FilterMembership(s: seq<Param>, keep: Param -> bool, p: Param)
    ensures p in Filter(s, keep) <==> p in s && keep(p)
  {
    if s != [] {
      FilterMembership(s[1..], keep, p);
      assert p in s <==> p == s[0] || p in s[1..];
    }
  }

  lemma {:induction false} FilterKeepsUnique(s: seq<Param>, keep: Param -> bool)
    requires UniqueNames(s)
    ensures UniqueNames(Filter(s, keep))
  {
    if s != [] {
      assert UniqueNames(s[1..]);
      FilterKeepsUnique(s[1..], keep);
      var rest := Filter(s[1..], keep);
      forall q | q in rest ensures q.name != s[0].name {
        FilterMembership(s[1..], keep, q);
      }
      var r := Filter(s, keep);
      forall i, j | 0 <= i < j < |r| ensures r[i].name != r[j].name {
        if keep(s[0]) && i == 0 {
          assert r[j] == rest[j - 1];
          assert r[j] in rest;
        }
      }
    }
  }

  /** Splitting by a key and by its negation interleaves back to the input. */
  lemma {:induction false} FilterSplitInterleaves(s: seq<Param>, keep: Param -> bool, drop: Param -> bool)
    requires forall p :: drop(p) <==> !keep(p)
    ensures Interleaving(s, Filter(s, keep), Filter(s, drop))
  {
    if s != [] {
      FilterSplitInterleaves(s[1..], keep, drop);
      var a, b := Filter(s, keep), Filter(s, drop);
      if keep(s[0]) {
        assert a[0] == s[0] && a[1..] == Filter(s[1..], keep) && b == Filter(s[1..], drop);
      } else {
        assert b[0] == s[0] && b[1..] == Filter(s[1..], drop) && a == Filter(s[1..], keep);
      }
    }
  }

  lemma {:induction false} InterleavingSums(s: seq<Param>, a: seq<Param>, b: seq<Param>)
    requires Interleaving(s, a, b)
    ensures SumNumel(a) + SumNumel(b) == SumNumel(s)
    ensures |a| + |b| == |s|
    ensures multiset(a) + multiset(b) == multiset(s)
    decreases |s|
  {
    if s != [] {
      if a != [] && a[0] == s[0] && Interleaving(s[1..], a[1..], b) {
        InterleavingSums(s[1..], a[1..], b);
        assert a == [a[0]] + a[1..];
      } else {
        InterleavingSums(s[1..], a, b[1..]);
        assert b == [b[0]] + b[1..];
      }
      assert s == [s[0]] + s[1..];
    }
  }

  /** The trainable set is the entries of the model that require a gradient,
      each once, in the model's order (the model's names are unique). */
  lemma TrainableIsFilter(named: seq<Param>)
    requires UniqueNames(named)
    ensures TrainableParams(named) == Filter(named, RequiresGrad)
  {
    BuildDictOfUnique(named);
    FilterKeepsUnique(named, RequiresGrad);
    BuildDictOfUnique(Filter(named, RequiresGrad));
  }

  /** The partition of `_get_optimizer`: the two lists together are the
      trainable parameters, each exactly once and in the original order; a
      parameter is decayed iff its rank is at least 2; the element counts add
      up to the trainable total. */
  lemma PartitionCorrect(named: seq<Param>)
    ensures var part, trainable := PartitionParams(named), TrainableParams(named);
      && Interleaving(trainable, part.decay, part.nodecay)
      && multiset(part.decay) + multiset(part.nodecay) == multiset(trainable)
      && (forall p :: p in part.decay <==> p in trainable && p.dim >= 2)
      && (forall p :: p in part.nodecay <==> p in trainable && p.dim < 2)
      && part.numDecay + part.numNodecay == SumNumel(trainable)
  {
    var part, trainable := PartitionParams(named), TrainableParams(named);
    FilterSplitInterleaves(trainable, IsDecayed, IsNotDecayed);
    InterleavingSums(trainable, part.decay, part.nodecay);
    forall p ensures p in part.decay <==> p in trainable && p.dim >= 2 {
      FilterMembership(trainable, IsDecayed, p);
    }
    forall p ensures p in part.nodecay <==> p in trainable && p.dim < 2 {
      FilterMembership(trainable, IsNotDecayed, p);
    }
  }

  /** A parameter reaches a group iff it requires a gradient (for a model with
      unique names). */
  lemma TrainableMembership(named: seq<Param>, p: Param)
    requires UniqueNames(named)
    ensures p in TrainableParams(named) <==> p in named && p.requiresGrad
  {
    TrainableIsFilter(named);
    FilterMembership(named, RequiresGrad, p);
  }

  /** The two groups: decayed tensors with the given weight decay, the rest
      with none. */
  lemma OptimGroupsShape(named: seq<Param>, weightDecay: real)
    ensures var groups := OptimGroups(named, weightDecay);
      && |groups| == 2
      && groups[0].weightDecay == weightDecay && groups[1].weightDecay == 0.0
      && (forall p :: p in groups[0].params <==> p in TrainableParams(named) && p.dim >= 2)
      && (forall p :: p in groups[1].params <==> p in TrainableParams(named) && p.dim < 2)
  {
    PartitionCorrect(named);
  }
}
