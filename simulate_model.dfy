/** Simulator models: what a model declares (its parameter names, its type
    tag, the observables it can compute), how a composite model lays its
    submodels' parameters out in one vector, and how a parameter vector is
    drawn from the model's distributions. */
module SimulateModels {
  import opened Errors
  import opened RandomDistributions

  /** `SimulateModelType`: the type tag a model reports. A plain model
      reports `SimulateModel`, a transport channel `Channel`, and a
      `SimulateSubmodel<T>` the class `T`. */
  datatype TypeTag = SimulateModelTag | ChannelTag | ClassTag(name: string)

  /** `ObservableIndex`: the observable classes, by name. */
  datatype ObservableKey =
    | AppliedBias
    | ElectricCurrent
    | StaticConductance
    | ZeroBiasConductance
    | DifferentialConductance
    | ObservableClass(name: string)

  /** `ObservableFunction`: an observable computed from a parameter vector. */
  type Evaluator = seq<real> -> real

  /** What a model registers for an observable: the model's own member
      function (`Observable<T>`), or a binary operation combining the
      submodels' values (`CompositeObservable<T>`). */
  datatype Registration =
    | Direct(eval: Evaluator)
    | Combined(oper: (real, real) -> real)

  /** A simulator model. `submodelType` is `Some(T)` exactly for a composite
      model that takes submodels of type `T` (`UseSubmodelType<T>`); `dists`
      holds one distribution handle per own parameter, `None` for a null
      pointer. */
  datatype Model = Model(
    names: seq<string>,
    modelType: TypeTag,
    submodelType: Option<TypeTag>,
    observables: map<ObservableKey, Registration>,
    dists: seq<Option<Distribution>>,
    submodels: seq<Model>)

  predicate IsComposite(m: Model) {
    m.submodelType.Some?
  }

  /** A freshly constructed model of a class deriving `SimulateModel`
      directly: no distributions and no submodels yet. */
  function PlainModel(names: seq<string>, observables: map<ObservableKey, Registration>): (m: Model)
    ensures GetModelType(m) == SimulateModelTag && !IsComposite(m)
  {
    Model(names, SimulateModelTag, None, observables, [], [])
  }

  /** A freshly constructed `SimulateSubmodel<T>`, or a channel. */
  function SubmodelModel(tag: TypeTag, names: seq<string>,
                         observables: map<ObservableKey, Registration>): (m: Model)
    ensures GetModelType(m) == tag && !IsComposite(m)
  {
    Model(names, tag, None, observables, [], [])
  }

  /** A freshly constructed `UseSubmodelType<T>` composite. */
  function CompositeModel(submodelTag: TypeTag, names: seq<string>,
                          observables: map<ObservableKey, Registration>): (m: Model)
    ensures IsComposite(m) && m.submodelType == Some(submodelTag)
    ensures GetModelType(m) == SimulateModelTag && m.submodels == []
  {
    Model(names, SimulateModelTag, Some(submodelTag), observables, [], [])
  }

  // ---------------------------------------------------------------------
  // Type tags and parameter counts
  // ---------------------------------------------------------------------

  /** `getModelType`. */
  function GetModelType(m: Model): TypeTag {
    m.modelType
  }

  /** `get_num_parameters`: the length of the name list for a plain model;
      for a composite, its own names plus every submodel's count. */
  function NumParameters(m: Model): nat
    decreases m
  {
    if IsComposite(m) then |m.names| + SumTo(Counts(m), |m.submodels|) else |m.names|
  }

  /** The parameter count of each submodel, in list order. */
  function Counts(m: Model): (c: seq<nat>)
    decreases m, 0
    ensures |c| == |m.submodels|
  {
    seq(|m.submodels|, i requires 0 <= i < |m.submodels| => NumParameters(m.submodels[i]))
  }

  /** `get_num_composite_parameters`: the composite's own names. */
  function NumCompositeParameters(m: Model): (n: nat)
    requires IsComposite(m)
    ensures NumParameters(m) == n + SumTo(Counts(m), |m.submodels|)
  {
    |m.names|
  }

  /** `counts[0] + ... + counts[i-1]`. */
  function SumTo(counts: seq<nat>, i: nat): nat
    requires i <= |counts|
  {
    if i == 0 then 0 else SumTo(counts, i - 1) + counts[i - 1]
  }

  lemma {:induction false} SumToMono(counts: seq<nat>, i: nat, j: nat)
    requires i <= j <= |counts|
    ensures SumTo(counts, i) <= SumTo(counts, j)
    decreases j
  {
    if i < j {
      SumToMono(counts, i, j - 1);
    }
  }

  /** A parameter count does not depend on the distributions bound. */
  lemma {:induction false} CountIgnoresDists(m: Model, d: seq<Option<Distribution>>)
    ensures NumParameters(m.(dists := d)) == NumParameters(m)
  {
    assert Counts(m.(dists := d)) == Counts(m);
  }

  /** Adding a submodel adds its count to the composite's. */
  lemma AddSubmodelCount(m: Model, sub: Model)
    requires IsComposite(m)
    ensures NumParameters(m.(submodels := m.submodels + [sub]))
         == NumParameters(m) + NumParameters(sub)
  {
    var m' := m.(submodels := m.submodels + [sub]);
    assert Counts(m') == Counts(m) + [NumParameters(sub)];
    SumToAppend(Counts(m), NumParameters(sub), |m.submodels|);
  }

  lemma {:induction false} SumToAppend(counts: seq<nat>, c: nat, i: nat)
    requires i <= |counts|
    ensures SumTo(counts + [c], i) == SumTo(counts, i)
    ensures i == |counts| ==> SumTo(counts + [c], i + 1) == SumTo(counts, i) + c
  {
    if i > 0 {
      SumToAppend(counts, c, i - 1);
    }
  }

  // ---------------------------------------------------------------------
  // Routing the composite parameter vector to the submodels
  // ---------------------------------------------------------------------

  /** Where submodel `i`'s block starts in the composite vector. */
  function Offset(cn: nat, counts: seq<nat>, i: nat): nat
    requires i <= |counts|
  {
    cn + SumTo(counts, i)
  }

  /** The indices passed to submodel `i`: the composite's own `cn`
      parameters, then the submodel's block. */
  function RouteIndices(cn: nat, counts: seq<nat>, i: nat): seq<nat>
    requires i < |counts|
  {
    seq(cn + counts[i], k requires 0 <= k < cn + counts[i] => RouteAt(cn, Offset(cn, counts, i), k))
  }

  /** Position `k` of a routing whose block starts at `start`. */
  function RouteAt(cn: nat, start: nat, k: nat): nat {
    if k < cn then k else start + k - cn
  }

  /** `cparams[indices]`. An index past the end is undefined behaviour in the
      source; the model reads 0 there, and `RoutesInBounds` shows it never
      happens for a vector of the model's full length. */
  function Gather(params: seq<real>, indices: seq<nat>): (r: seq<real>)
    ensures |r| == |indices|
  {
    seq(|indices|, k requires 0 <= k < |indices| =>
      if indices[k] < |params| then params[indices[k]] else 0.0)
  }

  /** Every routed index lies inside the composite vector, and the routed
      vector has the composite's and the submodel's parameters. */
  lemma RoutesInBounds(cn: nat, counts: seq<nat>, i: nat)
    requires i < |counts|
    ensures |RouteIndices(cn, counts, i)| == cn + counts[i]
    ensures forall k :: 0 <= k < |RouteIndices(cn, counts, i)| ==>
              RouteIndices(cn, counts, i)[k] < cn + SumTo(counts, |counts|)
  {
    SumToMono(counts, i + 1, |counts|);
  }

  /** Entry `i` of the routing: the own indices `[0, cn)` followed by the
      slice `[Offset(i), Offset(i + 1))`. */
  lemma RouteShape(cn: nat, counts: seq<nat>, i: nat)
    requires i < |counts|
    ensures RouteIndices(cn, counts, i)[..cn] == Range(0, cn)
    ensures RouteIndices(cn, counts, i)[cn..]
         == Range(Offset(cn, counts, i), Offset(cn, counts, i + 1))
  {
    var r := RouteIndices(cn, counts, i);
    assert r[..cn] == Range(0, cn) by {
      forall k | 0 <= k < cn ensures r[..cn][k] == Range(0, cn)[k] { }
    }
  }

  /** The integers `lo, lo + 1, ..., hi - 1`. */
  function Range(lo: nat, hi: nat): (r: seq<nat>)
    requires lo <= hi
    ensures |r| == hi - lo && forall k :: 0 <= k < |r| ==> r[k] == lo + k
  {
    seq(hi - lo, k requires 0 <= k < hi - lo => lo + k)
  }

  /** The submodels' slices do not overlap: an earlier one ends before a
      later one starts. */
  lemma SlicesDisjoint(cn: nat, counts: seq<nat>, i: nat, j: nat)
    requires i < j < |counts|
    ensures Offset(cn, counts, i) + counts[i] <= Offset(cn, counts, j)
  {
    SumToMono(counts, i + 1, j);
  }

  /** The slices cover every position after the composite's own
      parameters: each position lies in exactly one slice. */
  lemma {:induction false} SlicesCover(cn: nat, counts: seq<nat>, p: nat, n: nat)
    requires n <= |counts|
    requires cn <= p < Offset(cn, counts, n)
    ensures exists i :: 0 <= i < n && Offset(cn, counts, i) <= p < Offset(cn, counts, i) + counts[i]
    decreases n
  {
    if p >= Offset(cn, counts, n - 1) {
      assert Offset(cn, counts, n - 1) <= p < Offset(cn, counts, n - 1) + counts[n - 1];
    } else {
      SlicesCover(cn, counts, p, n - 1);
    }
  }

  /** The slice holding a position is unique. */
  lemma SliceUnique(cn: nat, counts: seq<nat>, p: nat, i: nat, j: nat)
    requires i < |counts| && j < |counts|
    requires Offset(cn, counts, i) <= p < Offset(cn, counts, i) + counts[i]
    requires Offset(cn, counts, j) <= p < Offset(cn, counts, j) + counts[j]
    ensures i == j
  {
    if i < j {
      SlicesDisjoint(cn, counts, i, j);
    } else if j < i {
      SlicesDisjoint(cn, counts, j, i);
    }
  }

  /** The layout of a two-parameter junction with channels of three and four
      parameters. */
  lemma JunctionRouting()
    ensures RouteIndices(2, [3, 4], 0) == [0, 1, 2, 3, 4]
    ensures RouteIndices(2, [3, 4], 1) == [0, 1, 5, 6, 7, 8]
  {
    assert SumTo([3, 4], 0) == 0;
    assert SumTo([3, 4], 1) == 3;
    var r0 := RouteIndices(2, [3, 4], 0);
    assert |r0| == 5 && r0[0] == 0 && r0[1] == 1 && r0[2] == 2 && r0[3] == 3 && r0[4] == 4;
    var r1 := RouteIndices(2, [3, 4], 1);
    assert |r1| == 6 && r1[0] == 0 && r1[1] == 1 && r1[2] == 5 && r1[3] == 6 && r1[4] == 7 && r1[5] == 8;
  }

  /** `routeSubmodelParameters`: pairs each submodel, in list order, with
      the parameters routed to it. */
  method RouteSubmodelParameters(m: Model, cparams: seq<real>)
    returns (ret: seq<(Model, seq<real>)>)
    requires IsComposite(m)
    ensures |ret| == |m.submodels|
    ensures forall i :: 0 <= i < |ret| ==>
              ret[i] == (m.submodels[i], Gather(cparams, RouteIndices(|m.names|, Counts(m), i)))
  {
    var cn := |m.names|;
    var tally := cn;
    ret := [];
    for i := 0 to |m.submodels|
      invariant tally == Offset(cn, Counts(m), i)
      invariant |ret| == i
      invariant forall k :: 0 <= k < i ==>
                  ret[k] == (m.submodels[k], Gather(cparams, RouteIndices(cn, Counts(m), k)))
    {
      var subNparam := NumParameters(m.submodels[i]);
      var indices := new nat[cn + subNparam];
      for j := 0 to cn
        invariant forall k :: 0 <= k < j ==> indices[k] == k
      {
        indices[j] := j;
      }
      for j := tally to tally + subNparam
        invariant forall k :: 0 <= k < cn + (j - tally) ==> indices[k] == RouteAt(cn, tally, k)
      {
        indices[j - tally + cn] := j;
      }
      assert indices[..] == RouteIndices(cn, Counts(m), i);
      ret := ret + [(m.submodels[i], Gather(cparams, indices[..]))];
      tally := tally + subNparam;
    }
  }

  // ---------------------------------------------------------------------
  // Generating parameters
  // ---------------------------------------------------------------------

  /** Every parameter the model draws has a distribution: its own first
      `|names|` slots are bound and so are its submodels'. Sampling a null
      handle is undefined behaviour in the source. */
  predicate Ready(m: Model)
    decreases m
  {
    |m.names| <= |m.dists|
    && (forall j :: 0 <= j < |m.names| ==> m.dists[j].Some?)
    && (IsComposite(m) ==> forall i :: 0 <= i < |m.submodels| ==> Ready(m.submodels[i]))
  }

  /** The first `n` distributions sampled in increasing index, the engine
      threaded from one draw to the next. */
  function SampleAll(ds: seq<Option<Distribution>>, n: nat, e: Engine, draw: Draw): (r: (seq<real>, Engine))
    requires n <= |ds| && forall j :: 0 <= j < n ==> ds[j].Some?
    ensures |r.0| == n
  {
    if n == 0 then ([], e)
    else
      var vs := SampleAll(ds, n - 1, e, draw);
      var v := Sample(ds[n - 1].value, vs.1, draw);
      (vs.0 + [v.0], v.1)
  }

  /** Entry `j` is a sample of distribution `j`, taken with the engine in
      the state the first `j` draws left it in. */
  lemma {:induction false} SampleAllEntry(ds: seq<Option<Distribution>>, n: nat, e: Engine, draw: Draw, j: nat)
    requires n <= |ds| && forall k :: 0 <= k < n ==> ds[k].Some?
    requires j < n
    ensures SampleAll(ds, n, e, draw).0[j] == Sample(ds[j].value, SampleAll(ds, j, e, draw).1, draw).0
    decreases n
  {
    if j < n - 1 {
      SampleAllEntry(ds, n - 1, e, draw, j);
    }
  }

  /** `generateParameters`, by the model's kind: a plain model samples its
      own distributions; a composite samples its own, then has each
      submodel generate its block, in list order. */
  function Generated(m: Model, e: Engine, draw: Draw): (r: (seq<real>, Engine))
    requires Ready(m)
    decreases m, |m.submodels| + 1
  {
    var own := SampleAll(m.dists, |m.names|, e, draw);
    if IsComposite(m) then
      var blocks := Blocks(m, |m.submodels|, own.1, draw);
      (own.0 + blocks.0, blocks.1)
    else own
  }

  /** The blocks of the first `k` submodels, generated in list order. */
  function Blocks(m: Model, k: nat, e: Engine, draw: Draw): (r: (seq<real>, Engine))
    requires Ready(m) && IsComposite(m) && k <= |m.submodels|
    decreases m, k
  {
    if k == 0 then ([], e)
    else
      var pre := Blocks(m, k - 1, e, draw);
      var b := Generated(m.submodels[k - 1], pre.1, draw);
      (pre.0 + b.0, b.1)
  }

  /** A generated vector has exactly the model's parameter count. */
  lemma {:induction false} GeneratedLength(m: Model, e: Engine, draw: Draw)
    requires Ready(m)
    ensures |Generated(m, e, draw).0| == NumParameters(m)
    decreases m, |m.submodels| + 1
  {
    if IsComposite(m) {
      BlocksLength(m, |m.submodels|, SampleAll(m.dists, |m.names|, e, draw).1, draw);
    }
  }

  lemma {:induction false} BlocksLength(m: Model, k: nat, e: Engine, draw: Draw)
    requires Ready(m) && IsComposite(m) && k <= |m.submodels|
    ensures |Blocks(m, k, e, draw).0| == SumTo(Counts(m), k)
    decreases m, k
  {
    if k > 0 {
      BlocksLength(m, k - 1, e, draw);
      GeneratedLength(m.submodels[k - 1], Blocks(m, k - 1, e, draw).1, draw);
    }
  }

  /** The first `i` blocks are a prefix of the first `k`. */
  lemma {:induction false} BlocksPrefix(m: Model, i: nat, k: nat, e: Engine, draw: Draw)
    requires Ready(m) && IsComposite(m) && i <= k <= |m.submodels|
    ensures SumTo(Counts(m), i) <= |Blocks(m, k, e, draw).0|
    ensures Blocks(m, k, e, draw).0[..SumTo(Counts(m), i)] == Blocks(m, i, e, draw).0
    decreases k
  {
    BlocksLength(m, i, e, draw);
    BlocksLength(m, k, e, draw);
    SumToMono(Counts(m), i, k);
    if i < k {
      BlocksPrefix(m, i, k - 1, e, draw);
      BlocksLength(m, k - 1, e, draw);
      SumToMono(Counts(m), i, k - 1);
      var pre := Blocks(m, k - 1, e, draw).0;
      var b := Generated(m.submodels[k - 1], Blocks(m, k - 1, e, draw).1, draw).0;
      assert Blocks(m, k, e, draw).0 == pre + b;
      assert (pre + b)[..SumTo(Counts(m), i)] == pre[..SumTo(Counts(m), i)];
    }
  }

  /** The layout of a composite's generated vector: its own samples first,
      then submodel `i`'s block at `Offset(i)`, generated by that submodel
      from the engine state the earlier blocks left. */
  lemma CompositeLayout(m: Model, e: Engine, draw: Draw, i: nat)
    requires Ready(m) && IsComposite(m) && i < |m.submodels|
    ensures Offset(|m.names|, Counts(m), i + 1) <= |Generated(m, e, draw).0|
    ensures Generated(m, e, draw).0[..|m.names|] == SampleAll(m.dists, |m.names|, e, draw).0
    ensures Generated(m, e, draw).0[Offset(|m.names|, Counts(m), i)..Offset(|m.names|, Counts(m), i + 1)]
         == Generated(m.submodels[i], Blocks(m, i, OwnEngine(m, e, draw), draw).1, draw).0
  {
    var cn := |m.names|;
    var own := SampleAll(m.dists, cn, e, draw).0;
    var all := Blocks(m, |m.submodels|, OwnEngine(m, e, draw), draw).0;
    var g := Generated(m, e, draw).0;
    assert g == own + all;
    BlockAt(m, i, OwnEngine(m, e, draw), draw);
    AppendedSlice(own, all, SumTo(Counts(m), i), SumTo(Counts(m), i + 1));
  }

  /** A slice of the tail of `a + b` is the matching slice of `b`. */
  lemma AppendedSlice(a: seq<real>, b: seq<real>, lo: nat, hi: nat)
    requires lo <= hi <= |b|
    ensures (a + b)[..|a|] == a
    ensures (a + b)[|a| + lo..|a| + hi] == b[lo..hi]
  {
  }

  /** The engine state after a model's own parameters are drawn. */
  function OwnEngine(m: Model, e: Engine, draw: Draw): Engine
    requires Ready(m)
  {
    SampleAll(m.dists, |m.names|, e, draw).1
  }

  /** Block `i` of all the blocks is submodel `i`'s generated vector. */
  lemma BlockAt(m: Model, i: nat, e: Engine, draw: Draw)
    requires Ready(m) && IsComposite(m) && i < |m.submodels|
    ensures SumTo(Counts(m), i) <= SumTo(Counts(m), i + 1) <= |Blocks(m, |m.submodels|, e, draw).0|
    ensures Blocks(m, |m.submodels|, e, draw).0[SumTo(Counts(m), i)..SumTo(Counts(m), i + 1)]
         == Generated(m.submodels[i], Blocks(m, i, e, draw).1, draw).0
  {
    var all := Blocks(m, |m.submodels|, e, draw).0;
    BlocksPrefix(m, i + 1, |m.submodels|, e, draw);
    BlocksLength(m, i, e, draw);
    var pre := Blocks(m, i, e, draw).0;
    var b := Generated(m.submodels[i], Blocks(m, i, e, draw).1, draw).0;
    assert Blocks(m, i + 1, e, draw).0 == pre + b;
    assert all[..SumTo(Counts(m), i + 1)] == pre + b;
    assert (pre + b)[|pre|..] == b;
  }

  /** `generateParameters`: dispatches on the model's kind. */
  method GenerateParameters(m: Model, e: Engine, draw: Draw) returns (ret: seq<real>, e': Engine)
    requires Ready(m)
    ensures (ret, e') == Generated(m, e, draw)
    decreases m, 2
  {
    if IsComposite(m) {
      ret, e' := GenerateComposite(m, e, draw);
    } else {
      ret, e' := GenerateOwn(m, e, draw);
    }
  }

  /** `SimulateModel::generateParameters`: fills slot `j` with a sample of
      `dists[j]`, threading the engine. */
  method GenerateOwn(m: Model, e: Engine, draw: Draw) returns (ret: seq<real>, e': Engine)
    requires Ready(m)
    ensures (ret, e') == SampleAll(m.dists, |m.names|, e, draw)
  {
    var length := |m.names|;
    var a := new real[length];
    e' := FillSamples(a, m.dists, length, e, draw);
    assert a[..] == a[..length];
    ret := a[..];
  }

  /** The sampling loop both `generateParameters` share: slot `j` of the
      buffer gets a sample of `ds[j]`, the engine threaded through. */
  method FillSamples(a: array<real>, ds: seq<Option<Distribution>>, n: nat, e: Engine, draw: Draw)
    returns (e': Engine)
    requires n <= a.Length && n <= |ds| && forall j :: 0 <= j < n ==> ds[j].Some?
    modifies a
    ensures (a[..n], e') == SampleAll(ds, n, e, draw)
  {
    e' := e;
    for j := 0 to n
      invariant (a[..j], e') == SampleAll(ds, j, e, draw)
    {
      var s := Sample(ds[j].value, e', draw);
      a[j] := s.0;
      e' := s.1;
      assert a[..j + 1] == a[..j] + [s.0];
    }
  }

  /** `ret[std::slice(tally, |block|, 1)] = block`. */
  method CopyBlock(a: array<real>, tally: nat, block: seq<real>)
    requires tally + |block| <= a.Length
    modifies a
    ensures a[..tally + |block|] == old(a[..tally]) + block
  {
    ghost var before := a[..tally];
    for t := 0 to |block|
      invariant a[..tally + t] == before + block[..t]
    {
      a[tally + t] := block[t];
      assert a[..tally + t + 1] == a[..tally + t] + [block[t]];
    }
  }

  /** One more block: submodel `i`'s vector, of its own length, appended. */
  lemma BlockStep(m: Model, i: nat, e: Engine, draw: Draw)
    requires Ready(m) && IsComposite(m) && i < |m.submodels|
    ensures var g := Generated(m.submodels[i], Blocks(m, i, e, draw).1, draw);
            Blocks(m, i + 1, e, draw) == (Blocks(m, i, e, draw).0 + g.0, g.1)
            && Offset(|m.names|, Counts(m), i + 1) == Offset(|m.names|, Counts(m), i) + |g.0|
            && Offset(|m.names|, Counts(m), i + 1) <= NumParameters(m)
  {
    GeneratedLength(m.submodels[i], Blocks(m, i, e, draw).1, draw);
    SumToMono(Counts(m), i + 1, |m.submodels|);
  }

  /** `CompositeSimulateModel::generateParameters`: the own parameters
      first, then each submodel's block written into its slice. */
  method GenerateComposite(m: Model, e: Engine, draw: Draw) returns (ret: seq<real>, e': Engine)
    requires Ready(m) && IsComposite(m)
    ensures (ret, e') == Generated(m, e, draw)
    decreases m, 1
  {
    var cn := |m.names|;
    var tally := cn;
    GeneratedLength(m, e, draw);
    var length := NumParameters(m);
    var a := new real[length];
    e' := FillSamples(a, m.dists, cn, e, draw);
    ghost var own := a[..cn];
    ghost var eOwn := e';
    assert a[..tally] == own + Blocks(m, 0, eOwn, draw).0;
    for i := 0 to |m.submodels|
      invariant tally == Offset(cn, Counts(m), i) <= length
      invariant a[..tally] == own + Blocks(m, i, eOwn, draw).0
      invariant e' == Blocks(m, i, eOwn, draw).1
    {
      tally, e' := PlaceBlock(m, i, eOwn, draw, a, tally, e', own);
    }
    assert a[..] == a[..tally];
    ret := a[..];
  }

  /** One pass of the submodel loop of `generateParameters`: submodel `i`
      draws its block from the engine state the earlier blocks left, and the
      block is written at `tally`, just after them. */
  method PlaceBlock(m: Model, i: nat, ghost eOwn: Engine, draw: Draw, a: array<real>, tally: nat, e: Engine,
                    ghost own: seq<real>)
    returns (tally': nat, e': Engine)
    requires Ready(m) && IsComposite(m) && i < |m.submodels|
    requires a.Length == NumParameters(m) && e == Blocks(m, i, eOwn, draw).1
    requires tally == Offset(|m.names|, Counts(m), i) <= a.Length
    requires a[..tally] == own + Blocks(m, i, eOwn, draw).0
    modifies a
    ensures tally' == Offset(|m.names|, Counts(m), i + 1) <= a.Length
    ensures a[..tally'] == own + Blocks(m, i + 1, eOwn, draw).0
    ensures e' == Blocks(m, i + 1, eOwn, draw).1
    decreases m, 0
  {
    var block, e2 := GenerateParameters(m.submodels[i], e, draw);
    BlockStep(m, i, eOwn, draw);
    ghost var pre := Blocks(m, i, eOwn, draw).0;
    CopyBlock(a, tally, block);
    assert a[..tally + |block|] == own + (pre + block) by {
      assert (own + pre) + block == own + (pre + block);
    }
    tally' := tally + |block|;
    e' := e2;
  }

  // ---------------------------------------------------------------------
  // Observables
  // ---------------------------------------------------------------------

  /** The constructor of `Observable<T>` or `CompositeObservable<T>`: adds
      the key to the model's registry, replacing an earlier entry. */
  function Register(m: Model, key: ObservableKey, reg: Registration): (r: Model)
    ensures key in r.observables && r.observables[key] == reg
    ensures forall k :: k in m.observables && k != key ==>
              k in r.observables && r.observables[k] == m.observables[k]
    ensures r.observables.Keys == m.observables.Keys + {key}
    ensures r.names == m.names && r.dists == m.dists && r.submodels == m.submodels
    ensures r.modelType == m.modelType && r.submodelType == m.submodelType
  {
    m.(observables := m.observables[key := reg])
  }

  /** The first submodel whose observable is missing, in list order. */
  function FirstError(rs: seq<Result<Evaluator>>): (r: Option<Error>)
    ensures r.None? <==> forall i :: 0 <= i < |rs| ==> rs[i].Ok?
    ensures r.Some? ==> exists i :: 0 <= i < |rs| && rs[i] == Err(r.value)
                                  && forall k :: 0 <= k < i ==> rs[k].Ok?
  {
    if |rs| == 0 then None
    else if rs[0].Err? then Some(rs[0].error)
    else
      var t := FirstError(rs[1..]);
      assert forall i :: 1 <= i < |rs| ==> rs[i] == rs[1..][i - 1];
      t
  }

  /** The left fold of `oper` over the values, seeded with the first. */
  function FoldFirst(oper: (real, real) -> real, vals: seq<real>): real
    requires |vals| > 0
  {
    if |vals| == 1 then vals[0] else oper(FoldFirst(oper, vals[..|vals| - 1]), vals[|vals| - 1])
  }

  function Plus(a: real, b: real): real {
    a + b
  }

  function RealSum(vals: seq<real>): real {
    if |vals| == 0 then 0.0 else RealSum(vals[..|vals| - 1]) + vals[|vals| - 1]
  }

  /** Folding with `+` sums the values. */
  lemma {:induction false} FoldPlusIsSum(vals: seq<real>)
    requires |vals| > 0
    ensures FoldFirst(Plus, vals) == RealSum(vals)
  {
    if |vals| > 1 {
      FoldPlusIsSum(vals[..|vals| - 1]);
    } else {
      assert vals[..0] == [];
    }
  }

  /** The composite evaluator: each submodel's function on its routed
      parameters, combined in list order. */
  function CombinedEvaluator(oper: (real, real) -> real, fs: seq<Evaluator>, routes: seq<seq<nat>>): Evaluator
    requires |fs| == |routes| > 0
  {
    (params: seq<real>) => FoldFirst(oper, SubmodelValues(fs, routes, params))
  }

  function SubmodelValues(fs: seq<Evaluator>, routes: seq<seq<nat>>, params: seq<real>): (r: seq<real>)
    requires |fs| == |routes|
    ensures |r| == |fs|
  {
    seq(|fs|, i requires 0 <= i < |fs| => fs[i](Gather(params, routes[i])))
  }

  /** The routing of every submodel of a composite. */
  function Routes(m: Model): (r: seq<seq<nat>>)
    ensures |r| == |m.submodels|
  {
    seq(|m.submodels|, i requires 0 <= i < |m.submodels| => RouteIndices(|m.names|, Counts(m), i))
  }

  /** `getObservableFunction`: the registered evaluator; an unregistered
      key is `IncompatibleObservable`. A composite observable needs a
      composite model with at least one submodel, and every submodel's own
      function for the key; the first submodel without one reports its
      error. */
  function GetObservableFunction(m: Model, key: ObservableKey): (r: Result<Evaluator>)
    decreases m
    ensures key !in m.observables ==> r == Err(IncompatibleObservable)
    ensures key in m.observables && m.observables[key].Direct? ==> r == Ok(m.observables[key].eval)
    ensures key in m.observables && m.observables[key].Combined? ==>
              (!IsComposite(m) ==> r == Err(NotCompositeSimulateModel))
              && (IsComposite(m) && |m.submodels| == 0 ==> r == Err(NoSubmodels))
              && (IsComposite(m) && |m.submodels| > 0 ==>
                    (r.Ok? <==> forall i :: 0 <= i < |m.submodels| ==>
                                   GetObservableFunction(m.submodels[i], key).Ok?))
  {
    if key !in m.observables then Err(IncompatibleObservable)
    else
      match m.observables[key]
      case Direct(f) => Ok(f)
      case Combined(oper) =>
        if !IsComposite(m) then Err(NotCompositeSimulateModel)
        else if |m.submodels| == 0 then Err(NoSubmodels)
        else
          var subs := SubmodelFunctions(m, key);
          match FirstError(subs)
          case Some(err) => Err(err)
          case None => Ok(CombinedEvaluator(oper, seq(|subs|, i requires 0 <= i < |subs| => subs[i].value), Routes(m)))
  }

  function SubmodelFunctions(m: Model, key: ObservableKey): (r: seq<Result<Evaluator>>)
    decreases m, 0
    ensures |r| == |m.submodels|
    ensures forall i :: 0 <= i < |r| ==> r[i] == GetObservableFunction(m.submodels[i], key)
  {
    seq(|m.submodels|, i requires 0 <= i < |m.submodels| => GetObservableFunction(m.submodels[i], key))
  }

  /** The value of a composite observable: the fold of `oper` over each
      submodel's value on its routed parameters. A single submodel yields
      its own value. */
  lemma CompositeValue(m: Model, key: ObservableKey, params: seq<real>)
    requires key in m.observables && m.observables[key].Combined?
    requires IsComposite(m) && |m.submodels| > 0
    requires forall i :: 0 <= i < |m.submodels| ==> GetObservableFunction(m.submodels[i], key).Ok?
    ensures GetObservableFunction(m, key).Ok?
    ensures GetObservableFunction(m, key).value(params)
         == FoldFirst(m.observables[key].oper,
                      seq(|m.submodels|, i requires 0 <= i < |m.submodels| =>
                        GetObservableFunction(m.submodels[i], key).value(
                          Gather(params, RouteIndices(|m.names|, Counts(m), i)))))
    ensures |m.submodels| == 1 ==>
              GetObservableFunction(m, key).value(params)
              == GetObservableFunction(m.submodels[0], key).value(Gather(params, RouteIndices(|m.names|, Counts(m), 0)))
  {
    var subs := SubmodelFunctions(m, key);
    var fs := seq(|subs|, i requires 0 <= i < |subs| => subs[i].value);
    var vals := SubmodelValues(fs, Routes(m), params);
    assert vals == seq(|m.submodels|, i requires 0 <= i < |m.submodels| =>
                        GetObservableFunction(m.submodels[i], key).value(
                          Gather(params, RouteIndices(|m.names|, Counts(m), i))));
  }
}
