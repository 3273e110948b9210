/** The transport junction: a composite model whose submodels are
    channels. It declares the Fermi energy and the applied bias, reports the
    bias itself, and adds the channels' currents and conductances. */
module Junctions {
  import opened Errors
  import opened SimulateModels

  const IndexEF: nat := 0
  const IndexV: nat := 1

  /** `get_names`. */
  function GetNames(): (r: seq<string>)
    ensures |r| == 2 && r[IndexEF] == "ef" && r[IndexV] == "v"
  {
    ["ef", "v"]
  }

  /** `AppBias`: the bias entry of the parameter vector (reading a shorter
      vector is undefined behaviour in the source; the model reads 0). */
  function AppBias(params: seq<real>): (r: real)
    ensures IndexV < |params| ==> r == params[IndexV]
  {
    if IndexV < |params| then params[IndexV] else 0.0
  }

  /** The observables combined from the channels with `+`. */
  predicate Summed(key: ObservableKey) {
    key == ElectricCurrent || key == StaticConductance || key == ZeroBiasConductance
    || key == DifferentialConductance
  }

  /** The junction's registry: the applied bias as its own observable, and
      the four composite observables combined with `+`. */
  function JunctionObservables(): map<ObservableKey, Registration> {
    map[AppliedBias := Direct(AppBias),
        ElectricCurrent := Combined(Plus),
        StaticConductance := Combined(Plus),
        ZeroBiasConductance := Combined(Plus),
        DifferentialConductance := Combined(Plus)]
  }

  /** A freshly constructed junction: its base classes register their
      observables one after the other. */
  function TransportJunction(): (m: Model)
    ensures m.names == GetNames() && IsComposite(m) && m.submodelType == Some(ChannelTag)
    ensures m.dists == [] && m.submodels == []
  {
    var m0 := CompositeModel(ChannelTag, GetNames(), map[]);
    var m1 := Register(m0, AppliedBias, Direct(AppBias));
    var m2 := Register(m1, ElectricCurrent, Combined(Plus));
    var m3 := Register(m2, StaticConductance, Combined(Plus));
    var m4 := Register(m3, ZeroBiasConductance, Combined(Plus));
    Register(m4, DifferentialConductance, Combined(Plus))
  }

  /** The registrations leave exactly the junction's registry. */
  lemma JunctionRegistry()
    ensures TransportJunction().observables == JunctionObservables()
  {
  }

  /** A junction as its factory leaves it: distributions bound and
      channels added. */
  ghost predicate IsJunction(m: Model) {
    m.names == GetNames() && m.submodelType == Some(ChannelTag)
    && m.observables == JunctionObservables()
  }

  /** The applied bias of a junction is the bias parameter. */
  lemma JunctionAppBias(m: Model, params: seq<real>)
    requires IsJunction(m) && |params| > IndexV
    ensures GetObservableFunction(m, AppliedBias).Ok?
    ensures GetObservableFunction(m, AppliedBias).value(params) == params[IndexV]
  {
  }

  /** A summed observable of a junction without channels is refused. */
  lemma JunctionWithoutChannels(m: Model, key: ObservableKey)
    requires IsJunction(m) && Summed(key) && m.submodels == []
    ensures GetObservableFunction(m, key) == Err(NoSubmodels)
  {
  }

  /** Each summed observable is the sum of the channels' values, each
      channel given the junction's parameters and its own block. */
  lemma JunctionSum(m: Model, key: ObservableKey, params: seq<real>)
    requires IsJunction(m) && Summed(key) && |m.submodels| > 0
    requires forall i :: 0 <= i < |m.submodels| ==> GetObservableFunction(m.submodels[i], key).Ok?
    ensures GetObservableFunction(m, key).Ok?
    ensures GetObservableFunction(m, key).value(params)
         == RealSum(seq(|m.submodels|, i requires 0 <= i < |m.submodels| =>
              GetObservableFunction(m.submodels[i], key).value(
                Gather(params, RouteIndices(|GetNames()|, Counts(m), i)))))
  {
    assert m.observables[key] == Combined(Plus);
    CompositeValue(m, key, params);
    FoldPlusIsSum(seq(|m.submodels|, i requires 0 <= i < |m.submodels| =>
      GetObservableFunction(m.submodels[i], key).value(
        Gather(params, RouteIndices(|GetNames()|, Counts(m), i)))));
  }

  /** With one channel, the junction's observable is the channel's on its
      routed parameters. */
  lemma JunctionSingleChannel(m: Model, key: ObservableKey, params: seq<real>)
    requires IsJunction(m) && Summed(key) && |m.submodels| == 1
    requires GetObservableFunction(m.submodels[0], key).Ok?
    ensures GetObservableFunction(m, key).Ok?
    ensures GetObservableFunction(m, key).value(params)
         == GetObservableFunction(m.submodels[0], key).value(
              Gather(params, RouteIndices(|GetNames()|, Counts(m), 0)))
  {
    assert m.observables[key] == Combined(Plus);
    CompositeValue(m, key, params);
  }

  /** Two channels of three and four parameters: the junction's value is
      the first channel's on parameters 0-4 plus the second's on 0, 1 and
      5-8. */
  lemma JunctionTwoChannels(m: Model, key: ObservableKey, params: seq<real>)
    requires IsJunction(m) && Summed(key) && |m.submodels| == 2
    requires NumParameters(m.submodels[0]) == 3 && NumParameters(m.submodels[1]) == 4
    requires GetObservableFunction(m.submodels[0], key).Ok?
    requires GetObservableFunction(m.submodels[1], key).Ok?
    ensures GetObservableFunction(m, key).Ok?
    ensures GetObservableFunction(m, key).value(params)
         == GetObservableFunction(m.submodels[0], key).value(Gather(params, [0, 1, 2, 3, 4]))
            + GetObservableFunction(m.submodels[1], key).value(Gather(params, [0, 1, 5, 6, 7, 8]))
  {
    assert Counts(m) == [3, 4];
    JunctionRouting();
    assert m.observables[key] == Combined(Plus);
    CompositeValue(m, key, params);
    var vals := seq(|m.submodels|, i requires 0 <= i < |m.submodels| =>
      GetObservableFunction(m.submodels[i], key).value(
        Gather(params, RouteIndices(|GetNames()|, Counts(m), i))));
    assert vals[0] == GetObservableFunction(m.submodels[0], key).value(Gather(params, [0, 1, 2, 3, 4]));
    assert vals[1] == GetObservableFunction(m.submodels[1], key).value(Gather(params, [0, 1, 5, 6, 7, 8]));
    assert vals[..1] == [vals[0]];
    assert m.observables[key].oper == Plus;
    assert FoldFirst(Plus, vals) == vals[0] + vals[1];
  }
}
