/** The factory that binds distributions to a model's parameter names and
    collects a composite model's submodels before handing the model out. */
module SimulateModelFactories {
  import opened Errors
  import StringTools
  import opened RandomDistributions
  import opened SimulateModels

  /** The lower-cased names: the initial set of names still to be bound. */
  function NameSet(names: seq<string>): set<string> {
    set i | 0 <= i < |names| :: StringTools.Lower(names[i])
  }

  /** The order of `std::set<std::string>`: lexicographic by character. */
  predicate StrLess(a: string, b: string) {
    if |b| == 0 then false
    else if |a| == 0 then true
    else if a[0] != b[0] then a[0] < b[0]
    else StrLess(a[1..], b[1..])
  }

  lemma {:induction false} StrLessTrans(a: string, b: string, c: string)
    requires StrLess(a, b) && StrLess(b, c)
    ensures StrLess(a, c)
    decreases |a|
  {
    if |a| > 0 && a[0] == b[0] && b[0] == c[0] {
      StrLessTrans(a[1..], b[1..], c[1..]);
    }
  }

  lemma {:induction false} StrLessTotal(a: string, b: string)
    ensures a == b || StrLess(a, b) || StrLess(b, a)
    ensures !(StrLess(a, b) && StrLess(b, a))
    decreases |a|
  {
    if |a| > 0 && |b| > 0 && a[0] == b[0] {
      StrLessTotal(a[1..], b[1..]);
      if a[1..] == b[1..] {
        assert a == [a[0]] + a[1..] && b == [b[0]] + b[1..];
      }
    }
  }

  /** The least element of a non-empty set of names is unique. */
  lemma LeastUnique(s: set<string>, x: string, y: string)
    requires x in s && y in s
    requires forall z :: z in s ==> !StrLess(z, x)
    requires forall z :: z in s ==> !StrLess(z, y)
    ensures x == y
  {
    StrLessTotal(x, y);
  }

  /** The distributions after binding `dist` to every position whose name
      matches `lowerName` case-insensitively. */
  function Rebound(dists: seq<Option<Distribution>>, names: seq<string>, lowerName: string,
                   dist: Option<Distribution>): (r: seq<Option<Distribution>>)
    ensures |r| == |dists|
  {
    seq(|dists|, i requires 0 <= i < |dists| =>
      if i < |names| && StringTools.Lower(names[i]) == lowerName then dist else dists[i])
  }

  /** Binding a name twice keeps the later distribution. */
  lemma LastWriteWins(d: seq<Option<Distribution>>, names: seq<string>, n: string,
                      x: Option<Distribution>, y: Option<Distribution>)
    ensures Rebound(Rebound(d, names, n, x), names, n, y) == Rebound(d, names, n, y)
  {
  }

  /** A name no position carries changes no distribution. */
  lemma UnmatchedKeepsDists(d: seq<Option<Distribution>>, names: seq<string>, n: string,
                            x: Option<Distribution>)
    requires n !in NameSet(names)
    ensures Rebound(d, names, n, x) == d
  {
    assert forall i :: 0 <= i < |names| ==> StringTools.Lower(names[i]) in NameSet(names);
  }

  /** Binding the model's names one by one in order leaves nothing to bind. */
  lemma {:induction false} BindingAllNames(remaining: set<string>, names: seq<string>, k: nat)
    requires k <= |names|
    requires remaining <= NameSet(names)
    requires forall i :: 0 <= i < k ==> StringTools.Lower(names[i]) !in remaining
    ensures remaining <= NameSet(names[k..])
  {
    forall x | x in remaining ensures x in NameSet(names[k..]) {
      var i :| 0 <= i < |names| && StringTools.Lower(names[i]) == x;
      assert names[k..][i - k] == names[i];
    }
  }

  class SimulateModelFactory {
    /** `model`: the model under construction. */
    var model: Model
    /** `comp_model != nullptr`: the model is a composite. */
    const composite: bool
    /** `remaining_names`: the lower-cased names still without a distribution. */
    var remainingNames: set<string>
    /** `model_names`: the model's names, in order, as declared. */
    const modelNames: seq<string>
    /** The positions `setDistribution` has written since the factory was
        made. */
    ghost var bound: set<nat>

    /** A name is still to be bound exactly when no position carrying it
        has been written. */
    ghost predicate Valid()
      reads this
    {
      model.names == modelNames
      && |model.dists| == |modelNames|
      && (composite <==> IsComposite(model))
      && remainingNames <= NameSet(modelNames)
      && forall i :: 0 <= i < |modelNames| ==>
           (i in bound <==> StringTools.Lower(modelNames[i]) !in remainingNames)
    }

    /** `makeFactory<T>`: takes the freshly constructed model, caches its
        names, starts with every lower-cased name unbound and gives the model
        one null distribution per parameter. */
    constructor MakeFactory(proto: Model)
      requires proto.dists == [] && proto.submodels == []
      ensures Valid()
      ensures model == proto.(dists := seq(NumParameters(proto), _ => None))
      ensures composite <==> IsComposite(proto)
      ensures modelNames == proto.names
      ensures remainingNames == NameSet(proto.names)
      ensures bound == {}
    {
      var names := proto.names;
      var remaining := {};
      for j := 0 to |names|
        invariant remaining == NameSet(names[..j])
      {
        remaining := remaining + {StringTools.Lower(names[j])};
        assert names[..j + 1] == names[..j] + [names[j]];
      }
      assert names[..|names|] == names;
      composite := IsComposite(proto);
      modelNames := names;
      remainingNames := remaining;
      bound := {};
      assert Counts(proto) == [];
      model := proto.(dists := seq(NumParameters(proto), _ => None));
    }

    /** `setDistribution`: binds `dist` to every parameter whose name matches
        `name` case-insensitively, removes the name from those still
        unbound, and reports whether any position matched. The loop runs
        over the model's own names. */
    method SetDistribution(name: string, dist: Option<Distribution>) returns (used: bool)
      requires Valid()
      modifies this
      ensures Valid()
      ensures model == old(model).(dists := Rebound(old(model.dists), modelNames, StringTools.Lower(name), dist))
      ensures used <==> StringTools.Lower(name) in NameSet(modelNames)
      ensures remainingNames == old(remainingNames) - {StringTools.Lower(name)}
      ensures bound == old(bound) + set i | 0 <= i < |modelNames| && StringTools.Lower(modelNames[i]) == StringTools.Lower(name)
    {
      var length := |modelNames|;
      var lowerName := StringTools.ToLower(name);
      used := false;
      var dists := model.dists;
      var remaining := remainingNames;
      for pos := 0 to length
        invariant model == old(model) && remainingNames == old(remainingNames) && bound == old(bound)
        invariant |dists| == length
        invariant forall i :: 0 <= i < length ==>
                    dists[i] == if i < pos && StringTools.Lower(modelNames[i]) == lowerName
                                then dist else old(model.dists)[i]
        invariant used <==> exists i :: 0 <= i < pos && StringTools.Lower(modelNames[i]) == lowerName
        invariant remaining == if used then old(remainingNames) - {lowerName} else old(remainingNames)
      {
        var lowerPos := StringTools.ToLower(modelNames[pos]);
        if lowerName == lowerPos {
          dists := dists[pos := dist];
          used := true;
          remaining := remaining - {lowerName};
        }
      }
      model := model.(dists := dists);
      remainingNames := remaining;
      bound := bound + set i | 0 <= i < length && StringTools.Lower(modelNames[i]) == lowerName;
      if !used {
        assert lowerName !in old(remainingNames) by {
          assert lowerName !in NameSet(modelNames);
        }
      } else {
        var i :| 0 <= i < length && StringTools.Lower(modelNames[i]) == lowerName;
        assert lowerName in NameSet(modelNames);
      }
    }

    /** `addSubmodel`: only a composite takes submodels, and only of the
        type it declares; an accepted submodel goes at the end of the list.
        A refused one leaves the factory as it was. */
    method AddSubmodel(sub: Model) returns (r: Outcome)
      requires Valid()
      modifies this
      ensures Valid() && remainingNames == old(remainingNames) && bound == old(bound)
      ensures !composite ==> r == Fail(NotCompositeSimulateModel) && model == old(model)
      ensures composite && GetModelType(sub) != model.submodelType.value ==>
                r == Fail(IncompatibleSubmodel) && model == old(model)
      ensures composite && GetModelType(sub) == old(model).submodelType.value ==>
                r == Pass && model == old(model).(submodels := old(model.submodels) + [sub])
    {
      if !composite {
        return Fail(NotCompositeSimulateModel);
      }
      if GetModelType(sub) != model.submodelType.value {
        return Fail(IncompatibleSubmodel);
      }
      model := model.(submodels := model.submodels + [sub]);
      r := Pass;
    }

    /** `getModel`: refuses while a name is unbound, naming the least one,
        and refuses a composite without submodels. */
    method GetModel() returns (r: Result<Model>)
      requires Valid()
      ensures remainingNames != {} ==>
                r.Err? && r.error.MissingDistribution? && r.error.name in remainingNames
                && forall x :: x in remainingNames ==> !StrLess(x, r.error.name)
      ensures remainingNames == {} && composite && |model.submodels| == 0 ==> r == Err(NoSubmodels)
      ensures remainingNames == {} && !(composite && |model.submodels| == 0) ==> r == Ok(model)
      ensures r.Ok? ==> forall i :: 0 <= i < |modelNames| ==> i in bound
    {
      if remainingNames != {} {
        var least := LeastName(remainingNames);
        return Err(MissingDistribution(least));
      }
      if composite && |model.submodels| == 0 {
        return Err(NoSubmodels);
      }
      r := Ok(model);
    }
  }

  /** `*(remaining_names.cbegin())`: the least name of the set. */
  method LeastName(s: set<string>) returns (least: string)
    requires s != {}
    ensures least in s && forall x :: x in s ==> !StrLess(x, least)
  {
    least :| least in s;
    StrLessTotal(least, least);
    var rest := s - {least};
    while rest != {}
      invariant least in s && rest <= s
      invariant forall x :: x in s && x !in rest ==> !StrLess(x, least)
      decreases |rest|
    {
      var x :| x in rest;
      if StrLess(x, least) {
        forall y | y in s && y !in rest
          ensures !StrLess(y, x)
        {
          if StrLess(y, x) {
            StrLessTrans(y, x, least);
          }
        }
        StrLessTotal(x, x);
        least := x;
      }
      rest := rest - {x};
    }
  }

  /** Duplicate names, in any case, leave a single name to bind. */
  lemma DuplicatesCollapse()
    ensures NameSet(["EF", "ef", "v"]) == {"ef", "v"}
  {
    assert StringTools.Lower("EF") == "ef";
    assert StringTools.Lower("ef") == "ef";
    assert StringTools.Lower("v") == "v";
    var names := ["EF", "ef", "v"];
    assert StringTools.Lower(names[0]) in NameSet(names);
    assert StringTools.Lower(names[2]) in NameSet(names);
    assert forall i :: 0 <= i < |names| ==> StringTools.Lower(names[i]) in {"ef", "v"};
  }

  // ---------------------------------------------------------------------
  // The loop bound of setDistribution as written
  // ---------------------------------------------------------------------

  /** `setDistribution` as written runs its loop to `get_num_parameters()`
      and reads `model_names[pos]` each time. `None` stands for the read
      past the end of `model_names` once `length` exceeds it. */
  function SetDistributionAsWritten(names: seq<string>, dists: seq<Option<Distribution>>, length: nat,
                                    lowerName: string, dist: Option<Distribution>, pos: nat)
    : Option<seq<Option<Distribution>>>
    requires |dists| == |names|
    decreases length - pos
  {
    if pos >= length then Some(dists)
    else if pos >= |names| then None
    else
      var d := if lowerName == StringTools.Lower(names[pos]) then dists[pos := dist] else dists;
      SetDistributionAsWritten(names, d, length, lowerName, dist, pos + 1)
  }

  /** Once a composite holds a submodel with a parameter, its count exceeds
      its own names and the loop as written reads past `model_names`. */
  lemma {:induction false} SetDistributionReadsPastEnd(names: seq<string>, dists: seq<Option<Distribution>>,
                                                       length: nat, lowerName: string,
                                                       dist: Option<Distribution>, pos: nat)
    requires |dists| == |names| && pos <= |names| < length
    ensures SetDistributionAsWritten(names, dists, length, lowerName, dist, pos) == None
    decreases |names| - pos
  {
    if pos < |names| {
      var d := if lowerName == StringTools.Lower(names[pos]) then dists[pos := dist] else dists;
      SetDistributionReadsPastEnd(names, d, length, lowerName, dist, pos + 1);
    }
  }

  /** The case that shows it: a junction's two names and one channel of
      three parameters give a count of five. */
  lemma JunctionSetDistributionAsWritten(channel: Model, dist: Option<Distribution>)
    requires !IsComposite(channel) && |channel.names| == 3
    ensures var j := Model(["ef", "v"], SimulateModelTag, Some(ChannelTag), map[], [None, None], [channel]);
            NumParameters(j) == 5
            && SetDistributionAsWritten(j.names, j.dists, NumParameters(j), "ef", dist, 0) == None
  {
    var j := Model(["ef", "v"], SimulateModelTag, Some(ChannelTag), map[], [None, None], [channel]);
    assert Counts(j) == [3];
    assert SumTo(Counts(j), 1) == 3;
    SetDistributionReadsPastEnd(j.names, j.dists, NumParameters(j), "ef", dist, 0);
  }
}
