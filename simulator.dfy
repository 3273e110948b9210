/** The simulator: a model together with the observables it reports, one
    column each, all evaluated on one parameter vector per simulated
    point. */
module Simulators {
  import opened Errors
  import opened RandomDistributions
  import opened SimulateModels

  const IndexOutOfRange := "Observable index is out of range."

  /** Every column evaluated on the same parameter vector. */
  function Evaluate(columns: seq<Evaluator>, params: seq<real>): (r: seq<real>)
    ensures |r| == |columns|
  {
    seq(|columns|, j requires 0 <= j < |columns| => columns[j](params))
  }

  /** Appending a column appends its value. */
  lemma EvaluateAppend(columns: seq<Evaluator>, f: Evaluator, params: seq<real>)
    ensures Evaluate(columns + [f], params) == Evaluate(columns, params) + [f(params)]
  {
  }

  /** Replacing a column replaces its value and no other. */
  lemma EvaluateReplace(columns: seq<Evaluator>, j: nat, f: Evaluator, params: seq<real>)
    requires j < |columns|
    ensures Evaluate(columns[j := f], params) == Evaluate(columns, params)[j := f(params)]
  {
  }

  class Simulator {
    /** `model`: the model simulated. */
    const model: Model
    /** `obs_functions`: the observable of each output column. */
    var columns: seq<Evaluator>

    constructor(model: Model)
      ensures this.model == model && columns == []
    {
      this.model := model;
      columns := [];
    }

    /** `simulate`: draws one parameter vector from the model and evaluates
        every column on it. Without a column it draws nothing. */
    method Simulate(e: Engine, draw: Draw) returns (r: Result<seq<real>>, e': Engine)
      requires |columns| > 0 ==> Ready(model)
      ensures |columns| == 0 ==> r == Err(NoObservables) && e' == e
      ensures |columns| > 0 ==>
                r == Ok(Evaluate(columns, Generated(model, e, draw).0))
                && e' == Generated(model, e, draw).1
    {
      var numObs := |columns|;
      if numObs == 0 {
        return Err(NoObservables), e;
      }
      var ret := new real[numObs];
      var params;
      params, e' := GenerateParameters(model, e, draw);
      for j := 0 to numObs
        invariant forall k :: 0 <= k < j ==> ret[k] == columns[k](params)
      {
        ret[j] := columns[j](params);
      }
      assert ret[..] == Evaluate(columns, params);
      r := Ok(ret[..]);
    }

    /** `setObservable(j, obs)`: column `j` exists or is the next one; the
        model must provide the observable. It replaces column `j`, or
        appends it. A refusal changes nothing. */
    method SetObservable(j: nat, obs: ObservableKey) returns (r: Outcome)
      modifies this
      ensures j > |old(columns)| ==> r == Fail(OutOfRange(IndexOutOfRange)) && columns == old(columns)
      ensures j <= |old(columns)| && GetObservableFunction(model, obs).Err? ==>
                r == Fail(GetObservableFunction(model, obs).error) && columns == old(columns)
      ensures j < |old(columns)| && GetObservableFunction(model, obs).Ok? ==>
                r == Pass && columns == old(columns)[j := GetObservableFunction(model, obs).value]
      ensures j == |old(columns)| && GetObservableFunction(model, obs).Ok? ==>
                r == Pass && columns == old(columns) + [GetObservableFunction(model, obs).value]
    {
      var length := |columns|;
      if j > length {
        return Fail(OutOfRange(IndexOutOfRange));
      }
      var func := GetObservableFunction(model, obs);
      if func.Err? {
        return Fail(func.error);
      }
      if j < length {
        columns := columns[j := func.value];
      } else {
        columns := columns + [func.value];
      }
      r := Pass;
    }
  }
}
