/** The fit model for transport through a channel with destructive
    interference: its two fitting parameters `f` and `norm`, how an initial
    guess is read, the default guesses, and the sign clean-up applied to a
    fitted parameter vector. */
module InterferenceFits {
  import opened Errors

  const F := 0
  const Norm := 1
  /** `nfit`, the number of fitting parameters. */
  const NumFit := 2

  const MissingF := "Initial guesses for the InterferenceFitModel must specify the \"f\" parameter."

  // ---------------------------------------------------------------------
  // create_initial_guess
  // ---------------------------------------------------------------------

  /** `create_initial_guess`: `f` is required, `norm` falls back to 1. */
  function CreateInitialGuess(values: map<string, real>): (r: Result<seq<real>>)
    ensures r.Ok? <==> "f" in values
    ensures r.Err? ==> r.error == InvalidArgument(MissingF)
    ensures r.Ok? ==> |r.value| == NumFit
  {
    if "f" !in values then Err(InvalidArgument(MissingF))
    else Ok([values["f"], if "norm" in values then values["norm"] else 1.0])
  }

  /** The named values a parameter vector stands for. */
  function Named(p: seq<real>): map<string, real>
    requires |p| == NumFit
  {
    map["f" := p[F], "norm" := p[Norm]]
  }

  /** Naming every parameter and reading the guess back gives the vector. */
  lemma GuessRoundTrip(p: seq<real>)
    requires |p| == NumFit
    ensures CreateInitialGuess(Named(p)) == Ok(p)
  {
    var m := Named(p);
    assert "f" in m && "norm" in m;
    assert m["f"] == p[F] && m["norm"] == p[Norm];
    assert [p[F], p[Norm]] == p;
  }

  /** A guess read from names takes `f` from its name, and `norm` is 1
      when it is not given. */
  lemma GuessEntries(values: map<string, real>)
    requires "f" in values
    ensures var g := CreateInitialGuess(values).value;
            g[F] == values["f"] && g[Norm] == (if "norm" in values then values["norm"] else 1.0)
    ensures "norm" !in values ==> CreateInitialGuess(values) == CreateInitialGuess(values["norm" := 1.0])
  {
  }

  // ---------------------------------------------------------------------
  // append_default_guesses
  // ---------------------------------------------------------------------

  const ListF: seq<real> := [1.0, 10.0, 100.0]

  /** The default guesses for the first `n` values of `f`, in order, each
      with `norm` 1. */
  function Defaults(n: nat): (r: seq<seq<real>>)
    requires n <= |ListF|
    ensures |r| == n
  {
    if n == 0 then [] else Defaults(n - 1) + [[ListF[n - 1], 1.0]]
  }

  function DefaultGuesses(): seq<seq<real>> {
    Defaults(|ListF|)
  }

  /** The `k`-th default guess is the `k`-th `f` with `norm` 1. */
  lemma {:induction false} DefaultsAt(n: nat, k: nat)
    requires k < n <= |ListF|
    ensures Defaults(n)[k] == [ListF[k], 1.0]
  {
    if k < n - 1 {
      DefaultsAt(n - 1, k);
    }
  }

  /** The three default guesses: `f` = 1, 10 and 100 in that order. */
  lemma DefaultGuessesValues()
    ensures DefaultGuesses() == [[1.0, 1.0], [10.0, 1.0], [100.0, 1.0]]
  {
    DefaultsAt(3, 0);
    DefaultsAt(3, 1);
    DefaultsAt(3, 2);
  }

  /** `append_default_guesses`: appends a guess for each `f`; what the list
      held before is kept in front. */
  method AppendDefaultGuesses(guess: seq<seq<real>>) returns (ret: seq<seq<real>>)
    ensures ret == guess + DefaultGuesses()
  {
    ret := guess;
    for i := 0 to |ListF|
      invariant ret == guess + Defaults(i)
    {
      var init := [ListF[i], 1.0];
      ret := ret + [init];
    }
  }

  // ---------------------------------------------------------------------
  // process_fit_parameters
  // ---------------------------------------------------------------------

  /** Sometimes the fit drives `f` negative; the model depends only on its
      square, so it is negated back. */
  function Processed(p: seq<real>): seq<real>
    requires |p| > F
  {
    if p[F] < 0.0 then p[F := -p[F]] else p
  }

  /** `Processed` makes `f` its absolute value, keeps every other entry, and
      changes the vector exactly when `f` is negative. */
  lemma ProcessedSpec(p: seq<real>)
    requires |p| > F
    ensures |Processed(p)| == |p|
    ensures Processed(p)[F] == (if p[F] < 0.0 then -p[F] else p[F])
    ensures Processed(p)[F] >= 0.0
    ensures forall k :: F < k < |p| ==> Processed(p)[k] == p[k]
    ensures Processed(p) != p <==> p[F] < 0.0
  {
    if p[F] < 0.0 {
      assert Processed(p)[F] != p[F];
    }
  }

  /** Processing a processed vector changes nothing. */
  lemma ProcessedIdempotent(p: seq<real>)
    requires |p| > F
    ensures Processed(Processed(p)) == Processed(p)
  {
    ProcessedSpec(p);
  }

  /** The default guesses are left as they are. */
  lemma DefaultGuessesProcessed()
    ensures forall k :: 0 <= k < |DefaultGuesses()| ==>
      |DefaultGuesses()[k]| > F && Processed(DefaultGuesses()[k]) == DefaultGuesses()[k]
  {
    DefaultGuessesValues();
  }

  /** `process_fit_parameters`, on the fitted vector in place. */
  method ProcessFitParameters(fitparams: array<real>)
    requires fitparams.Length > F
    modifies fitparams
    ensures fitparams[..] == Processed(old(fitparams[..]))
  {
    if fitparams[F] < 0.0 {
      fitparams[F] := -fitparams[F];
    }
  }
}
