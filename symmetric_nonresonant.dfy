/** The fit model for nonresonant tunneling with symmetric coupling: its
    three fitting parameters `c`, `d` and `norm`, how an initial guess is
    read, the grid of default guesses, and the sign clean-up applied to a
    fitted parameter vector. */
module SymmetricNonresonantFits {
  import opened Errors

  const C := 0
  const D := 1
  const Norm := 2
  /** `nfit`, the number of fitting parameters. */
  const NumFit := 3

  const MissingCD := "Initial guesses for the SymmetricNonresonantFitModel must specify \"c\" and \"d\" parameters."

  // ---------------------------------------------------------------------
  // create_initial_guess
  // ---------------------------------------------------------------------

  /** `create_initial_guess`: `c` and `d` are required, `norm` falls back
      to 1. */
  function CreateInitialGuess(values: map<string, real>): (r: Result<seq<real>>)
    ensures r.Ok? <==> "c" in values && "d" in values
    ensures r.Err? ==> r.error == InvalidArgument(MissingCD)
    ensures r.Ok? ==> |r.value| == NumFit
  {
    if "c" !in values || "d" !in values then Err(InvalidArgument(MissingCD))
    else Ok([values["c"], values["d"], if "norm" in values then values["norm"] else 1.0])
  }

  /** The named values a parameter vector stands for. */
  function Named(p: seq<real>): map<string, real>
    requires |p| == NumFit
  {
    map["c" := p[C], "d" := p[D], "norm" := p[Norm]]
  }

  /** Naming every parameter and reading the guess back gives the vector. */
  lemma GuessRoundTrip(p: seq<real>)
    requires |p| == NumFit
    ensures CreateInitialGuess(Named(p)) == Ok(p)
  {
    var m := Named(p);
    assert "c" in m && "d" in m && "norm" in m;
    assert m["c"] == p[C] && m["d"] == p[D] && m["norm"] == p[Norm];
    assert [p[C], p[D], p[Norm]] == p;
  }

  /** A guess read from names takes each parameter from its own name, and
      `norm` is 1 when it is not given; names other than these three are
      ignored. */
  lemma GuessEntries(values: map<string, real>)
    requires "c" in values && "d" in values
    ensures var g := CreateInitialGuess(values).value;
            g[C] == values["c"] && g[D] == values["d"]
            && g[Norm] == (if "norm" in values then values["norm"] else 1.0)
    ensures "norm" !in values ==> CreateInitialGuess(values) == CreateInitialGuess(values["norm" := 1.0])
  {
  }

  // ---------------------------------------------------------------------
  // append_default_guesses
  // ---------------------------------------------------------------------

  const ListC: seq<real> := [50.0, 100.0, 200.0, 300.0, 400.0, 500.0]
  const ListD: seq<real> := [5.0, 10.0, 20.0, 30.0, 40.0, 50.0]

  /** The default guesses for one value of `c`: every `d`, with `norm` 1. */
  function Row(c: real): (r: seq<seq<real>>)
    ensures |r| == |ListD|
  {
    seq(|ListD|, j requires 0 <= j < |ListD| => [c, ListD[j], 1.0])
  }

  /** The default guesses for the first `n` values of `c`, in order. */
  function Grid(n: nat): (r: seq<seq<real>>)
    requires n <= |ListC|
    ensures |r| == |ListD| * n
  {
    if n == 0 then [] else Grid(n - 1) + Row(ListC[n - 1])
  }

  function DefaultGuesses(): seq<seq<real>> {
    Grid(|ListC|)
  }

  /** The grid runs over `c` first: guess `6 i + j` pairs the `i`-th `c`
      with the `j`-th `d`. */
  lemma {:induction false} GridAt(n: nat, i: nat, j: nat)
    requires n <= |ListC| && i < n && j < |ListD|
    ensures Grid(n)[|ListD| * i + j] == [ListC[i], ListD[j], 1.0]
  {
    var pre := Grid(n - 1);
    assert Grid(n) == pre + Row(ListC[n - 1]);
    if i < n - 1 {
      assert |ListD| * i + j < |ListD| * (i + 1) <= |pre|;
      GridAt(n - 1, i, j);
    } else {
      assert |ListD| * i + j == |pre| + j;
    }
  }

  /** There are 36 default guesses, each a full parameter vector with
      `norm` 1 and both `c` and `d` positive. */
  lemma DefaultGuessesShape()
    ensures |DefaultGuesses()| == 36
    ensures forall k :: 0 <= k < 36 ==>
      |DefaultGuesses()[k]| == NumFit && DefaultGuesses()[k][Norm] == 1.0
      && DefaultGuesses()[k][C] > 0.0 && DefaultGuesses()[k][D] > 0.0
  {
    forall k | 0 <= k < 36
      ensures |DefaultGuesses()[k]| == NumFit && DefaultGuesses()[k][Norm] == 1.0
              && DefaultGuesses()[k][C] > 0.0 && DefaultGuesses()[k][D] > 0.0
    {
      var i, j := k / 6, k % 6;
      GridAt(|ListC|, i, j);
      assert ListC[i] > 0.0 && ListD[j] > 0.0;
    }
  }

  /** `append_default_guesses`: for each `c`, for each `d`, appends the
      guess; what the list held before is kept in front. */
  method AppendDefaultGuesses(guess: seq<seq<real>>) returns (ret: seq<seq<real>>)
    ensures ret == guess + DefaultGuesses()
  {
    ret := guess;
    for i := 0 to |ListC|
      invariant ret == guess + Grid(i)
    {
      for j := 0 to |ListD|
        invariant ret == guess + Grid(i) + Row(ListC[i])[..j]
      {
        var init := [ListC[i], ListD[j], 1.0];
        assert Row(ListC[i])[..j + 1] == Row(ListC[i])[..j] + [init];
        ret := ret + [init];
      }
      assert Row(ListC[i])[..|ListD|] == Row(ListC[i]);
    }
  }

  // ---------------------------------------------------------------------
  // process_fit_parameters
  // ---------------------------------------------------------------------

  /** Sometimes the fit drives both `c` and `d` negative; the model only
      depends on them together, so both are negated back. */
  function Processed(p: seq<real>): seq<real>
    requires |p| > D
  {
    if p[C] < 0.0 && p[D] < 0.0 then p[C := -p[C]][D := -p[D]] else p
  }

  /** `Processed` keeps the length and `norm`, negates `c` and `d` exactly
      when both are negative, and leaves them never both negative. */
  lemma ProcessedSpec(p: seq<real>)
    requires |p| > D
    ensures |Processed(p)| == |p|
    ensures forall k :: D < k < |p| ==> Processed(p)[k] == p[k]
    ensures Processed(p) != p <==> p[C] < 0.0 && p[D] < 0.0
    ensures Processed(p) != p ==> Processed(p)[C] == -p[C] && Processed(p)[D] == -p[D]
    ensures !(Processed(p)[C] < 0.0 && Processed(p)[D] < 0.0)
  {
    if p[C] < 0.0 && p[D] < 0.0 {
      assert Processed(p)[C] != p[C];
    }
  }

  /** Processing a processed vector changes nothing. */
  lemma ProcessedIdempotent(p: seq<real>)
    requires |p| > D
    ensures Processed(Processed(p)) == Processed(p)
  {
    ProcessedSpec(p);
  }

  /** The default guesses are left as they are. */
  lemma DefaultGuessesProcessed()
    ensures forall k :: 0 <= k < |DefaultGuesses()| ==>
      |DefaultGuesses()[k]| > D && Processed(DefaultGuesses()[k]) == DefaultGuesses()[k]
  {
    DefaultGuessesShape();
  }

  /** `process_fit_parameters`, on the fitted vector in place. */
  method ProcessFitParameters(fitparams: array<real>)
    requires fitparams.Length > D
    modifies fitparams
    ensures fitparams[..] == Processed(old(fitparams[..]))
  {
    if fitparams[C] < 0.0 && fitparams[D] < 0.0 {
      fitparams[C] := -fitparams[C];
      fitparams[D] := -fitparams[D];
    }
  }
}
