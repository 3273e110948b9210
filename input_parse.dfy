/** The simulator's input deck: a sequence of lines, each a command word
    and its arguments, with `model ... endmodel` blocks that nest. Reading
    gathers what the deck asks for; problems that are not fatal are reported
    with their line number and reading goes on. */
module SimulatorInputParse {
  import opened Errors
  import StringTools

  /** `ModelInformation`: a model block's type name, its distribution lines
      (the tokens after the command word) and its nested blocks. */
  datatype ModelInformation = ModelInformation(name: string, dists: seq<seq<string>>,
                                               submodels: seq<ModelInformation>)

  const EmptyInfo := ModelInformation("", [], [])

  /** A message `printError` writes, with the line number it gives. */
  datatype Report = Report(lineno: nat, message: string)

  const DefaultHistFile := "histogram.dat"
  const MissingEndmodel := "Missing \"endmodel\" command."
  const NoSubmodelType := "No submodel type specified."
  const NoDistributionType := "No distribution type specified."
  const BinNotImplemented := "bin handler not implemented."
  const NoModelType := "No model type specified."
  const NoObservable := "No observable specified."
  const NoOutputFile := "No output file name specified."
  const TrialsNotImplemented := "trials handler not implemented."

  function UnknownModelCommand(command: string): string {
    "Unknown model command: \"" + command + "\"."
  }

  function UnknownCommand(command: string): string {
    "Unknown command: \"" + command + "\"."
  }

  // ---------------------------------------------------------------------
  // Lines of the deck
  // ---------------------------------------------------------------------

  /** A line as both readers see it: blank (no tokens), or a command word,
      lower-cased, and the tokens after it. */
  datatype Line = Blank | Command(command: string, args: seq<string>)

  function Parse(line: string): Line {
    var tokens := StringTools.Tokens(line, 0);
    if |tokens| == 0 then Blank else Command(StringTools.Lower(tokens[0]), tokens[1..])
  }

  /** Tokenizing a line and popping its lower-cased command word. */
  method ParseLine(line: string) returns (r: Line)
    ensures r == Parse(line)
  {
    var tokens := StringTools.Tokenize(line);
    if |tokens| == 0 {
      return Blank;
    }
    var command := StringTools.ToLower(tokens[0]);
    r := Command(command, tokens[1..]);
  }

  // ---------------------------------------------------------------------
  // readModel
  // ---------------------------------------------------------------------

  /** Where reading a model block stopped: what it gathered, the next line
      to read, the line counter, the reports so far, and whether it threw. */
  datatype ModelRead = ModelRead(info: ModelInformation, pos: nat, lineno: nat,
                                 log: seq<Report>, outcome: Outcome)

  /** Reading a model block from line `pos`, with `acc` gathered so far.
      A blank line is skipped without counting; `endmodel` ends the block;
      a nested `model` is read whole, then kept under its lower-cased type
      name or, with no name, reported and dropped; any other command is a
      `ModelCommand`. Running out of lines throws. */
  function ReadModelFrom(lines: seq<string>, pos: nat, lineno: nat, acc: ModelInformation,
                         log: seq<Report>): (r: ModelRead)
    requires pos <= |lines|
    ensures r.pos <= |lines|
    ensures r.outcome.Pass? ==> pos < r.pos
    decreases |lines| - pos
  {
    if pos == |lines| then ModelRead(acc, pos, lineno, log, Fail(RuntimeError(MissingEndmodel)))
    else match Parse(lines[pos])
      case Blank => ReadModelFrom(lines, pos + 1, lineno, acc, log)
      case Command(command, args) =>
        if command == "endmodel" then ModelRead(acc, pos + 1, lineno, log, Pass)
        else if command == "model" then
          var sub := ReadModelFrom(lines, pos + 1, lineno + 1, EmptyInfo, log);
          if sub.outcome.Fail? then ModelRead(acc, sub.pos, sub.lineno, sub.log, sub.outcome)
          else
            var next := Nested(acc, sub, args, lineno);
            ReadModelFrom(lines, sub.pos, sub.lineno + 1, next.0, next.1)
        else
          var next := ModelCommand(acc, log, command, args, lineno);
          ReadModelFrom(lines, pos + 1, lineno + 1, next.0, next.1)
  }

  /** A nested block read whole: kept under its lower-cased type name, or,
      with none given, reported at the `model` line and dropped. */
  function Nested(acc: ModelInformation, sub: ModelRead, args: seq<string>, lineno: nat)
    : (ModelInformation, seq<Report>)
  {
    if |args| == 0 then (acc, sub.log + [Report(lineno, NoSubmodelType)])
    else (acc.(submodels := acc.submodels + [sub.info.(name := StringTools.Lower(args[0]))]), sub.log)
  }

  /** A one-line command inside a block: `distribution` keeps its arguments
      (reported when there are none), anything else is reported. */
  function ModelCommand(acc: ModelInformation, log: seq<Report>, command: string, args: seq<string>,
                        lineno: nat): (ModelInformation, seq<Report>)
  {
    if command == "distribution" then
      if |args| == 0 then (acc, log + [Report(lineno, NoDistributionType)])
      else (acc.(dists := acc.dists + [args]), log)
    else (acc, log + [Report(lineno, UnknownModelCommand(command))])
  }

  /** What a model block can hold: no empty distribution line, and nested
      blocks named in lower case, recursively. */
  predicate Stored(info: ModelInformation)
    decreases info
  {
    (forall k :: 0 <= k < |info.dists| ==> |info.dists[k]| > 0)
    && forall i :: 0 <= i < |info.submodels| ==>
         StringTools.Lower(info.submodels[i].name) == info.submodels[i].name
         && Stored(info.submodels[i])
  }

  /** Reading keeps what it gathers well formed. */
  lemma {:induction false} ReadModelStored(lines: seq<string>, pos: nat, lineno: nat,
                                           acc: ModelInformation, log: seq<Report>)
    requires pos <= |lines| && Stored(acc)
    ensures Stored(ReadModelFrom(lines, pos, lineno, acc, log).info)
    decreases |lines| - pos
  {
    if pos < |lines| {
      match Parse(lines[pos])
      case Blank =>
        ReadModelStored(lines, pos + 1, lineno, acc, log);
      case Command(command, args) =>
        if command == "endmodel" {
        } else if command == "model" {
          ReadModelStored(lines, pos + 1, lineno + 1, EmptyInfo, log);
          var sub := ReadModelFrom(lines, pos + 1, lineno + 1, EmptyInfo, log);
          if sub.outcome.Pass? {
            var next := Nested(acc, sub, args, lineno);
            if |args| > 0 {
              var named := sub.info.(name := StringTools.Lower(args[0]));
              StringTools.LowerIdempotent(args[0]);
              assert next.0.submodels == acc.submodels + [named];
              assert Stored(next.0) by {
                assert forall i :: 0 <= i < |acc.submodels| ==> next.0.submodels[i] == acc.submodels[i];
                assert next.0.submodels[|acc.submodels|] == named;
              }
            }
            ReadModelStored(lines, sub.pos, sub.lineno + 1, next.0, next.1);
          }
        } else {
          var next := ModelCommand(acc, log, command, args, lineno);
          assert Stored(next.0) by {
            assert next.0.submodels == acc.submodels;
          }
          ReadModelStored(lines, pos + 1, lineno + 1, next.0, next.1);
        }
    }
  }

  /** With no `endmodel` left in the input, reading a block throws. */
  lemma {:induction false} NoEndmodelThrows(lines: seq<string>, pos: nat, lineno: nat,
                                            acc: ModelInformation, log: seq<Report>)
    requires pos <= |lines|
    requires forall k :: pos <= k < |lines| ==> Parse(lines[k]).Blank? || Parse(lines[k]).command != "endmodel"
    ensures ReadModelFrom(lines, pos, lineno, acc, log).outcome == Fail(RuntimeError(MissingEndmodel))
    decreases |lines| - pos
  {
    if pos < |lines| {
      match Parse(lines[pos])
      case Blank =>
        NoEndmodelThrows(lines, pos + 1, lineno, acc, log);
      case Command(command, args) =>
        if command == "model" {
          NoEndmodelThrows(lines, pos + 1, lineno + 1, EmptyInfo, log);
        } else {
          var next := ModelCommand(acc, log, command, args, lineno);
          NoEndmodelThrows(lines, pos + 1, lineno + 1, next.0, next.1);
        }
    }
  }

  /** A run of blank lines is skipped and leaves the line counter as it was. */
  lemma {:induction false} BlankLinesNotCounted(lines: seq<string>, pos: nat, q: nat, lineno: nat,
                                                acc: ModelInformation, log: seq<Report>)
    requires pos <= q <= |lines|
    requires forall k :: pos <= k < q ==> Parse(lines[k]) == Blank
    ensures ReadModelFrom(lines, pos, lineno, acc, log) == ReadModelFrom(lines, q, lineno, acc, log)
    decreases q - pos
  {
    if pos < q {
      assert Parse(lines[pos]) == Blank;
      assert ReadModelFrom(lines, pos, lineno, acc, log) == ReadModelFrom(lines, pos + 1, lineno, acc, log);
      BlankLinesNotCounted(lines, pos + 1, q, lineno, acc, log);
    }
  }

  /** Reading sees a line only through its parsed form, so command words
      differing only in case, or in the white space between tokens, are
      read alike. */
  lemma {:induction false} ReadModelParsed(lines: seq<string>, lines': seq<string>, pos: nat, lineno: nat,
                                           acc: ModelInformation, log: seq<Report>)
    requires |lines| == |lines'| && pos <= |lines|
    requires forall k :: pos <= k < |lines| ==> Parse(lines[k]) == Parse(lines'[k])
    ensures ReadModelFrom(lines, pos, lineno, acc, log) == ReadModelFrom(lines', pos, lineno, acc, log)
    decreases |lines| - pos
  {
    if pos < |lines| {
      match Parse(lines[pos])
      case Blank =>
        ReadModelParsed(lines, lines', pos + 1, lineno, acc, log);
      case Command(command, args) =>
        if command == "endmodel" {
        } else if command == "model" {
          ReadModelParsed(lines, lines', pos + 1, lineno + 1, EmptyInfo, log);
          var sub := ReadModelFrom(lines, pos + 1, lineno + 1, EmptyInfo, log);
          if sub.outcome.Pass? {
            var next := Nested(acc, sub, args, lineno);
            ReadModelParsed(lines, lines', sub.pos, sub.lineno + 1, next.0, next.1);
          }
        } else {
          var next := ModelCommand(acc, log, command, args, lineno);
          ReadModelParsed(lines, lines', pos + 1, lineno + 1, next.0, next.1);
        }
    }
  }

  /** A small block, read from line counter 1: a distribution, a blank line,
      a named nested block, an unknown command and the closing `endmodel`.
      The unknown command, on the fifth line, is reported as line 4. */
  lemma SmallModelBlock(lines: seq<string>)
    requires |lines| == 6
    requires Parse(lines[0]) == Command("distribution", ["ef", "constant", "0"])
    requires Parse(lines[1]) == Blank
    requires Parse(lines[2]) == Command("model", ["Channel"])
    requires Parse(lines[3]) == Command("endmodel", [])
    requires Parse(lines[4]) == Command("bogus", [])
    requires Parse(lines[5]) == Command("endmodel", [])
    ensures ReadModelFrom(lines, 0, 1, EmptyInfo, [])
         == ModelRead(ModelInformation("", [["ef", "constant", "0"]], [ModelInformation("channel", [], [])]),
                      6, 5, [Report(4, UnknownModelCommand("bogus"))], Pass)
  {
    LowerChannel();
    var acc := ModelInformation("", [["ef", "constant", "0"]], []);
    var acc2 := acc.(submodels := [ModelInformation("channel", [], [])]);
    var log := [Report(4, UnknownModelCommand("bogus"))];
    assert ReadModelFrom(lines, 5, 5, acc2, log) == ModelRead(acc2, 6, 5, log, Pass);
    assert ReadModelFrom(lines, 4, 4, acc2, []) == ReadModelFrom(lines, 5, 5, acc2, log);
    var inner := ReadModelFrom(lines, 3, 3, EmptyInfo, []);
    assert inner == ModelRead(EmptyInfo, 4, 3, [], Pass);
    assert ["Channel"][0] == "Channel";
    assert EmptyInfo.(name := "channel") == ModelInformation("channel", [], []);
    assert inner.info.(name := StringTools.Lower(["Channel"][0])) == ModelInformation("channel", [], []);
    assert acc.submodels + [ModelInformation("channel", [], [])] == [ModelInformation("channel", [], [])];
    assert Nested(acc, inner, ["Channel"], 2) == (acc2, []);
    assert ReadModelFrom(lines, 2, 2, acc, []) == ReadModelFrom(lines, 4, 4, acc2, []);
    assert ReadModelFrom(lines, 1, 2, acc, []) == ReadModelFrom(lines, 2, 2, acc, []);
    assert [] + [["ef", "constant", "0"]] == [["ef", "constant", "0"]];
    assert ModelCommand(EmptyInfo, [], "distribution", ["ef", "constant", "0"], 1) == (acc, []);
  }

  lemma LowerChannel()
    ensures StringTools.Lower("Channel") == "channel"
  {
    assert StringTools.LowerChar('C') == 'c';
  }

  /** `readModel`: reads lines until the block's `endmodel`, reading nested
      blocks by recursion. */
  method ReadModel(lines: seq<string>, pos: nat, lineno: nat, log: seq<Report>) returns (r: ModelRead)
    requires pos <= |lines|
    ensures r == ReadModelFrom(lines, pos, lineno, EmptyInfo, log)
    decreases |lines| - pos
  {
    var ret := EmptyInfo;
    var p: nat := pos;
    var ln: nat := lineno;
    var lg := log;
    while p < |lines|
      invariant pos <= p <= |lines|
      invariant ReadModelFrom(lines, p, ln, ret, lg) == ReadModelFrom(lines, pos, lineno, EmptyInfo, log)
      decreases |lines| - p
    {
      var line := ParseLine(lines[p]);
      if line.Blank? {
        p := p + 1;
        continue;
      }
      if line.command == "endmodel" {
        return ModelRead(ret, p + 1, ln, lg, Pass);
      } else if line.command == "model" {
        var sub := ReadModel(lines, p + 1, ln + 1, lg);
        if sub.outcome.Fail? {
          return ModelRead(ret, sub.pos, sub.lineno, sub.log, sub.outcome);
        }
        ret, lg := AddNested(ret, sub, line.args, ln);
        p, ln := sub.pos, sub.lineno + 1;
      } else {
        ret, lg := ApplyModelCommand(ret, lg, line.command, line.args, ln);
        p, ln := p + 1, ln + 1;
      }
    }
    r := ModelRead(ret, p, ln, lg, Fail(RuntimeError(MissingEndmodel)));
  }

  /** The `model` branch of `readModel` once the nested block is read. */
  method AddNested(acc: ModelInformation, sub: ModelRead, args: seq<string>, myLineno: nat)
    returns (ret: ModelInformation, log: seq<Report>)
    ensures (ret, log) == Nested(acc, sub, args, myLineno)
  {
    ret, log := acc, sub.log;
    if |args| == 0 {
      log := log + [Report(myLineno, NoSubmodelType)];
    } else {
      var name := StringTools.ToLower(args[0]);
      ret := ret.(submodels := ret.submodels + [sub.info.(name := name)]);
    }
  }

  /** The branches of `readModel` for one-line commands. */
  method ApplyModelCommand(acc: ModelInformation, log: seq<Report>, command: string, args: seq<string>,
                           lineno: nat) returns (ret: ModelInformation, lg: seq<Report>)
    ensures (ret, lg) == ModelCommand(acc, log, command, args, lineno)
  {
    ret, lg := acc, log;
    if command == "distribution" {
      if |args| == 0 {
        lg := lg + [Report(lineno, NoDistributionType)];
      } else {
        ret := ret.(dists := ret.dists + [args]);
      }
    } else {
      lg := lg + [Report(lineno, UnknownModelCommand(command))];
    }
  }

  // ---------------------------------------------------------------------
  // readInput
  // ---------------------------------------------------------------------

  /** What the top level of the deck sets: the top model, the observable
      names by axis, the histogram file name, and the reports. */
  datatype InputState = InputState(topModel: ModelInformation, usedObservables: map<nat, string>,
                                   histfilename: string, log: seq<Report>)

  /** Reading the top level from line `pos`. `model` reads a block and,
      when named, makes it the top model; other commands are a
      `TopCommand`. A block that throws stops reading, what was set so far
      kept. */
  function ReadInputFrom(lines: seq<string>, pos: nat, lineno: nat, st: InputState): (InputState, Outcome)
    requires pos <= |lines|
    decreases |lines| - pos
  {
    if pos == |lines| then (st, Pass)
    else match Parse(lines[pos])
      case Blank => ReadInputFrom(lines, pos + 1, lineno, st)
      case Command(command, args) =>
        if command == "model" then
          var sub := ReadModelFrom(lines, pos + 1, lineno + 1, EmptyInfo, st.log);
          if sub.outcome.Fail? then (st.(log := sub.log), sub.outcome)
          else ReadInputFrom(lines, sub.pos, sub.lineno + 1, TopModel(st, sub, args, lineno))
        else ReadInputFrom(lines, pos + 1, lineno + 1, TopCommand(st, command, args, lineno))
  }

  /** A top-level block read whole: the top model under its lower-cased
      type name, or, with none given, reported at the `model` line. */
  function TopModel(st: InputState, sub: ModelRead, args: seq<string>, lineno: nat): InputState {
    if |args| == 0 then st.(log := sub.log + [Report(lineno, NoModelType)])
    else st.(topModel := sub.info.(name := StringTools.Lower(args[0])), log := sub.log)
  }

  /** A one-line top-level command. `bin` and `trials` are reported as not
      implemented; `observable_y` names axis 1 and `observable` or
      `observable_x` axis 0, an axis keeping the first name given; `output`
      sets the file name; anything else is reported. */
  function TopCommand(st: InputState, command: string, args: seq<string>, lineno: nat): InputState {
    if command == "bin" || command == "bin_x" || command == "bin_y" then
      st.(log := st.log + [Report(lineno, BinNotImplemented)])
    else if command == "observable" || command == "observable_x" || command == "observable_y" then
      if |args| == 0 then st.(log := st.log + [Report(lineno, NoObservable)])
      else
        var axis: nat := if command == "observable_y" then 1 else 0;
        if axis in st.usedObservables then st
        else st.(usedObservables := st.usedObservables[axis := args[0]])
    else if command == "output" then
      if |args| == 0 then st.(log := st.log + [Report(lineno, NoOutputFile)])
      else st.(histfilename := args[0])
    else if command == "trials" then st.(log := st.log + [Report(lineno, TrialsNotImplemented)])
    else st.(log := st.log + [Report(lineno, UnknownCommand(command))])
  }

  /** The first observable given for an axis stays; a later one for the
      same axis changes nothing. */
  lemma ObservableFirstWins(st: InputState, command: string, name: string, lineno: nat)
    requires command == "observable" || command == "observable_x" || command == "observable_y"
    ensures var axis: nat := if command == "observable_y" then 1 else 0;
            var st' := TopCommand(st, command, [name], lineno);
            axis in st'.usedObservables
            && st'.usedObservables[axis] == (if axis in st.usedObservables then st.usedObservables[axis] else name)
            && st'.histfilename == st.histfilename && st'.topModel == st.topModel
  {
  }

  /** Only an `output` line with a name changes the file name. */
  lemma OutputSetsFileName(st: InputState, name: string, rest: seq<string>, lineno: nat)
    ensures TopCommand(st, "output", [name] + rest, lineno).histfilename == name
    ensures TopCommand(st, "output", [], lineno).histfilename == st.histfilename
  {
    assert ([name] + rest)[0] == name;
  }

  /** A deck whose first block has no `endmodel` stops there with the
      block's error, the top model untouched. */
  lemma UnclosedTopModel(lines: seq<string>, st: InputState, args: seq<string>)
    requires |lines| > 0 && Parse(lines[0]) == Command("model", args)
    requires forall k :: 1 <= k < |lines| ==> Parse(lines[k]).Blank? || Parse(lines[k]).command != "endmodel"
    ensures var r := ReadInputFrom(lines, 0, 1, st);
            r.1 == Fail(RuntimeError(MissingEndmodel)) && r.0.topModel == st.topModel
  {
    NoEndmodelThrows(lines, 1, 2, EmptyInfo, st.log);
  }

  class SimulatorInput {
    var topModel: ModelInformation
    var usedObservables: map<nat, string>
    var histfilename: string
    /** What `printError` has written. */
    var log: seq<Report>

    constructor()
      ensures topModel == EmptyInfo && usedObservables == map[] && log == []
      ensures histfilename == DefaultHistFile
    {
      topModel := EmptyInfo;
      usedObservables := map[];
      histfilename := DefaultHistFile;
      log := [];
    }

    function State(): InputState
      reads this
    {
      InputState(topModel, usedObservables, histfilename, log)
    }

    /** `readInput`: reads the deck from its first line, counting from 1. */
    method ReadInput(lines: seq<string>) returns (r: Outcome)
      modifies this
      ensures (State(), r) == ReadInputFrom(lines, 0, 1, old(State()))
    {
      var p: nat := 0;
      var lineno: nat := 1;
      while p < |lines|
        invariant p <= |lines|
        invariant ReadInputFrom(lines, p, lineno, State()) == ReadInputFrom(lines, 0, 1, old(State()))
        decreases |lines| - p
      {
        var stop;
        p, lineno, stop, r := ReadLine(lines, p, lineno);
        if stop {
          return;
        }
      }
      r := Pass;
    }

    /** One pass of the `readInput` loop, from the line at `p`: either the
        reading stops there with `r`, or it goes on from `np`. */
    method ReadLine(lines: seq<string>, p: nat, lineno: nat) returns (np: nat, nl: nat, stop: bool, r: Outcome)
      requires p < |lines|
      modifies this
      ensures p < np <= |lines|
      ensures stop ==> (State(), r) == ReadInputFrom(lines, p, lineno, old(State()))
      ensures !stop ==> ReadInputFrom(lines, np, nl, State()) == ReadInputFrom(lines, p, lineno, old(State()))
    {
      var line := ParseLine(lines[p]);
      stop, r := false, Pass;
      if line.Blank? {
        np, nl := p + 1, lineno;
      } else if line.command == "model" {
        var sub := ReadModel(lines, p + 1, lineno + 1, log);
        if sub.outcome.Fail? {
          log := sub.log;
          np, nl, stop, r := p + 1, lineno, true, sub.outcome;
        } else {
          SetTopModel(sub, line.args, lineno);
          np, nl := sub.pos, sub.lineno + 1;
        }
      } else {
        Apply(line.command, line.args, lineno);
        np, nl := p + 1, lineno + 1;
      }
    }

    /** The `model` branch of `readInput` once the block is read. */
    method SetTopModel(sub: ModelRead, args: seq<string>, myLineno: nat)
      modifies this
      ensures State() == TopModel(old(State()), sub, args, myLineno)
    {
      log := sub.log;
      if |args| == 0 {
        log := log + [Report(myLineno, NoModelType)];
      } else {
        var name := StringTools.ToLower(args[0]);
        topModel := sub.info.(name := name);
      }
    }

    /** The branches of `readInput` for one-line commands. */
    method Apply(command: string, args: seq<string>, lineno: nat)
      modifies this
      ensures State() == TopCommand(old(State()), command, args, lineno)
    {
      if command == "bin" || command == "bin_x" || command == "bin_y" {
        log := log + [Report(lineno, BinNotImplemented)];
      } else if command == "observable" || command == "observable_x" || command == "observable_y" {
        if |args| == 0 {
          log := log + [Report(lineno, NoObservable)];
        } else {
          var axis: nat := if command == "observable_y" then 1 else 0;
          if axis !in usedObservables {
            usedObservables := usedObservables[axis := args[0]];
          }
        }
      } else if command == "output" {
        if |args| == 0 {
          log := log + [Report(lineno, NoOutputFile)];
        } else {
          histfilename := args[0];
        }
      } else if command == "trials" {
        log := log + [Report(lineno, TrialsNotImplemented)];
      } else {
        log := log + [Report(lineno, UnknownCommand(command))];
      }
    }
  }

  // ---------------------------------------------------------------------
  // ModelInformation::to_string
  // ---------------------------------------------------------------------

  const Indent := "   "
  const DistributionsHeader := "   Distributions:"
  const DistIndent := "      "
  const SubmodelHeader := "   Submodel type: "

  /** The distributions header is one line. */
  lemma HeaderSingleLine()
    ensures forall i :: 0 <= i < |DistributionsHeader| ==> DistributionsHeader[i] != '\n'
  {
  }

  /** A submodel's rendering with every line after the first indented. */
  function Indented(s: string): string {
    StringTools.Replaced(s, "\n", "\n" + Indent)
  }

  /** What rendering needs: every distribution line, at every depth, has a
      first token to print. */
  predicate Renderable(info: ModelInformation)
    decreases info
  {
    (forall k :: 0 <= k < |info.dists| ==> |info.dists[k]| > 0)
    && forall i :: 0 <= i < |info.submodels| ==> Renderable(info.submodels[i])
  }

  /** Whatever the reader stores can be rendered. */
  lemma {:induction false} StoredRenderable(info: ModelInformation)
    requires Stored(info)
    ensures Renderable(info)
    decreases info
  {
    forall i | 0 <= i < |info.submodels|
      ensures Renderable(info.submodels[i])
    {
      StoredRenderable(info.submodels[i]);
    }
  }

  /** `to_string`: the name, the first token of each distribution line, and
      each nested block's rendering, indented. */
  function Rendered(info: ModelInformation): string
    requires Renderable(info)
    decreases info, 1
  {
    Head(info.name) + DistLines(info.dists, |info.dists|) + SubmodelLines(info, |info.submodels|)
  }

  function Head(name: string): string {
    name + ("\n" + DistributionsHeader)
  }

  /** One distribution's line: its kind, the first token. */
  function DistLine(dist: seq<string>): string
    requires |dist| > 0
  {
    "\n" + DistIndent + dist[0]
  }

  /** One nested block's part: the header, then its rendering indented. */
  function SubmodelLine(text: string): string {
    "\n" + SubmodelHeader + Indented(text)
  }


  function DistLines(dists: seq<seq<string>>, n: nat): string
    requires n <= |dists| && forall k :: 0 <= k < |dists| ==> |dists[k]| > 0
  {
    if n == 0 then "" else DistLines(dists, n - 1) + DistLine(dists[n - 1])
  }

  function SubmodelLines(info: ModelInformation, n: nat): string
    requires Renderable(info) && n <= |info.submodels|
    decreases info, 0, n
  {
    if n == 0 then ""
    else SubmodelLines(info, n - 1) + SubmodelLine(Rendered(info.submodels[n - 1]))
  }

  /** One more nested block. */
  lemma SubmodelLinesStep(info: ModelInformation, i: nat)
    requires Renderable(info) && i < |info.submodels|
    ensures Renderable(info.submodels[i])
    ensures SubmodelLines(info, i + 1) == SubmodelLines(info, i) + SubmodelLine(Rendered(info.submodels[i]))
  {
  }

  /** Text without a line break is not indented. */
  lemma IndentSingleLine(s: string)
    requires forall i :: 0 <= i < |s| ==> s[i] != '\n'
    ensures Indented(s) == s
  {
    forall p | 0 <= p
      ensures !StringTools.MatchAt(s, "\n", p)
    {
      if p + 1 <= |s| {
        assert s[p..p + 1] == [s[p]];
      }
    }
    StringTools.ReplacedNoMatch(s, "\n", "\n" + Indent);
  }

  /** Each line break gains the indent after it: the first line is kept and
      the rest is indented in turn. */
  lemma IndentSplit(a: string, b: string)
    requires forall i :: 0 <= i < |a| ==> a[i] != '\n'
    ensures Indented(a + "\n" + b) == a + "\n" + Indent + Indented(b)
  {
    var s := a + "\n" + b;
    assert StringTools.MatchAt(s, "\n", |a|) by {
      assert s[|a|..|a| + 1] == "\n";
    }
    forall q | 0 <= q < |a|
      ensures !StringTools.MatchAt(s, "\n", q)
    {
      assert s[q..q + 1][0] == a[q];
    }
    StringTools.SkipUnmatched(s, "\n", "\n" + Indent, 0, |a|);
    assert s[0..|a|] == a;
    assert StringTools.ReplacedFrom(s, "\n", "\n" + Indent, |a|)
        == "\n" + Indent + StringTools.ReplacedFrom(s, "\n", "\n" + Indent, |a| + 1);
    ShiftReplaced(a + "\n", b);
  }

  /** A block with one distribution line and one nested block holding
      nothing: only the nested block's lines are indented one level further. */
  lemma RenderedOneSubmodel(name: string, dist: seq<string>, subName: string)
    requires |dist| > 0
    requires forall i :: 0 <= i < |subName| ==> subName[i] != '\n'
    ensures Rendered(ModelInformation(name, [dist], [ModelInformation(subName, [], [])]))
         == name + ("\n" + DistributionsHeader) + ("\n" + DistIndent + dist[0])
            + ("\n" + SubmodelHeader + (subName + "\n" + Indent + DistributionsHeader))
  {
    var sub := ModelInformation(subName, [], []);
    var info := ModelInformation(name, [dist], [sub]);
    LeafIndented(subName);
    assert DistLines(info.dists, 1) == "" + DistLine(dist);
    assert SubmodelLines(info, 1) == "" + SubmodelLine(Rendered(sub));
  }

  /** A block holding nothing renders as its name and the distributions
      header; indenting it indents the header. */
  lemma LeafIndented(name: string)
    requires forall i :: 0 <= i < |name| ==> name[i] != '\n'
    ensures Indented(Rendered(ModelInformation(name, [], []))) == name + "\n" + Indent + DistributionsHeader
  {
    var leaf := ModelInformation(name, [], []);
    assert Rendered(leaf) == Head(name) + "" + "";
    assert Head(name) + "" + "" == Head(name);
    StringTools.ConcatAssoc(name, "\n", DistributionsHeader);
    assert Rendered(leaf) == name + "\n" + DistributionsHeader;
    HeaderSingleLine();
    IndentSingleLine(DistributionsHeader);
    IndentSplit(name, DistributionsHeader);
  }

  /** Replacing in a suffix is replacing in the text it ends. */
  lemma ShiftReplaced(a: string, b: string)
    ensures StringTools.ReplacedFrom(a + b, "\n", "\n" + Indent, |a|) == Indented(b)
  {
    ShiftReplacedFrom(a, b, 0);
  }

  lemma {:induction false} ShiftReplacedFrom(a: string, b: string, i: nat)
    requires i <= |b|
    ensures StringTools.ReplacedFrom(a + b, "\n", "\n" + Indent, |a| + i)
         == StringTools.ReplacedFrom(b, "\n", "\n" + Indent, i)
    decreases |b| - i
  {
    var s := a + b;
    if i < |b| {
      assert s[|a| + i..|a| + i + 1] == b[i..i + 1];
      assert StringTools.MatchAt(s, "\n", |a| + i) == StringTools.MatchAt(b, "\n", i);
      assert s[|a| + i] == b[i];
      ShiftReplacedFrom(a, b, i + 1);
    } else {
      assert s[|a| + i..] == b[i..];
    }
  }

  /** `to_string`, as the loops compute it: each nested block's rendering
      is copied up to and including each line break, followed by the
      indent. */
  method ToString(info: ModelInformation) returns (ret: string)
    requires Renderable(info)
    ensures ret == Rendered(info)
    decreases info, 1
  {
    ret := info.name;
    ret := ret + ("\n" + DistributionsHeader);
    for k := 0 to |info.dists|
      invariant ret == Head(info.name) + DistLines(info.dists, k)
    {
      ret := ret + ("\n" + DistIndent + info.dists[k][0]);
    }
    ghost var distPart := ret;
    for i := 0 to |info.submodels|
      invariant ret == distPart + SubmodelLines(info, i)
    {
      SubmodelLinesStep(info, i);
      ret := AppendSubmodel(ret, info.submodels[i]);
      StringTools.ConcatAssoc(distPart, SubmodelLines(info, i), SubmodelLine(Rendered(info.submodels[i])));
    }
  }

  /** One round of the submodel loop of `to_string`. */
  method AppendSubmodel(acc: string, sub: ModelInformation) returns (ret: string)
    requires Renderable(sub)
    ensures ret == acc + SubmodelLine(Rendered(sub))
    decreases sub, 2
  {
    ret := acc + ("\n" + SubmodelHeader);
    var s := ToString(sub);
    var block := IndentLines(s);
    ret := ret + block;
  }

  /** One round of the indenting loop: the text through the line break
      found, then the indent. */
  lemma IndentStep(s: string, start: nat, acc: string)
    requires start <= |s| && StringTools.Find(s, "\n", start).Some?
    ensures var p := StringTools.Find(s, "\n", start).value;
      acc + StringTools.ReplacedFrom(s, "\n", "\n" + Indent, start)
        == (acc + s[start..p + 1] + Indent) + StringTools.ReplacedFrom(s, "\n", "\n" + Indent, p + 1)
  {
    var p := StringTools.Find(s, "\n", start).value;
    StringTools.ReplaceStep(s, "\n", "\n" + Indent, start, acc);
    StringTools.FindSpec(s, "\n", start);
    assert s[start..p + 1] == s[start..p] + "\n" by {
      assert s[p..p + 1] == "\n";
    }
  }

  /** The indenting loop of `to_string`. */
  method IndentLines(s: string) returns (ret: string)
    ensures ret == Indented(s)
  {
    ret := "";
    var startPos := 0;
    var newlPos := StringTools.Find(s, "\n", startPos);
    while newlPos.Some?
      invariant startPos <= |s|
      invariant newlPos == StringTools.Find(s, "\n", startPos)
      invariant ret + StringTools.ReplacedFrom(s, "\n", "\n" + Indent, startPos) == Indented(s)
      decreases |s| - startPos
    {
      var p := newlPos.value;
      IndentStep(s, startPos, ret);
      ret := ret + s[startPos..p + 1];
      ret := ret + Indent;
      startPos := p + 1;
      newlPos := StringTools.Find(s, "\n", startPos);
    }
    StringTools.ReplacedAfterLast(s, "\n", "\n" + Indent, startPos);
    ret := ret + s[startPos..];
  }
}
