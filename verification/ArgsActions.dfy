/** Replacing the action option and the output path, and putting them back. */
module ArgsActions {
  import opened Common
  import opened Args
  import opened ArgsIndices

  datatype ActionOpt = NoAction | Compile | GenAssembly | Preprocess {
    function Text(): string {
      match this
      case NoAction => ""
      case Compile => "-c"
      case GenAssembly => "-S"
      case Preprocess => "-E"
    }

    /** The order in which recorded actions are looked for. */
    function Rank(): nat {
      match this
      case Compile => 0
      case GenAssembly => 1
      case Preprocess => 2
      case NoAction => 3
    }
  }

  /** ActionOpt: the first of "-c", "-S" and "-E" that was recorded. */
  function ActionOf(flags: map<string, int>): (opt: ActionOpt)
    ensures opt.NoAction? || opt.Text() in flags
  {
    if "-c" in flags then Compile
    else if "-S" in flags then GenAssembly
    else if "-E" in flags then Preprocess
    else NoAction
  }

  /** SetActionOpt; None where it returns an error. */
  function WithAction(p: Parsed, opt: ActionOpt): Option<Parsed>
    requires WellIndexed(p)
  {
    var was := ActionOf(p.flags);
    if was.NoAction? then None else
    var i := p.flags[was.Text()];
    Some(p.(args := p.args[i := opt.Text()], flags := (p.flags - {was.Text()})[opt.Text() := i]))
  }

  /** ReplaceOutputPath; None where it returns an error. */
  function WithOutput(p: Parsed, path: string): Option<Parsed>
    requires WellIndexed(p)
  {
    if p.output == -1 then None else Some(p.(args := p.args[p.output := path]))
  }

  lemma ActionKeepsIndices(p: Parsed, opt: ActionOpt)
    requires WellIndexed(p) && opt != NoAction && WithAction(p, opt).Some?
    ensures WellIndexed(WithAction(p, opt).value)
  {
    var was := ActionOf(p.flags);
    assert was.Text() <= p.args[p.flags[was.Text()]];
  }

  /** The action that was set is the one read back exactly when no action that is looked for before
      it was recorded besides the one replaced. */
  lemma ActionReadBack(p: Parsed, opt: ActionOpt)
    requires WellIndexed(p) && opt != NoAction && WithAction(p, opt).Some?
    ensures ActionOf(WithAction(p, opt).value.flags) == opt
       <==> forall o: ActionOpt | o.Rank() < opt.Rank() && o.Text() in p.flags :: o == ActionOf(p.flags)
  {
    var was, flags := ActionOf(p.flags), WithAction(p, opt).value.flags;
    assert forall o: ActionOpt | o != NoAction && o != opt ::
        o.Text() in flags <==> o.Text() in p.flags && o != was;
  }

  lemma OutputKeepsIndices(p: Parsed, path: string)
    requires WellIndexed(p) && WithOutput(p, path).Some?
    ensures WellIndexed(WithOutput(p, path).value)
  {
  }

  /** What sending a compile job does to the arguments around preprocessing: switch to "-E", write
      to "-" and back if there is an output path, switch back to the action there was. */
  function AfterPreprocessing(p: Parsed): Parsed
    requires WellIndexed(p)
  {
    var opt := ActionOf(p.flags);
    var q := WithAction(p, Preprocess);
    if q.None? then p else
    ActionKeepsIndices(p, Preprocess);
    var path := if q.value.output == -1 then "" else q.value.args[q.value.output];
    var swapped := WithOutput(q.value, "-");
    if swapped.None? then WithAction(q.value, opt).value else
    OutputKeepsIndices(q.value, "-");
    var back := WithOutput(swapped.value, path).value;
    OutputKeepsIndices(swapped.value, path);
    WithAction(back, opt).value
  }

  /** What the preprocessor is run with in between: its result is to go to standard output. */
  function PreprocessorArgs(p: Parsed): seq<string>
    requires WellIndexed(p)
  {
    var q := WithAction(p, Preprocess);
    var args := if q.None? then p.args else q.value.args;
    if p.output == -1 then args else args[p.output := "-"]
  }

  /** By position: the recorded action is "-E", the output path is "-", all else is as it was. Where no
      action is recorded there is no "-E" either. */
  lemma PreprocessorSees(p: Parsed, j: nat)
    requires WellIndexed(p) && j < |p.args|
    ensures var opt := ActionOf(p.flags);
            && |PreprocessorArgs(p)| == |p.args|
            && PreprocessorArgs(p)[j] == if j == p.output then "-"
                                         else if opt != NoAction && j == p.flags[opt.Text()] then "-E"
                                         else p.args[j]
  {
  }

  /** Swapping the output path out and back in changes nothing. */
  lemma OutputSwapCancels(p: Parsed, path: string)
    requires WellIndexed(p) && p.output != -1
    ensures WellIndexed(WithOutput(p, path).value)
    ensures WithOutput(WithOutput(p, path).value, p.args[p.output]).value == p
  {
    OutputKeepsIndices(p, path);
    var q := WithOutput(p, path).value;
    assert q.args[p.output := p.args[p.output]] == p.args;
  }

  /** The preprocessing steps are two action changes; the output path takes no part. */
  lemma PreprocessingIsTwoActions(p: Parsed)
    requires WellIndexed(p) && ActionOf(p.flags) != NoAction
    ensures WellIndexed(WithAction(p, Preprocess).value)
    ensures AfterPreprocessing(p) == WithAction(WithAction(p, Preprocess).value, ActionOf(p.flags)).value
  {
    ActionKeepsIndices(p, Preprocess);
    var q := WithAction(p, Preprocess).value;
    if q.output != -1 { OutputSwapCancels(q, "-"); }
  }

  predicate BothActions(flags: map<string, int>) { "-c" in flags && "-S" in flags }

  lemma TwoActionsRestore(p: Parsed)
    requires WellIndexed(p) && ActionsExact(p) && ActionOf(p.flags) != NoAction && !BothActions(p.flags)
    requires WellIndexed(WithAction(p, Preprocess).value)
    ensures WithAction(WithAction(p, Preprocess).value, ActionOf(p.flags)).value.args == p.args
  {
    var opt := ActionOf(p.flags);
    var i := p.flags[opt.Text()];
    var q := WithAction(p, Preprocess).value;
    assert ActionOf(q.flags) == Preprocess && q.flags["-E"] == i;
    assert p.args[i := "-E"][i := opt.Text()] == p.args;
  }

  lemma TwoActionsMixUp(p: Parsed)
    requires WellIndexed(p) && ActionsExact(p) && BothActions(p.flags)
    requires WellIndexed(WithAction(p, Preprocess).value)
    ensures WithAction(WithAction(p, Preprocess).value, Compile).value.args != p.args
  {
    var i, j := p.flags["-c"], p.flags["-S"];
    assert i != j;
    var q := WithAction(p, Preprocess).value;
    assert ActionOf(q.flags) == GenAssembly && q.flags["-S"] == j;
    assert WithAction(q, Compile).value.args[j] == "-c" != p.args[j];
  }

  /** Preprocessing gives the arguments back exactly unless both "-c" and "-S" were recorded. */
  lemma PreprocessingRestoresExactly(p: Parsed)
    requires WellIndexed(p) && ActionsExact(p)
    ensures AfterPreprocessing(p).args == p.args <==> !("-c" in p.flags && "-S" in p.flags)
  {
    if ActionOf(p.flags) != NoAction {
      PreprocessingIsTwoActions(p);
      if BothActions(p.flags) { TwoActionsMixUp(p); } else { TwoActionsRestore(p); }
    }
  }

  /** With both, the "-S" comes back as a "-c" and the "-c" as "-E". */
  lemma PreprocessingMixesUpBoth(p: Parsed)
    requires WellIndexed(p) && ActionsExact(p) && BothActions(p.flags)
    ensures AfterPreprocessing(p).args == p.args[p.flags["-c"] := "-E"][p.flags["-S"] := "-c"]
  {
    PreprocessingIsTwoActions(p);
  }
}
