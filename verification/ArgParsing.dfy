/** The argument parser as the object pkg/cc/args.go makes it: one argument list, rewritten in
    place, with indices into it that every rewrite has to keep right. */
module ArgParsing {
  import opened Common
  import opened Filenames
  import opened Args
  import opened ArgsIndices
  import opened ArgsActions
  import opened ArgsLocal
  import opened ArgsPreprocessor
  import opened ArgsSend

  lemma {:induction false} StandardizedFrom(s: seq<string>, i: nat)
    requires i <= |s| && forall j | 0 <= j < i :: !IsJoinedOutput(s[j])
    ensures Standardized(s) == s[..i] + Standardized(s[i..])
  {
    if i > 0 {
      StandardizedFrom(s[1..], i - 1);
      assert s[1..][..i - 1] == s[1..i] && s[1..][i - 1..] == s[i..];
      assert s[..i] == [s[0]] + s[1..i];
    }
  }

  /** Where the kind of an argument and its spelling meet. */
  predicate Spelled(w: Word) {
    && (w.kind.DependencyValue? ==> |w.text| >= 3 && (w.kind.joined <==> |w.text| > 3))
    && (w.kind.Language? ==> (w.kind.joined <==> w.text != "-x"))
  }

  lemma ReadIsSpelled(a: string)
    ensures Spelled(Read(a))
  {
  }

  lemma WordsAt(args: seq<string>, words: seq<Word>, i: nat)
    requires words == Words(args) && i < |args|
    ensures words[i] == Read(args[i]) && |words[i + 1..]| == |args| - i - 1
    ensures words[i + 1..] != [] ==> words[i + 1..][0].text == args[i + 1]
  {
  }

  /** The scan ends where it would have, one turn later. */
  lemma TurnEnds(words: seq<Word>, i: nat, st: Scan, mode: RunMode, skip: bool, st': Scan, mode': RunMode)
    requires i < |words| && st' == ScanWord(st, i, words[i], words[i + 1..])
    requires mode' == if ForcesLocalRun(st, words[i], words[i + 1..]) then RunLocal else mode
    requires skip <==> words[i].TakesValue() && (words[i].kind.Output? ==> i + 1 < |words|)
    ensures EndOf(words, i, st, mode) == EndOf(words, if skip && i + 1 < |words| then i + 2 else i + 1, st', mode')
  {
    EndUnfold(words, i, st, mode);
  }

  /** The end of the scan over all arguments, in the terms of Parse. */
  lemma EndOfWhole(n: seq<string>, mode: RunMode)
    ensures EndOf(Words(n), 0, Fresh(), mode) == Ending(ScanOf(n), ScannedMode(n, mode))
  {
    assert Words(n)[0..] == Words(n);
  }

  lemma WithoutLocalNext(s: seq<string>, i: nat)
    requires i < |s|
    ensures s[i] in LOCAL_ARGS_WITH_VALUES ==>
              WithoutLocal(s[i..]) == WithoutLocal(if i + 2 <= |s| then s[i + 2..] else [])
    ensures s[i] !in LOCAL_ARGS_WITH_VALUES ==>
              var kept := if HasLocalPrefix(s[i]) || s[i] in LOCAL_ARGS_NO_VALUES then [] else [s[i]];
              WithoutLocal(s[i..]) == kept + WithoutLocal(s[i + 1..])
  {
    var rest := s[i..];
    assert rest[1..] == s[i + 1..];
    if i + 2 <= |s| { assert rest[2..] == s[i + 2..]; }
  }

  /** The list while it is being rewritten: what is done, then what is left from position k on. */
  lemma AtCursor(done: seq<string>, all: seq<string>, k: nat)
    requires k < |all|
    ensures var args, i := done + all[k..], |done|;
            && args[..i] == done && args[i] == all[k] && all[k] in all && args[i + 1..] == all[k + 1..]
            && args == (done + [all[k]]) + all[k + 1..]
  {
  }

  method SplitArg(arg: string) returns (split: seq<string>)
    requires IsWrapped(arg) && Expandable(Pieces(arg)[1..])
    ensures split == Replaced(arg)
  {
    split := InsertDependencyFiles(Pieces(arg)[1..]);
  }

  /** The loop of RemoveLocalArgs. */
  method RemoteArgs(args: seq<string>) returns (newArgs: seq<string>)
    ensures newArgs == WithoutLocal(args)
  {
    newArgs := [];
    var i := 0;
    assert args[0..] == args;
    while i < |args|
      invariant i <= |args| + 1
      invariant newArgs + WithoutLocal(if i <= |args| then args[i..] else []) == WithoutLocal(args)
      decreases |args| - i
    {
      WithoutLocalNext(args, i);
      var arg := args[i];
      if arg in LOCAL_ARGS_WITH_VALUES {
        i := i + 1;
      } else if HasLocalPrefix(arg) || arg in LOCAL_ARGS_NO_VALUES {
      } else {
        newArgs := newArgs + [arg];
      }
      i := i + 1;
    }
  }

  class ArgParser {
    var Args: seq<string>
    var Mode: RunMode
    var InputArgIndex: int
    var OutputArgIndex: int
    var FlagIndexMap: map<string, int>

    constructor (args: seq<string>)
      ensures Args == args && Mode == Unset
    {
      Args, Mode, InputArgIndex, OutputArgIndex, FlagIndexMap := args, Unset, 0, 0, map[];
    }

    ghost function View(): Parsed
      reads this
    {
      Parsed(Args, Mode, InputArgIndex, OutputArgIndex, FlagIndexMap)
    }

    method Standardize()
      modifies this`Args
      ensures Args == Standardized(old(Args))
    {
      ghost var all := Args;
      for i := 0 to |Args|
        invariant Args == all && forall j | 0 <= j < i :: !IsJoinedOutput(all[j])
      {
        var a := Args[i];
        if IsJoinedOutput(a) {
          Args := Args + [""];
          Args := Args[..i + 1] + Args[i..|Args| - 1];
          Args := Args[i := "-o"];
          Args := Args[i + 1 := a[2..]];
          StandardizedFrom(all, i);
          assert Args == all[..i] + (["-o", a[2..]] + all[i..][1..]);
          return;
        }
      }
      StandardizedFrom(all, |all|);
    }

    method StripUnsupportedArgs()
      modifies this`Args
      ensures Args == Stripped(old(Args))
    {
      ghost var all := Args;
      var i := 0;
      while i < |Args|
        invariant i <= |Args|
        invariant Args[..i] + Stripped(Args[i..]) == Stripped(all)
        decreases |Args| - i
      {
        ghost var before, rest := Args[..i], Args[i..];
        var a := Args[i];
        if IsUnsupported(a) {
          Args := Args[..i] + Args[i + 1..];
          assert Args[..i] == before && Args[i..] == rest[1..];
        } else {
          i := i + 1;
          assert Args[..i] == before + [rest[0]] && Args[i..] == rest[1..];
        }
      }
    }

    /** The scan so far: the fields together with the loop's own variables. */
    ghost function Now(seenC: bool, seenS: bool, seenE: bool, inputArg: string, outputArg: string): Scan
      reads this
    {
      Scan(InputArgIndex, OutputArgIndex, FlagIndexMap, seenC, seenS, seenE, inputArg, outputArg)
    }

    /** "-o" at index i: the argument after it, if any, is the output path. */
    method TakeOutput(i: nat, outputArg: string) returns (found: bool)
      requires i < |Args|
      modifies this`Mode, this`OutputArgIndex
      ensures found <==> i + 1 < |Args|
      ensures OutputArgIndex == if found then i + 1 else old(OutputArgIndex)
      ensures Mode == if !found || (Ext(Args[i + 1]) == ".o" && outputArg != "") || Ext(Args[i + 1]) == ""
                      then RunLocal else old(Mode)
    {
      found := i != |Args| - 1;
      if !found {
        Mode := RunLocal;
      } else {
        var ext := Ext(Args[i + 1]);
        if ext == ".o" {
          if outputArg != "" { Mode := RunLocal; }
        } else if ext == "" {
          Mode := RunLocal;
        }
        OutputArgIndex := i + 1;
      }
    }

    /** Arguments that are at most recorded or decide on the mode. */
    method LookAtMinor(i: nat, w: Word, ghost rest: seq<Word>, ghost st: Scan) returns (skip: bool)
      requires i < |Args| && Args[i] == w.text && Spelled(w) && st.flags == FlagIndexMap
      requires |rest| == |Args| - i - 1 && (rest != [] ==> rest[0].text == Args[i + 1])
      requires !(w.kind.ActionE? || w.kind.ActionS? || w.kind.ActionC? || w.kind.Output? || w.kind.Source?)
      modifies this`Mode, this`FlagIndexMap
      ensures ScanWord(st, i, w, rest) == st.(flags := FlagIndexMap)
      ensures Mode == if ForcesLocalRun(st, w, rest) then RunLocal else old(Mode)
      ensures skip <==> w.TakesValue()
    {
      skip := false;
      var a := w.text;
      match w.kind
      case DependencyFlag | Pic => FlagIndexMap := FlagIndexMap[a := i];
      case DependencyValue(_) =>
        if |a| == 3 { skip := true; }
        FlagIndexMap := FlagIndexMap[a[..3] := i];
      case DependencyOther => FlagIndexMap := FlagIndexMap[a := i]; Mode := RunLocal;
      case ForcesLocal => Mode := RunLocal;
      case Assembler =>
        FlagIndexMap := FlagIndexMap["-Wa" := i];
        if Contains(a, ",-a") || Contains(a, "--MD") { Mode := RunLocal; }
      case Language(_) =>
        if |Args| > i + 1 && !PlainLanguage(Args[i + 1]) { Mode := RunLocal; }
        if a == "-x" { skip := true; }
      case LocalValue => skip := true;
      case _ =>
    }

    /** The body of the loop in Parse for an argument that is looked at. */
    method LookAt(i: nat, w: Word, ghost rest: seq<Word>,
                  seenC: bool, seenS: bool, seenE: bool, inputArg: string, outputArg: string)
      returns (skip: bool, seenC': bool, seenS': bool, seenE': bool, inputArg': string, outputArg': string)
      requires i < |Args| && Args[i] == w.text && Spelled(w)
      requires |rest| == |Args| - i - 1 && (rest != [] ==> rest[0].text == Args[i + 1])
      modifies this`Mode, this`InputArgIndex, this`OutputArgIndex, this`FlagIndexMap
      ensures Now(seenC', seenS', seenE', inputArg', outputArg')
           == ScanWord(old(Now(seenC, seenS, seenE, inputArg, outputArg)), i, w, rest)
      ensures Mode ==
        if ForcesLocalRun(old(Now(seenC, seenS, seenE, inputArg, outputArg)), w, rest) then RunLocal else old(Mode)
      ensures skip <==> w.TakesValue() && (w.kind.Output? ==> i + 1 < |Args|)
    {
      skip, seenC', seenS', seenE', inputArg', outputArg' := false, seenC, seenS, seenE, inputArg, outputArg;
      var a := w.text;
      if w.kind.ActionE? {
        FlagIndexMap, Mode, seenE' := FlagIndexMap[a := i], RunLocal, true;
      } else if w.kind.ActionS? {
        FlagIndexMap, seenS' := FlagIndexMap[a := i], true;
      } else if w.kind.ActionC? {
        FlagIndexMap, seenC' := FlagIndexMap[a := i], true;
      } else if w.kind.Output? {
        FlagIndexMap := FlagIndexMap[a := i];
        skip := TakeOutput(i, outputArg);
        if skip { outputArg' := Args[i + 1]; }
      } else if w.kind.Source? {
        if inputArg != "" { Mode := RunLocal; }
        InputArgIndex, inputArg' := i, a;
      } else {
        skip := LookAtMinor(i, w, rest, Now(seenC, seenS, seenE, inputArg, outputArg));
      }
    }

    /** Parse. The arguments it looks at must not be empty: the first character of each is read. */
    method Parse()
      requires Scannable(Words(Normalized(Args)))
      modifies this
      ensures View() == ParseOf(old(Args), old(Mode))
      ensures Describes(View(), ScanOf(Normalized(old(Args))))
    {
      ParseDescribes(Args, Mode);
      Normalize();
      ScanAndFinish();
    }

    /** Parse up to its loop. */
    method Normalize()
      modifies this
      ensures View() == Parsed(Normalized(old(Args)), old(Mode), -1, -1, map[])
    {
      InputArgIndex, OutputArgIndex, FlagIndexMap := -1, -1, map[];
      Standardize();
      StripUnsupportedArgs();
    }

    method ScanAndFinish()
      requires InputArgIndex == -1 && OutputArgIndex == -1 && FlagIndexMap == map[]
      modifies this
      ensures View() == Finished(old(Args), ScanOf(old(Args)), ScannedMode(old(Args), old(Mode)))
    {
      EndOfWhole(Args, Mode);
      assert Now(false, false, false, "", "") == Fresh();
      var seenC, seenS, seenE, inputArg, outputArg := ScanLoop(Words(Args));
      Finish(seenC, seenS, seenE, inputArg, outputArg);
    }

    /** One turn of the loop of Parse: the scan ends where it would have, from the next position. */
    method Turn(i: nat, ghost words: seq<Word>,
                seenC: bool, seenS: bool, seenE: bool, inputArg: string, outputArg: string)
      returns (skip: bool, seenC': bool, seenS': bool, seenE': bool, inputArg': string, outputArg': string,
               ghost next: nat)
      requires i < |Args| && words == Words(Args)
      modifies this`Mode, this`InputArgIndex, this`OutputArgIndex, this`FlagIndexMap
      ensures next == (if skip && i + 1 < |Args| then i + 2 else i + 1) && next <= |words|
      ensures EndOf(words, i, old(Now(seenC, seenS, seenE, inputArg, outputArg)), old(Mode))
           == EndOf(words, next, Now(seenC', seenS', seenE', inputArg', outputArg'), Mode)
    {
      var w := Read(Args[i]);
      WordsAt(Args, words, i);
      ReadIsSpelled(Args[i]);
      ghost var st, mode := Now(seenC, seenS, seenE, inputArg, outputArg), Mode;
      skip, seenC', seenS', seenE', inputArg', outputArg' :=
        LookAt(i, w, words[i + 1..], seenC, seenS, seenE, inputArg, outputArg);
      next := if skip && i + 1 < |Args| then i + 2 else i + 1;
      TurnEnds(words, i, st, mode, skip, Now(seenC', seenS', seenE', inputArg', outputArg'), Mode);
    }

    /** The loop of Parse; skip says that the argument at hand is the value of the one before. */
    method ScanLoop(ghost words: seq<Word>)
      returns (seenC: bool, seenS: bool, seenE: bool, inputArg: string, outputArg: string)
      requires words == Words(Args)
      modifies this`Mode, this`InputArgIndex, this`OutputArgIndex, this`FlagIndexMap
      ensures Ending(Now(seenC, seenS, seenE, inputArg, outputArg), Mode)
           == EndOf(words, 0, old(Now(false, false, false, "", "")), old(Mode))
    {
      var skip := false;
      seenC, seenS, seenE, inputArg, outputArg := false, false, false, "", "";
      ghost var end := EndOf(words, 0, Now(false, false, false, "", ""), Mode);
      ghost var next := 0;
      var i := 0;
      while i < |Args|
        invariant i <= |Args| && next <= |words|
        invariant next == if skip && i < |Args| then i + 1 else i
        invariant end == EndOf(words, next, Now(seenC, seenS, seenE, inputArg, outputArg), Mode)
      {
        if skip {
          skip := false;
        } else {
          skip, seenC, seenS, seenE, inputArg, outputArg, next :=
            Turn(i, words, seenC, seenS, seenE, inputArg, outputArg);
        }
        i := i + 1;
      }
    }

    /** The end of Parse: the mode is settled and a missing output path is added. */
    method Finish(seenC: bool, seenS: bool, seenE: bool, inputArg: string, outputArg: string)
      modifies this
      ensures View() == Finished(old(Args), old(Now(seenC, seenS, seenE, inputArg, outputArg)), old(Mode))
    {
      if !seenC && !seenS && InputArgIndex == -1 { Mode := RunLocal; }
      if InputArgIndex == -1 { Mode := RunLocal; }
      if ShouldRunLocal(inputArg) { Mode := RunLocal; }
      AddOutput(seenC, seenS, seenE, inputArg, outputArg);
      if Mode == Unset { Mode := RunRemote; }
    }

    method AddOutput(seenC: bool, seenS: bool, seenE: bool, inputArg: string, outputArg: string)
      modifies this`Args, this`OutputArgIndex, this`Mode
      ensures var st := old(Now(seenC, seenS, seenE, inputArg, outputArg));
              && Args == (if Adds(st) then old(Args) + ["-o", AddedOutput(st)] else old(Args))
              && OutputArgIndex == (if Adds(st) then |old(Args)| + 1 else st.output)
              && Mode == (if Adds(st) && !seenC && !seenS then RunLocal else old(Mode))
    {
      if outputArg == "" {
        if seenC || seenS {
          var added := "";
          if seenS {
            added := ReplaceExtension(inputArg, ".s");
          } else if seenC {
            added := ReplaceExtension(inputArg, ".o");
          }
          assert |added| >= 2;
          if added != "" {
            Args := Args + ["-o", added];
            OutputArgIndex := |Args| - 1;
          }
        } else if inputArg != "" && !seenE {
          Args := Args + ["-o", "a.out"];
          OutputArgIndex := |Args| - 1;
          Mode := RunLocal;
        }
      }
    }

    /** ActionOpt: an option that was recorded, before which none was; in a parsed command line it
        stands where it was recorded. */
    method CurrentAction() returns (opt: ActionOpt)
      ensures opt == ActionOf(FlagIndexMap)
      ensures opt != NoAction ==> opt.Text() in FlagIndexMap
      ensures forall o: ActionOpt | o.Rank() < opt.Rank() :: o.Text() !in FlagIndexMap
      ensures WellIndexed(View()) && ActionsExact(View()) && opt != NoAction ==>
                Args[FlagIndexMap[opt.Text()]] == opt.Text()
    {
      if "-c" in FlagIndexMap { return Compile; }
      if "-S" in FlagIndexMap { return GenAssembly; }
      if "-E" in FlagIndexMap { return Preprocess; }
      return NoAction;
    }

    method SetActionOpt(opt: ActionOpt) returns (ok: bool)
      requires WellIndexed(View())
      modifies this`Args, this`FlagIndexMap
      ensures ok <==> WithAction(old(View()), opt).Some?
      ensures View() == if ok then WithAction(old(View()), opt).value else old(View())
      ensures opt != NoAction ==> WellIndexed(View())
    {
      ghost var want := WithAction(View(), opt);
      if opt != NoAction && want.Some? { ActionKeepsIndices(View(), opt); }
      ok := true;
      if "-c" in FlagIndexMap {
        ReplaceAction(FlagIndexMap["-c"], "-c", opt);
      } else if "-S" in FlagIndexMap {
        ReplaceAction(FlagIndexMap["-S"], "-S", opt);
      } else if "-E" in FlagIndexMap {
        ReplaceAction(FlagIndexMap["-E"], "-E", opt);
      } else {
        ok := false;
      }
      assert ok ==> want.Some? && View() == want.value;
    }

    method ReplaceAction(i: int, was: string, opt: ActionOpt)
      requires 0 <= i < |Args|
      modifies this`Args, this`FlagIndexMap
      ensures Args == old(Args)[i := opt.Text()] && FlagIndexMap == (old(FlagIndexMap) - {was})[opt.Text() := i]
    {
      Args := Args[i := opt.Text()];
      FlagIndexMap := FlagIndexMap - {was};
      FlagIndexMap := FlagIndexMap[opt.Text() := i];
    }

    method ReplaceOutputPath(newPath: string) returns (ok: bool)
      requires WellIndexed(View())
      modifies this`Args
      ensures ok <==> OutputArgIndex != -1
      ensures View() == if ok then WithOutput(old(View()), newPath).value else old(View())
      ensures WellIndexed(View())
    {
      if OutputArgIndex != -1 {
        OutputKeepsIndices(View(), newPath);
        Args := Args[OutputArgIndex := newPath];
        return true;
      }
      return false;
    }

    method ConfigurePreprocessorOptions()
      requires AllExpandable(Args) && Scannable(Words(Normalized(Unwrapped(Args))))
      modifies this
      ensures View() == ParseOf(Unwrapped(old(Args)), old(Mode))
      ensures Describes(View(), ScanOf(Normalized(Unwrapped(old(Args)))))
    {
      UnwrapArgs();
      Parse();
    }

    /** One turn of the loop of ConfigurePreprocessorOptions: the argument at i is kept or spliced
        into what it carries. */
    method UnwrapAt(i: nat, ghost done: seq<string>, ghost all: seq<string>, ghost k: nat) returns (next: nat)
      requires k < |all| && AllExpandable(all) && Args == done + all[k..] && i == |done|
      modifies this`Args
      ensures Args == (done + Replaced(all[k])) + all[k + 1..] && next == |done + Replaced(all[k])|
    {
      AtCursor(done, all, k);
      var arg := Args[i];
      if !IsWrapped(arg) { return i + 1; }
      var split := SplitArg(arg);
      var left := Args[..i] + split;
      Args := left + Args[i + 1..];
      return |left|;
    }

    /** The loop of ConfigurePreprocessorOptions, which replaces arguments by longer or shorter
        runs of arguments as it walks the list. */
    method UnwrapArgs()
      requires AllExpandable(Args)
      modifies this`Args
      ensures Args == Unwrapped(old(Args))
    {
      ghost var all, k, done := Args, 0, [];
      var i := 0;
      assert all[..0] == [];
      while i < |Args|
        invariant k <= |all| && i == |done|
        invariant Args == done + all[k..] && done == Unwrapped(all[..k])
        decreases |all| - k
      {
        i := UnwrapAt(i, done, all, k);
        UnwrappedNext(all, k);
        done := done + Replaced(all[k]);
        k := k + 1;
      }
      assert all[..k] == all;
    }

    method RemoveLocalArgs()
      requires Scannable(Words(Normalized(WithoutLocal(Args))))
      modifies this
      ensures View() == ParseOf(WithoutLocal(old(Args)), old(Mode))
      ensures NoLocal(Args) && Describes(View(), ScanOf(Normalized(WithoutLocal(old(Args)))))
    {
      NothingLocalLeft(Args, Mode);
      var newArgs := RemoteArgs(Args);
      Args := newArgs;
      Parse();
    }

    method PrependExplicitPICArgs(picDefault: bool, pieDefault: bool)
      requires Scannable(Words(Normalized(WithPic(Args, FlagIndexMap, picDefault, pieDefault))))
      modifies this
      ensures View() == ParseOf(old(WithPic(Args, FlagIndexMap, picDefault, pieDefault)), old(Mode))
    {
      if picDefault {
        if "-fno-pic" !in FlagIndexMap && "-fno-PIC" !in FlagIndexMap
           && "-fPIC" !in FlagIndexMap && "-fpic" !in FlagIndexMap {
          Args := ["-fPIC"] + Args;
        }
      }
      if pieDefault {
        if "-fno-pie" !in FlagIndexMap && "-fno-PIE" !in FlagIndexMap
           && "-fPIE" !in FlagIndexMap && "-fpie" !in FlagIndexMap {
          Args := ["-fPIE"] + Args;
        }
      }
      Parse();
    }

    method DeepCopy() returns (copy: ArgParser)
      ensures fresh(copy) && copy.View() == View()
    {
      copy := new ArgParser(Args);
      copy.Mode, copy.InputArgIndex, copy.OutputArgIndex, copy.FlagIndexMap :=
        Mode, InputArgIndex, OutputArgIndex, FlagIndexMap;
    }

    /** What running the preprocessor does around the command: the output goes to "-" and back. */
    method SwapOutput() returns (ran: seq<string>)
      requires WellIndexed(View())
      modifies this`Args
      ensures View() == old(View())
      ensures ran == if OutputArgIndex == -1 then Args else Args[OutputArgIndex := "-"]
    {
      if OutputArgIndex == -1 { return Args; }
      OutputSwapCancels(View(), "-");
      var path := Args[OutputArgIndex];
      var swapped := ReplaceOutputPath("-");
      ran := Args;
      var back := ReplaceOutputPath(path);
    }

    /** Preprocessing in the middle of sending a job: switch to "-E" and back (of the preprocessor
        itself, only what it is run with is modelled). */
    method PreprocessAndRestore() returns (ran: seq<string>)
      requires WellIndexed(View())
      modifies this`Args, this`FlagIndexMap
      ensures View() == AfterPreprocessing(old(View())) && ran == PreprocessorArgs(old(View()))
    {
      if ActionOf(FlagIndexMap) != NoAction { PreprocessingIsTwoActions(View()); }
      var opt := CurrentAction();
      var found := SetActionOpt(Preprocess);
      ran := SwapOutput();
      var restored := SetActionOpt(opt);
    }

    /** Sending a job, up to the remote compile: the output path the result will be written to, or
        None where there is none and the job is refused. */
    method Process(picDefault: bool, pieDefault: bool) returns (outputPath: Option<string>)
      requires AllExpandable(Args) && Scannable(Words(Normalized(Unwrapped(Args))))
      requires ParseOf(Unwrapped(Args), Mode).output != -1 ==>
                 var p := Preprocessed(Args, Mode); Parseable(p.args, p.mode, picDefault, pieDefault)
      modifies this
      ensures var first := ParseOf(Unwrapped(old(Args)), old(Mode));
              WellIndexed(first) && outputPath == if first.output == -1 then None else Some(first.args[first.output])
      ensures outputPath.Some? ==> View() == Sent(old(Args), old(Mode), picDefault, pieDefault)
    {
      ConfigurePreprocessorOptions();
      ghost var first := View();
      var ran := PreprocessAndRestore();
      PreprocessingKeepsIndices(first);
      PreprocessingKeepsOutput(first);
      if !(0 <= OutputArgIndex < |Args|) {
        return None;
      }
      outputPath := Some(Args[OutputArgIndex]);
      RemoveLocalArgs();
      PrependExplicitPICArgs(picDefault, pieDefault);
    }
  }
}
