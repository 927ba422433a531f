/** Which command lines Parse allows to be compiled remotely, in terms of the arguments alone. */
module ArgsRemote {
  import opened Common
  import opened Filenames
  import opened Args
  import opened ArgsIndices

  /** How many of the arguments looked at are input files. */
  function Inputs(s: seq<Word>): nat {
    if s == [] then 0 else One(s[0].kind.Source?) + Inputs(s[Width(s)..])
  }

  /** Rules out remote compilation whatever else there is: preprocessing or dependencies only,
      machine-dependent or profiling options, assembler listings, a foreign language, an output that
      is missing or has no extension. */
  predicate Blocks(w: Word, rest: seq<Word>) {
    match w.kind
    case ActionE | DependencyOther | ForcesLocal => true
    case Assembler => Contains(w.text, ",-a") || Contains(w.text, "--MD")
    case Language(_) => rest != [] && !PlainLanguage(rest[0].text)
    case Output => rest == [] || Ext(rest[0].text) == ""
    case _ => false
  }

  predicate Blocked(s: seq<Word>) {
    s != [] && (Blocks(s[0], s[1..]) || Blocked(s[Width(s)..]))
  }

  predicate NamesOutput(s: seq<Word>) { |s| > 1 && s[0].kind.Output? && s[1].text != "" }

  /** Some "-o" looked at names an object file. */
  predicate HasObject(s: seq<Word>) {
    s != [] && ((s[0].kind.Output? && |s| > 1 && Ext(s[1].text) == ".o") || HasObject(s[Width(s)..]))
  }

  /** Some "-o" looked at names an object file after another one named an output. */
  predicate LaterObject(s: seq<Word>) {
    s != [] && if NamesOutput(s) then HasObject(s[Width(s)..]) else LaterObject(s[Width(s)..])
  }

  /** Input files have names. */
  ghost predicate Named(s: seq<Word>) {
    forall i | 0 <= i < |s| && s[i].kind.Source? :: s[i].text != ""
  }

  lemma WordForces(st: Scan, w: Word, rest: seq<Word>)
    ensures ForcesLocalRun(st, w, rest) <==>
              || Blocks(w, rest)
              || (w.kind.Source? && st.inputArg != "")
              || (w.kind.Output? && rest != [] && Ext(rest[0].text) == ".o" && st.outputArg != "")
  {
  }

  lemma EmptyHasNoExt()
    ensures Ext("") == ""
  {
  }

  /** What a scan that starts from st still has to find to rule out remote compilation. */
  lemma {:induction false} ForcedExactly(s: seq<Word>, i: nat, st: Scan)
    requires Named(s)
    ensures ForcedFrom(s, i, st) <==>
              || Blocked(s)
              || Inputs(s) > One(st.inputArg == "")
              || (if st.outputArg != "" then HasObject(s) else LaterObject(s))
    decreases |s|
  {
    if s != [] {
      WordForces(st, s[0], s[1..]);
      EmptyHasNoExt();
      ForcedExactly(s[Width(s)..], i + Width(s), ScanWord(st, i, s[0], s[1..]));
    }
  }

  lemma {:induction false} ScanSummary(s: seq<Word>, i: nat, st: Scan)
    requires Named(s)
    ensures ScanFrom(s, i, st).inputArg != "" <==> st.inputArg != "" || Inputs(s) > 0
    ensures ScanFrom(s, i, st).seenE ==> st.seenE || Blocked(s)
    decreases |s|
  {
    if s != [] { ScanSummary(s[Width(s)..], i + Width(s), ScanWord(st, i, s[0], s[1..])); }
  }

  lemma EmptyIsNoSource()
    ensures !Classify("").Source?
  {
    EmptyHasNoExt();
  }

  lemma WordsNamed(n: seq<string>)
    ensures Named(Words(n))
  {
    EmptyIsNoSource();
  }

  /** Parse allows remote compilation exactly when it was not ruled out before, nothing blocks it,
      there is exactly one input file and it is none of the special cases, no object file is named
      after another output, and the command line compiles, generates assembly or names an output. */
  lemma RemoteExactly(s: seq<string>, mode: RunMode)
    requires Scannable(Words(Normalized(s)))
    ensures var words, st := Words(Normalized(s)), ScanOf(Normalized(s));
            && (ParseOf(s, mode).mode == RunRemote <==>
                 && mode != RunLocal
                 && Inputs(words) == 1 && !Blocked(words) && !LaterObject(words)
                 && !ShouldRunLocal(st.inputArg) && (st.seenC || st.seenS || st.outputArg != ""))
  {
    var n := Normalized(s);
    WordsNamed(n);
    ForcedExactly(Words(n), 0, Fresh());
    ScanSummary(Words(n), 0, Fresh());
    InputArgFound(n);
    ModeDecided(ScanOf(n), ScannedMode(n, mode));
  }

  lemma InputArgFound(n: seq<string>)
    requires Scannable(Words(n))
    ensures ScanOf(n).input == -1 <==> ScanOf(n).inputArg == ""
  {
    assert Words(n)[0..] == Words(n);
    ScanIndexed(Words(n), 0, Fresh());
  }

  lemma ModeDecided(st: Scan, mode: RunMode)
    requires st.input == -1 <==> st.inputArg == ""
    ensures FinalMode(st, mode) == RunRemote <==>
              && mode != RunLocal && st.inputArg != "" && !ShouldRunLocal(st.inputArg)
              && (st.seenC || st.seenS || st.seenE || st.outputArg != "")
  {
  }
}
