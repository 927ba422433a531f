/** GCC command lines as pkg/cc/args.go reads them: what each argument means, what a scan over
    the arguments finds, and what Parse makes of it. */
module Args {
  import opened Common
  import opened Filenames

  datatype RunMode = Unset | RunLocal | RunRemote

  const PROFILE_ARGS: set<string> := {"-fprofile-arcs", "-ftest-coverage", "--coverage", "-fprofile-correction"}

  const LOCAL_ARGS_WITH_VALUES: set<string> := {
    "-D", "-I", "-U", "-L", "-l", "-MF", "-MT", "-MQ", "-include", "-imacros", "-iprefix", "-iwithprefix",
    "-isystem", "-imultilib", "-iplugindir", "-iquote", "-isysroot", "-iwithprefixbefore", "-idirafter"}

  const LOCAL_ARGS_NO_VALUES: set<string> := {"-undef", "-nostdinc", "-nostdinc++", "-MD", "-MMD", "-MG", "-MP"}

  const PIC_ARGS: set<string> := {"-fPIC", "-fPIE", "-fpic", "-fpie", "-fno-pic", "-fno-pie", "-fno-PIC", "-fno-PIE"}

  predicate HasLocalPrefix(a: string) {
    || "-Wp," <= a || "-Wl," <= a || "-D" <= a || "-U" <= a || "-I" <= a || "-l" <= a || "-L" <= a
    || "-MF" <= a || "-MT" <= a || "-MQ" <= a || "-isystem" <= a || "-stdlib" <= a
  }

  /** Options that only matter to the preprocessor or the linker. */
  predicate IsLocalOption(a: string) {
    a in LOCAL_ARGS_WITH_VALUES || HasLocalPrefix(a) || a in LOCAL_ARGS_NO_VALUES
  }

  predicate IsUnsupported(a: string) {
    a == "-Wpedantic" || a == "-pedantic-errors" || a == "-pedantic" || "-flto" <= a
  }

  /** The branches of the switch in Parse, in its order. A joined option carries its value. */
  datatype Kind =
    | ActionE | DependencyFlag | DependencyValue(joined: bool) | DependencyOther | ForcesLocal | Pic | Assembler
    | ActionS | Language(joined: bool) | LocalValue | ActionC | Output | OtherOption
    | Source | OtherOperand

  function Classify(a: string): Kind {
    if |a| > 1 && a[0] == '-' then
      if a == "-E" then ActionE
      else if a == "-MD" || a == "-MMD" || a == "-MG" || a == "-MP" then DependencyFlag
      else if "-MF" <= a || "-MT" <= a || "-MQ" <= a then DependencyValue(|a| > 3)
      else if "-M" <= a then DependencyOther
      else if a == "-march=native" || a == "-mtune=native" then ForcesLocal
      else if a in PIC_ARGS then Pic
      else if "-Wa," <= a then Assembler
      else if "-specs=" <= a then ForcesLocal
      else if a == "-S" then ActionS
      else if a in PROFILE_ARGS then ForcesLocal
      else if "-fprofile-generate" <= a || "-fprofile-use" <= a || "-fauto-profile" <= a then ForcesLocal
      else if a == "-frepo" then ForcesLocal
      else if "-x" <= a then Language(a != "-x")
      else if "-dr" <= a then ForcesLocal
      else if a in LOCAL_ARGS_WITH_VALUES then LocalValue
      else if a == "-c" then ActionC
      else if a == "-o" then Output
      else OtherOption
    else if IsSourceFile(a) || a == "-" then Source
    else OtherOperand
  }

  /** An argument together with the branch it takes and whether remote compilation drops it. */
  datatype Word = Word(text: string, kind: Kind, local: bool) {
    /** The next argument, if there is one, is this one's value and not looked at. */
    predicate TakesValue() {
      kind.LocalValue? || kind.Output? || (kind.DependencyValue? && !kind.joined) || (kind.Language? && !kind.joined)
    }

    /** The key under which FlagIndexMap records the argument. */
    function FlagKey(): Option<string> {
      match kind
      case DependencyValue(_) => if |text| >= 3 then Some(text[..3]) else None
      case Assembler => Some("-Wa")
      case ActionE | ActionS | ActionC | Output | DependencyFlag | DependencyOther | Pic => Some(text)
      case _ => None
    }
  }

  function Read(a: string): Word { Word(a, Classify(a), IsLocalOption(a)) }

  function Words(args: seq<string>): (words: seq<Word>)
    ensures |words| == |args|
  {
    seq(|args|, i requires 0 <= i < |args| => Read(args[i]))
  }

  /** What a scan has found so far. */
  datatype Scan = Scan(
    input: int, output: int, flags: map<string, int>,
    seenC: bool, seenS: bool, seenE: bool, inputArg: string, outputArg: string)

  predicate PlainLanguage(value: string) {
    "c" <= value || "objective-c" <= value || "go" <= value
  }

  /** The argument rules out remote compilation, given what follows it and what was found. */
  predicate ForcesLocalRun(st: Scan, w: Word, rest: seq<Word>) {
    match w.kind
    case ActionE | DependencyOther | ForcesLocal => true
    case Assembler => Contains(w.text, ",-a") || Contains(w.text, "--MD")
    case Language(_) => rest != [] && !PlainLanguage(rest[0].text)
    case Output => rest == [] || (Ext(rest[0].text) == ".o" && st.outputArg != "") || Ext(rest[0].text) == ""
    case Source => st.inputArg != ""
    case _ => false
  }

  /** One turn of the loop: argument w at index i, followed by rest. */
  function ScanWord(st: Scan, i: nat, w: Word, rest: seq<Word>): Scan {
    var key := w.FlagKey();
    var found := w.kind.Output? && rest != [];
    Scan(
      if w.kind.Source? then i else st.input,
      if found then i + 1 else st.output,
      if key.Some? then st.flags[key.value := i] else st.flags,
      st.seenC || w.kind.ActionC?, st.seenS || w.kind.ActionS?, st.seenE || w.kind.ActionE?,
      if w.kind.Source? then w.text else st.inputArg,
      if found then rest[0].text else st.outputArg)
  }

  /** The number of arguments a turn uses up: an option and its value are read together. */
  function Width(s: seq<Word>): (n: nat)
    requires s != []
    ensures 1 <= n <= |s| && n <= 2
  {
    if s[0].TakesValue() && |s| > 1 then 2 else 1
  }

  /** The scan over arguments s, the first of which has index i. */
  function ScanFrom(s: seq<Word>, i: nat, st: Scan): Scan {
    if s == [] then st
    else ScanFrom(s[Width(s)..], i + Width(s), ScanWord(st, i, s[0], s[1..]))
  }

  /** Some argument looked at in that scan rules out remote compilation. */
  predicate ForcedFrom(s: seq<Word>, i: nat, st: Scan) {
    s != [] &&
    (ForcesLocalRun(st, s[0], s[1..]) || ForcedFrom(s[Width(s)..], i + Width(s), ScanWord(st, i, s[0], s[1..])))
  }

  /** The last argument looked at is an option whose value is missing. */
  predicate EndsWaiting(s: seq<Word>) {
    s != [] && ((s[0].TakesValue() && |s| == 1) || EndsWaiting(s[Width(s)..]))
  }

  /** No argument looked at is empty; Parse indexes the first character of each. */
  predicate Scannable(s: seq<Word>) {
    s != [] ==> s[0].text != "" && Scannable(s[Width(s)..])
  }

  // ----------------------------------------------------------- normalisation

  predicate IsJoinedOutput(a: string) {
    "-o/" <= a
  }

  /** The first "-o/path" becomes "-o", "/path". */
  function Standardized(s: seq<string>): seq<string> {
    if s == [] then []
    else if IsJoinedOutput(s[0]) then ["-o", s[0][2..]] + s[1..]
    else [s[0]] + Standardized(s[1..])
  }

  function Stripped(s: seq<string>): seq<string> {
    if s == [] then []
    else if IsUnsupported(s[0]) then Stripped(s[1..])
    else [s[0]] + Stripped(s[1..])
  }

  function Normalized(s: seq<string>): seq<string> {
    Stripped(Standardized(s))
  }

  // ------------------------------------------------------------------- parse

  datatype Parsed = Parsed(args: seq<string>, mode: RunMode, input: int, output: int, flags: map<string, int>)

  function Fresh(): Scan {
    Scan(-1, -1, map[], false, false, false, "", "")
  }

  /** An output is added when none was given and one is needed. */
  predicate Adds(st: Scan) {
    st.outputArg == "" && (st.seenC || st.seenS || (st.inputArg != "" && !st.seenE))
  }

  function AddedOutput(st: Scan): string {
    if st.seenS then ReplaceExtension(st.inputArg, ".s")
    else if st.seenC then ReplaceExtension(st.inputArg, ".o")
    else "a.out"
  }

  function FinalMode(st: Scan, mode: RunMode): RunMode {
    if st.input == -1 || ShouldRunLocal(st.inputArg) || (Adds(st) && !st.seenC && !st.seenS) then RunLocal
    else if mode.Unset? then RunRemote
    else mode
  }

  function Finished(s: seq<string>, st: Scan, mode: RunMode): Parsed {
    if Adds(st) then Parsed(s + ["-o", AddedOutput(st)], FinalMode(st, mode), st.input, |s| + 1, st.flags)
    else Parsed(s, FinalMode(st, mode), st.input, st.output, st.flags)
  }

  function ScanOf(s: seq<string>): Scan {
    ScanFrom(Words(s), 0, Fresh())
  }

  /** The mode after the scan, given the one before it. */
  function ScannedMode(s: seq<string>, mode: RunMode): RunMode {
    if ForcedFrom(Words(s), 0, Fresh()) then RunLocal else mode
  }

  /** What Parse leaves behind for arguments s and an earlier mode. */
  function ParseOf(s: seq<string>, mode: RunMode): Parsed {
    var n := Normalized(s);
    Finished(n, ScanOf(n), ScannedMode(n, mode))
  }
}
