/** The rewrites a command line goes through before it is sent to an agent, as one whole
    (the order is that of pkg/cc/controller/send.go). */
module ArgsSend {
  import opened Common
  import opened Filenames
  import opened Args
  import opened ArgsIdempotence
  import opened ArgsIndices
  import opened ArgsActions
  import opened ArgsLocal
  import opened ArgsPreprocessor

  // ------------------------------------------------ recorded and found actions

  predicate Keyed(w: Word) {
    && (w.FlagKey() == Some("-c") <==> w.kind.ActionC?)
    && (w.FlagKey() == Some("-S") <==> w.kind.ActionS?)
    && (w.FlagKey() == Some("-E") <==> w.kind.ActionE?)
  }

  predicate ActionsRecorded(st: Scan) {
    && ("-c" in st.flags <==> st.seenC) && ("-S" in st.flags <==> st.seenS) && ("-E" in st.flags <==> st.seenE)
  }

  lemma ActionText(a: string)
    ensures Classify(a).ActionC? <==> a == "-c"
    ensures Classify(a).ActionS? <==> a == "-S"
    ensures Classify(a).ActionE? <==> a == "-E"
  {
  }

  lemma ReadKeyed(a: string)
    ensures Keyed(Read(a))
  {
    ActionText(a);
    var key := Read(a).FlagKey();
    if key.Some? { FlagKeyIsPrefix(a, key.value); }
  }

  lemma WordKeepsActions(st: Scan, i: nat, w: Word, rest: seq<Word>)
    requires Keyed(w) && ActionsRecorded(st)
    ensures ActionsRecorded(ScanWord(st, i, w, rest))
  {
  }

  lemma {:induction false} ScanRecordsActions(s: seq<Word>, i: nat, st: Scan)
    requires (forall j | 0 <= j < |s| :: Keyed(s[j])) && ActionsRecorded(st)
    ensures ActionsRecorded(ScanFrom(s, i, st))
    decreases |s|
  {
    if s != [] {
      WordKeepsActions(st, i, s[0], s[1..]);
      ScanRecordsActions(s[Width(s)..], i + Width(s), ScanWord(st, i, s[0], s[1..]));
    }
  }

  /** FlagIndexMap holds an action option exactly when the scan saw it. */
  lemma ParseRecordsActions(s: seq<string>)
    ensures ActionsRecorded(ScanOf(s))
  {
    forall j | 0 <= j < |s| ensures Keyed(Words(s)[j]) { ReadKeyed(s[j]); }
    ScanRecordsActions(Words(s), 0, Fresh());
  }

  // -------------------------------------------------------------- explicit PIC

  /** PrependExplicitPICArgs up to its Parse, for a parser whose recorded flags are given. */
  function WithPic(s: seq<string>, flags: map<string, int>, picDefault: bool, pieDefault: bool): seq<string> {
    var noPic := "-fno-pic" !in flags && "-fno-PIC" !in flags && "-fPIC" !in flags && "-fpic" !in flags;
    var noPie := "-fno-pie" !in flags && "-fno-PIE" !in flags && "-fPIE" !in flags && "-fpie" !in flags;
    var s1 := if picDefault && noPic then ["-fPIC"] + s else s;
    if pieDefault && noPie then ["-fPIE"] + s1 else s1
  }

  lemma PicKind(a: string)
    requires a == "-fPIC" || a == "-fPIE"
    ensures Classify(a).Pic?
  {
    assert a in PIC_ARGS;
    assert a[1] == 'f';
  }

  lemma PicWord(a: string)
    requires a == "-fPIC" || a == "-fPIE"
    ensures Read(a).kind.Pic? && !Read(a).local && !IsUnsupported(a) && !IsJoinedOutput(a)
  {
    NotLocal(a);
    PicKind(a);
    assert a[1] == 'f' && a[2] == 'P';
  }

  lemma {:induction false} ScanShiftsAlike(s: seq<Word>, i: nat, j: nat, a: Scan, b: Scan)
    requires Obs(a) == Obs(b)
    ensures Obs(ScanFrom(s, i, a)) == Obs(ScanFrom(s, j, b))
    decreases |s|
  {
    if s != [] {
      ObsWord(a, b, i, j, s[0], s[1..], s[1..]);
      var w := Width(s);
      ScanShiftsAlike(s[w..], i + w, j + w, ScanWord(a, i, s[0], s[1..]), ScanWord(b, j, s[0], s[1..]));
    }
  }

  lemma PicIsTransparent(s: seq<Word>, w: Word, st: Scan)
    requires w.kind.Pic? && w.text != ""
    ensures Obs(ScanFrom([w] + s, 0, st)) == Obs(ScanFrom(s, 0, st))
    ensures Scannable([w] + s) <==> Scannable(s)
  {
    assert ([w] + s)[1..] == s;
    ScanShiftsAlike(s, 1, 0, ScanWord(st, 0, w, s), st);
  }

  lemma PrependPic(s: seq<string>, a: string)
    requires (a == "-fPIC" || a == "-fPIE") && Settled(s)
    ensures Settled([a] + s) && Obs(ScanOf([a] + s)) == Obs(ScanOf(s))
    ensures NoLocal([a] + s) <==> NoLocal(s)
    ensures Scannable(Words([a] + s)) <==> Scannable(Words(s))
  {
    PicWord(a);
    WordsCons(a, s);
    assert ([a] + s)[1..] == s;
    PicIsTransparent(Words(s), Read(a), Fresh());
  }

  lemma PicKeepsMeaning(s: seq<string>, flags: map<string, int>, pic: bool, pie: bool)
    requires Settled(s)
    ensures var t := WithPic(s, flags, pic, pie);
            && Settled(t) && Obs(ScanOf(t)) == Obs(ScanOf(s))
            && (NoLocal(t) <==> NoLocal(s)) && (Scannable(Words(t)) <==> Scannable(Words(s)))
  {
    PrependPic(s, "-fPIC");
    PrependPic(s, "-fPIE");
    PrependPic(["-fPIC"] + s, "-fPIE");
  }

  // ---------------------------------------------------------------- main result

  lemma {:induction false} ScannableAppend(s: seq<Word>, tail: seq<Word>)
    requires !EndsWaiting(s) && Scannable(s) && Scannable(tail)
    ensures Scannable(s + tail)
    decreases |s|
  {
    if s == [] {
      assert s + tail == tail;
    } else {
      assert (s + tail)[Width(s)..] == s[Width(s)..] + tail;
      ScannableAppend(s[Width(s)..], tail);
    }
  }

  /** Where Parse is idempotent, what it leaves can be parsed again. */
  lemma ParsedIsScannable(s: seq<string>, mode: RunMode)
    requires ParseIsIdempotent(s, mode) && Scannable(Words(Normalized(s)))
    ensures Scannable(Words(ParseOf(s, mode).args))
  {
    var n, st := Normalized(s), ScanOf(Normalized(s));
    IdempotentExactly(s, mode);
    if Adds(st) {
      var out := AddedOutput(st);
      ScanAddsPlain(n);
      SecondScan(n, out);
      WordsAppend(n, ["-o", out]);
      OutputWord(out);
      PairScannable(Read(out));
      ScannableAppend(Words(n), [O, Read(out)]);
    }
  }

  lemma PairScannable(r: Word)
    ensures Scannable([O, r])
  {
    assert [O, r][2..] == [];
  }

  /** The last two rewrites, from the arguments preprocessing leaves. */
  function SentFrom(args: seq<string>, mode: RunMode, pic: bool, pie: bool): Parsed {
    var stripped := ParseOf(WithoutLocal(args), mode);
    ParseOf(WithPic(stripped.args, stripped.flags, pic, pie), stripped.mode)
  }

  /** The command line after its own parsing and after preprocessing. */
  function Preprocessed(s: seq<string>, mode: RunMode): Parsed
    requires Scannable(Words(Normalized(Unwrapped(s))))
  {
    ParseDescribes(Unwrapped(s), mode);
    AfterPreprocessing(ParseOf(Unwrapped(s), mode))
  }

  /** The arguments sent to the agent, from the arguments a compile job starts with. */
  function Sent(s: seq<string>, mode: RunMode, pic: bool, pie: bool): Parsed
    requires Scannable(Words(Normalized(Unwrapped(s))))
  {
    var p := Preprocessed(s, mode);
    SentFrom(p.args, p.mode, pic, pie)
  }

  /** No parse on the way to the agent meets an empty argument where it looks at one. */
  ghost predicate Parseable(args: seq<string>, mode: RunMode, pic: bool, pie: bool) {
    var stripped := ParseOf(WithoutLocal(args), mode);
    && Scannable(Words(Normalized(WithoutLocal(args))))
    && Scannable(Words(Normalized(WithPic(stripped.args, stripped.flags, pic, pie))))
  }

  /** The conditions under which the rewrites are known not to disturb each other. */
  ghost predicate Sendable(s: seq<string>, mode: RunMode) {
    var u := Unwrapped(s);
    var first := ParseOf(u, mode);
    && Scannable(Words(Normalized(u))) && ParseIsIdempotent(u, mode)
    && ValuesKept(Words(first.args)) && !BothActions(first.flags)
  }

  lemma SentIsSettled(s: seq<string>, mode: RunMode, pic: bool, pie: bool)
    requires Sendable(s, mode)
    ensures var first := ParseOf(Unwrapped(s), mode);
            var stripped := ParseOf(WithoutLocal(first.args), first.mode);
            var sent := SentFrom(first.args, first.mode, pic, pie);
            && stripped.args == Normalized(stripped.args) == WithoutLocal(first.args) && Scannable(Words(stripped.args))
            && Scannable(Words(first.args))
            && Settled(sent.args) && Scannable(Words(sent.args)) && NoLocal(sent.args)
            && sent.args == Normalized(sent.args) == WithPic(stripped.args, stripped.flags, pic, pie)
            && Obs(ScanOf(sent.args)) == Obs(ScanOf(first.args))
  {
    var first := ParseOf(Unwrapped(s), mode);
    IdempotentSettles(Unwrapped(s), mode);
    ParsedIsScannable(Unwrapped(s), mode);
    var kept := WithoutLocal(first.args);
    var stripped := ParseOf(kept, first.mode);
    RemovalKeepsMeaning(first.args);
    NothingLocalLeft(first.args, first.mode);
    SettledParse(kept, first.mode);
    PicKeepsMeaning(kept, stripped.flags, pic, pie);
    SettledParse(WithPic(kept, stripped.flags, pic, pie), stripped.mode);
  }

  lemma PreprocessingKeepsIndices(p: Parsed)
    requires WellIndexed(p)
    ensures var q := AfterPreprocessing(p); q.mode == p.mode && q.input == p.input && q.output == p.output
  {
    if ActionOf(p.flags) != NoAction { PreprocessingIsTwoActions(p); }
  }

  /** Preprocessing puts the output path back, whatever happens to the action. */
  lemma PreprocessingKeepsOutput(p: Parsed)
    requires WellIndexed(p)
    ensures |AfterPreprocessing(p).args| == |p.args|
    ensures p.output != -1 ==> AfterPreprocessing(p).args[p.output] == p.args[p.output]
  {
    if ActionOf(p.flags) != NoAction { PreprocessingIsTwoActions(p); }
  }

  /** Under the conditions preprocessing takes no part in what is sent, and nothing panics. */
  lemma SentDirectly(s: seq<string>, mode: RunMode, pic: bool, pie: bool)
    requires Sendable(s, mode)
    ensures var first := ParseOf(Unwrapped(s), mode);
            && WellIndexed(first) && AfterPreprocessing(first).args == first.args
            && Sent(s, mode, pic, pie) == SentFrom(first.args, first.mode, pic, pie)
            && Parseable(first.args, first.mode, pic, pie)
  {
    var first := ParseOf(Unwrapped(s), mode);
    ParseDescribes(Unwrapped(s), mode);
    PreprocessingRestoresExactly(first);
    PreprocessingKeepsIndices(first);
    SentIsSettled(s, mode, pic, pie);
  }

  /** The same of the three action options are recorded. */
  predicate SameActions(a: map<string, int>, b: map<string, int>) {
    ("-c" in a <==> "-c" in b) && ("-S" in a <==> "-S" in b) && ("-E" in a <==> "-E" in b)
  }

  /** Two parsed command lines ask for the same thing: the same actions, input and output. */
  ghost predicate AsksTheSame(p: Parsed, q: Parsed)
    requires WellIndexed(p) && WellIndexed(q)
  {
    && SameActions(p.flags, q.flags)
    && (p.input == -1 <==> q.input == -1) && (p.input != -1 ==> p.args[p.input] == q.args[q.input])
    && (p.output == -1 <==> q.output == -1) && (p.output != -1 ==> p.args[p.output] == q.args[q.output])
  }

  /** Settled command lines with the same observations ask for the same thing. */
  lemma ObservedAlike(s: seq<string>, t: seq<string>, m: RunMode, m': RunMode)
    requires Settled(s) && Settled(t) && Scannable(Words(s)) && Scannable(Words(t))
    requires Obs(ScanOf(s)) == Obs(ScanOf(t))
    ensures Describes(ParseOf(s, m), ScanOf(s)) && Describes(ParseOf(t, m'), ScanOf(t))
    ensures AsksTheSame(ParseOf(s, m), ParseOf(t, m'))
  {
    SettledParse(s, m);
    SettledParse(t, m');
    ParseDescribes(s, m);
    ParseDescribes(t, m');
    ParseRecordsActions(s);
    ParseRecordsActions(t);
  }

  /** What is sent to the agent carries no local-only option and asks for exactly the action, the
      input file and the output path the command line had after its own parsing; and preprocessing
      in between gave that command line back unchanged. */
  lemma SentAsksTheSame(s: seq<string>, mode: RunMode, pic: bool, pie: bool)
    requires Sendable(s, mode)
    ensures var first, sent := ParseOf(Unwrapped(s), mode), Sent(s, mode, pic, pie);
            && WellIndexed(first) && WellIndexed(sent)
            && AfterPreprocessing(first).args == first.args
            && NoLocal(sent.args) && AsksTheSame(first, sent)
  {
    var u := Unwrapped(s);
    var first := ParseOf(u, mode);
    var again := ParseOf(first.args, first.mode);
    SentDirectly(s, mode, pic, pie);
    SentIsSettled(s, mode, pic, pie);
    IdempotentSettles(u, mode);
    ReparsedFlags(u, mode);
    var stripped := ParseOf(WithoutLocal(first.args), first.mode);
    var sent := Sent(s, mode, pic, pie);
    SettledParse(sent.args, stripped.mode);
    ObservedAlike(first.args, sent.args, first.mode, stripped.mode);
    assert SameActions(first.flags, again.flags);
  }

  // ------------------------------------------------------------------- example

  const COMPILE_A: seq<string> := ["-c", "a.c"]

  lemma ShortExtension(base: string, x: char)
    requires base != "" && base[|base| - 1] == '.' && x != '.' && x != '/'
    ensures Ext(base + [x]) == ['.', x]
  {
    assert (base + [x])[..|base|] == base;
  }

  lemma ExampleNames()
    ensures Ext("a.c") == ".c" && Ext("a.o") == ".o" && ReplaceExtension("a.c", ".o") == "a.o"
  {
    ShortExtension("a.", 'c');
    ShortExtension("a.", 'o');
    assert "a." + ['c'] == "a.c" && "a." + ['o'] == "a.o";
    assert "a.c"[..1] + ".o" == "a.o";
  }

  lemma ExampleInput()
    ensures Read("a.c") == Word("a.c", Source, false)
  {
    ExampleNames();
    NotLocal("a.c");
  }

  lemma ExampleOutput()
    ensures Read("a.o") == Word("a.o", OtherOperand, false)
  {
    ExampleNames();
    NotLocal("a.o");
  }

  lemma ExampleWords()
    ensures Words(COMPILE_A) == [Word("-c", ActionC, false), Word("a.c", Source, false)]
  {
    ClassifyExamples();
    ExampleInput();
  }

  lemma ExampleScan(words: seq<Word>)
    requires words == [Word("-c", ActionC, false), Word("a.c", Source, false)]
    ensures ScanFrom(words, 0, Fresh()) == Scan(1, -1, map["-c" := 0], true, false, false, "a.c", "")
    ensures !EndsWaiting(words) && Scannable(words)
  {
    var last := words[1..];
    assert last == [Word("a.c", Source, false)] && last[1..] == [];
    var st := ScanWord(Fresh(), 0, words[0], last);
    assert ScanFrom(words, 0, Fresh()) == ScanFrom(last, 1, st) == ScanWord(st, 1, last[0], []);
    assert !EndsWaiting(last) && Scannable(last);
  }

  /** The conditions are met by an ordinary compile command. */
  lemma CompileCommandIsSendable()
    ensures Sendable(COMPILE_A, Unset)
  {
    ExampleWords();
    ExampleNames();
    ExampleOutput();
    ExampleScan(Words(COMPILE_A));
    ExampleIsNormal();
    IdempotentExactly(COMPILE_A, Unset);
    var first := ParseOf(COMPILE_A, Unset);
    assert first.args == COMPILE_A + ["-o", "a.o"];
    WordsAppend(COMPILE_A, ["-o", "a.o"]);
    OutputWord("a.o");
    ExampleKept(Words(first.args));
  }

  lemma ExampleIsNormal()
    ensures Unwrapped(COMPILE_A) == COMPILE_A && Normalized(COMPILE_A) == COMPILE_A && JoinedOutputs(COMPILE_A) == 0
  {
    assert COMPILE_A[1..] == ["a.c"] && COMPILE_A[1..][1..] == [];
    assert Unwrapped(["a.c"]) == ["a.c"] && AllSupported(["a.c"]) && JoinedOutputs(["a.c"]) == 0;
    NormalizedFacts(COMPILE_A);
  }

  lemma ExampleKept(words: seq<Word>)
    requires words == [Word("-c", ActionC, false), Word("a.c", Source, false)] + [O, Word("a.o", OtherOperand, false)]
    ensures ValuesKept(words)
  {
    assert words[1..][1..] == [O, Word("a.o", OtherOperand, false)] && words[1..][1..][2..] == [];
    assert ValuesKept(words[1..][1..]);
    assert ValuesKept(words[1..]);
  }
}
