/** Command lines that show what the theorems about command lines leave room for. */
module ArgsExamples {
  import opened Common
  import opened Filenames
  import opened Args
  import opened ArgsIdempotence
  import opened ArgsIndices
  import opened ArgsActions
  import opened ArgsLocal
  import opened ArgsPreprocessor
  import opened ArgsRemote
  import opened ArgsSend
  import opened ArgsMode
  import opened ArgsLost

  // ---------------------------------------------------- single arguments, read

  const C: Word := Word("-c", ActionC, false)
  const S: Word := Word("-S", ActionS, false)
  const E: Word := Word("-E", ActionE, false)
  const A: Word := Word("a.c", Source, false)
  const X: Word := Word("-xc", Language(true), false)
  const D: Word := Word("-Da.o", OtherOption, true)

  lemma ReadC()
    ensures Read("-c") == C
  {
    ClassifyExamples();
  }

  lemma ReadS()
    ensures Read("-S") == S
  {
    NotLocal("-S");
  }

  lemma ReadE()
    ensures Read("-E") == E
  {
    NotLocal("-E");
  }

  lemma ReadO()
    ensures Read("-o") == O
  {
    OutputWord("");
    assert Words(["-o", ""])[0] == Read("-o");
  }

  lemma ReadLanguage()
    ensures Read("-xc") == X
  {
    NotLocal("-xc");
  }

  lemma ReadDefine()
    ensures Read("-Da.o") == D
  {
    assert "-Da.o"[1] == 'D';
    KindByChars("-Da.o");
    assert "-D" <= "-Da.o";
    if "-Da.o" in LOCAL_ARGS_WITH_VALUES { ValueOptionChars("-Da.o"); }
  }

  lemma ReadPaths()
    ensures Read("a.c") == A && Ext("a.s") == ".s" && Ext("a.o") == ".o" && Ext("-Da.o") == ".o"
    ensures ReplaceExtension("a.c", ".s") == "a.s" && ReplaceExtension("a.c", ".o") == "a.o"
    ensures !IsLocalOption("a.s") && !IsLocalOption("a.o")
  {
    ExampleInput();
    ExampleNames();
    ShortExtension("a.", 's');
    ShortExtension("-Da.", 'o');
    assert "a." + ['s'] == "a.s" && "-Da." + ['o'] == "-Da.o";
    assert "a.c"[..1] + ".s" == "a.s";
    NotLocal("a.s");
    NotLocal("a.o");
  }

  lemma BaseOfInput()
    ensures Base("a.c") == "a.c"
  {
    assert "a.c"[..2] == "a." && "a."[..1] == "a";
    assert AfterLastSlash("a") == "a" && AfterLastSlash("a.") == "a.";
  }

  lemma TestFilesAreLong(f: string)
    requires f in CMAKE_TEST_FILES
    ensures |f| > 9
  {
  }

  lemma ShortIsOrdinary(f: string)
    requires |f| < 9 && Base(f) == f
    ensures !ShouldRunLocal(f)
  {
    if f in CMAKE_TEST_FILES { TestFilesAreLong(f); }
    assert !Contains(f, "CMakeTmp/src.");
  }

  lemma InputIsOrdinary()
    ensures !ShouldRunLocal("a.c")
  {
    BaseOfInput();
    ShortIsOrdinary("a.c");
  }

  // -------------------------------------------------------- scans, word by word

  lemma ThreeLookedAt(a: Word, b: Word, c: Word, st: Scan)
    requires !a.TakesValue() && !b.TakesValue() && a.text != "" && b.text != "" && c.text != ""
    ensures ScanFrom([a, b, c], 0, st) == ScanWord(ScanWord(ScanWord(st, 0, a, [b, c]), 1, b, [c]), 2, c, [])
    ensures Scannable([a, b, c]) && (EndsWaiting([a, b, c]) <==> c.TakesValue())
  {
    assert [a, b, c][1..] == [b, c] && [b, c][1..] == [c] && [c][1..] == [];
    assert Scannable([c]) && (EndsWaiting([c]) <==> c.TakesValue());
    assert Scannable([b, c]) && (EndsWaiting([b, c]) <==> c.TakesValue());
    var t := ScanWord(st, 0, a, [b, c]);
    assert ScanFrom([c], 2, ScanWord(t, 1, b, [c])) == ScanWord(ScanWord(t, 1, b, [c]), 2, c, []);
    assert ScanFrom([b, c], 1, t) == ScanFrom([c], 2, ScanWord(t, 1, b, [c]));
  }

  lemma LookedAtRemote(w: Word, rest: seq<Word>)
    requires !w.TakesValue() && !w.kind.Output?
    ensures Inputs([w] + rest) == One(w.kind.Source?) + Inputs(rest) && (LaterObject([w] + rest) <==> LaterObject(rest))
    ensures Blocked([w] + rest) <==> Blocks(w, rest) || Blocked(rest)
  {
    assert ([w] + rest)[1..] == rest;
  }

  ghost predicate Normal(s: seq<string>) {
    forall i | 0 <= i < |s| :: !IsUnsupported(s[i]) && !IsJoinedOutput(s[i]) && !("-Wp" <= s[i])
  }

  lemma {:induction false} NormalStays(s: seq<string>)
    requires Normal(s)
    ensures AllSupported(s) && JoinedOutputs(s) == 0 && Unwrapped(s) == s
  {
    if s != [] { NormalStays(s[1..]); }
  }

  lemma NormalIsNormalized(s: seq<string>)
    requires Normal(s)
    ensures Normalized(s) == s && Unwrapped(s) == s && AllSupported(s) && JoinedOutputs(s) == 0
  {
    NormalStays(s);
    NormalizedFacts(s);
  }

  // --------------------------------------------- a second pass forbids what the first allowed

  const JOINED: seq<string> := ["-c", "a.c", "-xc"]

  lemma JoinedWords()
    ensures Words(JOINED) == [C, A, X]
  {
    ReadC();
    ReadPaths();
    ReadLanguage();
  }

  lemma JoinedNormal()
    ensures Normal(JOINED)
  {
    assert JOINED[0][1] == 'c' && JOINED[1][0] == 'a' && JOINED[2][1] == 'x';
  }

  lemma JoinedScan()
    ensures ScanFrom([C, A, X], 0, Fresh()) == Scan(1, -1, map["-c" := 0], true, false, false, "a.c", "")
    ensures Scannable([C, A, X]) && !EndsWaiting([C, A, X])
  {
    ThreeLookedAt(C, A, X, Fresh());
  }

  lemma JoinedIsRemote(words: seq<Word>)
    requires words == [C, A, X]
    ensures Inputs(words) == 1 && !Blocked(words) && !LaterObject(words) && EndsWithLanguage(words)
  {
    assert words == [C] + [A, X] && [A, X] == [A] + [X] && [X] == [X] + [];
    LookedAtRemote(C, [A, X]);
    LookedAtRemote(A, [X]);
    LookedAtRemote(X, []);
    assert words[1..] == [A, X] && [A, X][1..] == [X];
    assert EndsWithLanguage([X]) && EndsWithLanguage([A, X]);
  }

  /** Parse allows remote compilation, and on its own result forbids it: the "-o" it added is taken
      for the language of "-xc". */
  lemma JoinedLanguageBreaksMode()
    ensures var once := ParseOf(JOINED, Unset);
            && ParseIsIdempotent(JOINED, Unset) && once.mode == RunRemote
            && ParseOf(once.args, once.mode).mode == RunLocal
  {
    JoinedWords();
    JoinedNormal();
    NormalIsNormalized(JOINED);
    JoinedScan();
    JoinedIsRemote(Words(JOINED));
    InputIsOrdinary();
    RemoteExactly(JOINED, Unset);
    IdempotentExactly(JOINED, Unset);
    ModeKeptExactly(JOINED, Unset);
    var once := ParseOf(JOINED, Unset);
    LocalIsFinal(once.args, once.mode);
  }

  // ------------------------------------------------ preprocessing loses the action

  const BOTH: seq<string> := ["-c", "-S", "a.c"]
  const MIXED: seq<string> := ["-E", "-c", "a.c"] + ["-o", "a.s"]

  lemma BothWords()
    ensures Words(BOTH) == [C, S, A]
  {
    ReadC();
    ReadS();
    ReadPaths();
  }

  lemma BothNormal()
    ensures Normal(BOTH)
  {
    assert BOTH[0][1] == 'c' && BOTH[1][1] == 'S' && BOTH[2][0] == 'a';
  }

  lemma BothScan()
    ensures ScanFrom([C, S, A], 0, Fresh()) == Scan(2, -1, map["-c" := 0, "-S" := 1], true, true, false, "a.c", "")
    ensures Scannable([C, S, A])
  {
    ThreeLookedAt(C, S, A, Fresh());
  }

  lemma BothIsRemote()
    ensures Inputs([C, S, A]) == 1 && !Blocked([C, S, A]) && !LaterObject([C, S, A])
  {
    assert [C, S, A] == [C] + [S, A] && [S, A] == [S] + [A] && [A] == [A] + [];
    LookedAtRemote(C, [S, A]);
    LookedAtRemote(S, [A]);
    LookedAtRemote(A, []);
  }

  lemma BothParsed()
    ensures Scannable(Words(Normalized(BOTH))) && Unwrapped(BOTH) == BOTH
    ensures ParseOf(BOTH, Unset) == Parsed(BOTH + ["-o", "a.s"], RunRemote, 2, 4, map["-c" := 0, "-S" := 1])
  {
    BothWords();
    BothNormal();
    NormalIsNormalized(BOTH);
    BothScan();
    BothIsRemote();
    ReadPaths();
    InputIsOrdinary();
    RemoteExactly(BOTH, Unset);
  }

  lemma MixedWords()
    ensures Words(MIXED) == [E, C, A] + [O, Read("a.s")]
  {
    ReadC();
    ReadE();
    ReadPaths();
    OutputWord("a.s");
    WordsAppend(["-E", "-c", "a.c"], ["-o", "a.s"]);
    assert Words(["-E", "-c", "a.c"]) == [E, C, A];
  }

  lemma MixedNormal()
    ensures Normal(MIXED)
  {
    assert MIXED[0][1] == 'E' && MIXED[1][1] == 'c' && MIXED[2][0] == 'a' && MIXED[3] == "-o" && MIXED[4][0] == 'a';
  }

  lemma MixedIsRemote()
    ensures WithoutLocal(MIXED) == MIXED
  {
    NotLocal("-E");
    NotLocal("-c");
    NotLocal("-o");
    NotLocal("a.c");
    NotLocal("a.s");
    NothingToRemove(MIXED);
  }

  lemma {:induction false} NothingToRemove(s: seq<string>)
    requires forall i | 0 <= i < |s| :: !IsLocalOption(s[i])
    ensures WithoutLocal(s) == s
  {
    if s != [] { NothingToRemove(s[1..]); }
  }

  lemma MixedSettled()
    ensures Settled(MIXED) && Scannable(Words(MIXED))
  {
    MixedWords();
    MixedNormal();
    NormalIsNormalized(MIXED);
    ThreeLookedAt(E, C, A, Fresh());
    ScanPairAfter([E, C, A], Read("a.s"), Fresh());
    PairScannable(Read("a.s"));
    ScannableAppend([E, C, A], [O, Read("a.s")]);
  }

  lemma MixedSent(mode: RunMode)
    ensures SentFrom(MIXED, mode, false, false).args == MIXED && Parseable(MIXED, mode, false, false)
  {
    MixedIsRemote();
    MixedSettled();
    var stripped := ParseOf(MIXED, mode);
    SettledParse(MIXED, mode);
    SettledParse(MIXED, stripped.mode);
  }

  lemma BothMixedUp(first: Parsed)
    requires first == Parsed(BOTH + ["-o", "a.s"], RunRemote, 2, 4, map["-c" := 0, "-S" := 1])
    requires WellIndexed(first) && ActionsExact(first)
    ensures AfterPreprocessing(first).args == MIXED
  {
    PreprocessingMixesUpBoth(first);
    assert first.args[0 := "-E"][1 := "-c"] == MIXED;
  }

  /** A command line Parse allows to be compiled remotely, and what is sent for it: the action to
      stop after is preprocessing, and generating assembly is not asked for any more. */
  lemma PreprocessingLosesAssembly()
    ensures Scannable(Words(Normalized(Unwrapped(BOTH))))
    ensures ParseOf(BOTH, Unset).mode == RunRemote && ParseOf(BOTH, Unset).args == BOTH + ["-o", "a.s"]
    ensures var p := Preprocessed(BOTH, Unset);
            && p.args == MIXED && Parseable(MIXED, p.mode, false, false)
            && Sent(BOTH, Unset, false, false).args == MIXED
  {
    BothParsed();
    ParseDescribes(BOTH, Unset);
    BothMixedUp(ParseOf(BOTH, Unset));
    MixedSent(Preprocessed(BOTH, Unset).mode);
  }

  // --------------------------------------------------- the output path is lost

  const LOST: seq<string> := ["-c", "a.c"] + ["-o", "-Da.o"]

  lemma LostWords()
    ensures Words(LOST) == [C, A] + [O, D]
  {
    ExampleWords();
    ReadDefine();
    OutputWord("-Da.o");
    WordsAppend(["-c", "a.c"], ["-o", "-Da.o"]);
  }

  lemma LostNormal()
    ensures Normal(LOST) && Normal(["-c", "a.c", "-o"])
  {
    assert LOST[0][1] == 'c' && LOST[1][0] == 'a' && LOST[2] == "-o" && LOST[3][1] == 'D';
  }

  lemma LostIsRemote()
    ensures Inputs([C, A] + [O, D]) == 1 && !Blocked([C, A] + [O, D]) && !LaterObject([C, A] + [O, D])
  {
    assert [C, A] == [C] + [A] && [A] == [A] + [] && [C, A][1..] == [A] && [A][1..] == [];
    LookedAtRemote(C, [A]);
    LookedAtRemote(A, []);
    assert NoOutput([A]) && !EndsWithLanguage([A]);
    ExampleScan([C, A]);
    ReadPaths();
    AddedPairCounts([C, A], D);
    AddedPairBlocks([C, A], D);
  }

  lemma LostParsed()
    ensures Scannable(Words(Normalized(LOST)))
    ensures ParseOf(LOST, Unset) == Parsed(LOST, RunRemote, 1, 3, map["-c" := 0, "-o" := 2])
  {
    LostWords();
    LostNormal();
    NormalIsNormalized(LOST);
    ExampleScan([C, A]);
    ScanPairAfter([C, A], D, Fresh());
    PairScannable(D);
    ScannableAppend([C, A], [O, D]);
    LostIsRemote();
    InputIsOrdinary();
    RemoteExactly(LOST, Unset);
  }

  lemma LostRemoved()
    ensures WithoutLocal(LOST) == ["-c", "a.c", "-o"]
  {
    ReadDefine();
    NotLocal("-c");
    NotLocal("-o");
    NotLocal("a.c");
    assert LOST[1..] == ["a.c", "-o", "-Da.o"] && LOST[1..][1..] == ["-o", "-Da.o"];
    assert ["-o", "-Da.o"][1..] == ["-Da.o"] && ["-Da.o"][1..] == [];
    assert WithoutLocal(["-Da.o"]) == [];
    assert WithoutLocal(["-o", "-Da.o"]) == ["-o"];
    assert WithoutLocal(["a.c", "-o", "-Da.o"]) == ["a.c", "-o"];
  }

  lemma ShortenedWords()
    ensures Words(["-c", "a.c", "-o"]) == [C, A, O]
  {
    ReadC();
    ReadO();
    ReadPaths();
  }

  lemma ShortenedScan()
    ensures ScanFrom([C, A, O], 0, Fresh()) == Scan(1, -1, map["-c" := 0, "-o" := 2], true, false, false, "a.c", "")
  {
    ThreeLookedAt(C, A, O, Fresh());
  }

  lemma ShortenedParsed(s: seq<string>, mode: RunMode)
    requires s == ["-c", "a.c", "-o"]
    ensures ParseOf(s, mode).args == s + ["-o", "a.o"] && ParseOf(s, mode).output == 4
  {
    LostNormal();
    NormalIsNormalized(s);
    ShortenedWords();
    ShortenedScan();
    ReadPaths();
  }

  /** A command line Parse allows to be compiled remotely, and RemoveLocalArgs: the output path is
      dropped, its "-o" stays, and another one is added. */
  lemma OutputPathIsReplaced()
    ensures var p := ParseOf(LOST, Unset); var q := ParseOf(WithoutLocal(p.args), p.mode);
            && p.mode == RunRemote && p.output == 3 && p.args == ["-c", "a.c", "-o", "-Da.o"] && OutputIsLocal(p)
            && q.output == 4 && q.args == ["-c", "a.c", "-o", "-o", "a.o"]
  {
    LostParsed();
    LostRemoved();
    ReadDefine();
    ShortenedParsed(["-c", "a.c", "-o"], RunRemote);
  }
}
