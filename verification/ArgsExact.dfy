/** Exactly when the command line sent to an agent asks for what the original one asked for. */
module ArgsExact {
  import opened Args
  import opened ArgsIdempotence
  import opened ArgsIndices
  import opened ArgsActions
  import opened ArgsLocal
  import opened ArgsPreprocessor
  import opened ArgsRemote
  import opened ArgsSend
  import opened ArgsLost

  // ------------------------------------------------- recorded positions are looked at

  /** A scan at position k gets to look at the argument at position i. */
  predicate LookedAt(words: seq<Word>, k: nat, i: int)
    requires k <= |words|
    decreases |words| - k
  {
    k <= i < |words| && (i == k || LookedAt(words, k + Width(words[k..]), i))
  }

  lemma {:induction false} RecordedIsLookedAt(words: seq<Word>, k: nat, st: Scan, key: string)
    requires k <= |words| && key in ScanFrom(words[k..], k, st).flags
    ensures var i := ScanFrom(words[k..], k, st).flags[key];
            LookedAt(words, k, i) || (key in st.flags && st.flags[key] == i)
    decreases |words| - k
  {
    if k < |words| {
      ScanUnfold(words, k, st);
      RecordedIsLookedAt(words, k + Width(words[k..]), ScanWord(st, k, words[k], words[k + 1..]), key);
    }
  }

  // ---------------------------------------- exchanging actions keeps everything else

  predicate Action(w: Word) { !w.local && w.text != "" && (w.kind.ActionC? || w.kind.ActionS? || w.kind.ActionE?) }

  /** The second list has other actions where the first one has some, at positions i and j. */
  ghost predicate Exchanged(words: seq<Word>, words': seq<Word>, i: int, j: int) {
    && |words'| == |words|
    && (forall k | 0 <= k < |words| && k != i && k != j :: words'[k] == words[k])
    && (forall k | 0 <= k < |words| && (k == i || k == j) :: Action(words[k]) && Action(words'[k]))
  }

  ghost predicate AheadLookedAt(words: seq<Word>, k: nat, i: int)
    requires k <= |words|
  {
    k <= i ==> LookedAt(words, k, i)
  }

  lemma AheadNext(words: seq<Word>, k: nat, i: int)
    requires k < |words| && AheadLookedAt(words, k, i)
    ensures AheadLookedAt(words, k + Width(words[k..]), i) && (Width(words[k..]) == 2 ==> i != k + 1)
  {
    if k < i { assert LookedAt(words, k + Width(words[k..]), i); }
  }

  /** One turn over either list. */
  lemma ExchangedTurn(words: seq<Word>, words': seq<Word>, k: nat, i: int, j: int)
    requires k < |words| && Exchanged(words, words', i, j) && AheadLookedAt(words, k, i) && AheadLookedAt(words, k, j)
    ensures Width(words'[k..]) == Width(words[k..])
    ensures words'[k] == words[k] || (Action(words[k]) && Action(words'[k]))
    ensures Width(words[k..]) == 2 ==> words'[k] == words[k] && words'[k + 1] == words[k + 1]
  {
    AheadNext(words, k, i);
    AheadNext(words, k, j);
  }

  /** What a scan reports apart from actions. */
  predicate SameFiles(a: Scan, b: Scan) { a.inputArg == b.inputArg && a.outputArg == b.outputArg }

  lemma ExchangedWord(a: Scan, b: Scan, k: nat, w: Word, w': Word, rest: seq<Word>, rest': seq<Word>)
    requires SameFiles(a, b) && |rest| == |rest'| && (w == w' || (Action(w) && Action(w')))
    requires w.kind.Output? && rest != [] ==> rest[0] == rest'[0]
    ensures SameFiles(ScanWord(a, k, w, rest), ScanWord(b, k, w', rest'))
  {
  }

  lemma ExchangedStep(words: seq<Word>, words': seq<Word>, k: nat, i: int, j: int, a: Scan, b: Scan)
    requires k < |words| && Exchanged(words, words', i, j) && AheadLookedAt(words, k, i) && AheadLookedAt(words, k, j)
    requires SameFiles(a, b)
    ensures SameFiles(ScanWord(a, k, words[k], words[k + 1..]), ScanWord(b, k, words'[k], words'[k + 1..]))
  {
    ExchangedTurn(words, words', k, i, j);
    ExchangedWord(a, b, k, words[k], words'[k], words[k + 1..], words'[k + 1..]);
  }

  lemma {:induction false} ExchangedScan(
    words: seq<Word>, words': seq<Word>, k: nat, i: int, j: int, a: Scan, b: Scan)
    requires k <= |words| && Exchanged(words, words', i, j) && AheadLookedAt(words, k, i) && AheadLookedAt(words, k, j)
    requires SameFiles(a, b)
    ensures SameFiles(ScanFrom(words[k..], k, a), ScanFrom(words'[k..], k, b))
    decreases |words| - k
  {
    if k < |words| {
      ScanUnfold(words, k, a);
      ScanUnfold(words', k, b);
      ExchangedTurn(words, words', k, i, j);
      AheadNext(words, k, i);
      AheadNext(words, k, j);
      ExchangedStep(words, words', k, i, j, a, b);
      ExchangedScan(words, words', k + Width(words[k..]), i, j,
                    ScanWord(a, k, words[k], words[k + 1..]), ScanWord(b, k, words'[k], words'[k + 1..]));
    }
  }

  lemma {:induction false} ExchangedLookedAt(words: seq<Word>, words': seq<Word>, k: nat, i: int, j: int)
    requires k <= |words| && Exchanged(words, words', i, j) && LookedAt(words, k, i) && AheadLookedAt(words, k, j)
    ensures LookedAt(words', k, i)
    decreases |words| - k
  {
    if k < i {
      ExchangedTurn(words, words', k, i, j);
      AheadNext(words, k, j);
      ExchangedLookedAt(words, words', k + Width(words[k..]), i, j);
    }
  }

  lemma {:induction false} SeenStays(words: seq<Word>, k: nat, st: Scan)
    requires k <= |words| && st.seenE
    ensures ScanFrom(words[k..], k, st).seenE
    decreases |words| - k
  {
    if k < |words| {
      ScanUnfold(words, k, st);
      SeenStays(words, k + Width(words[k..]), ScanWord(st, k, words[k], words[k + 1..]));
    }
  }

  lemma {:induction false} LookedAtIsSeen(words: seq<Word>, k: nat, i: int, st: Scan)
    requires k <= |words| && LookedAt(words, k, i) && words[i].kind.ActionE?
    ensures ScanFrom(words[k..], k, st).seenE
    decreases |words| - k
  {
    var next, t := k + Width(words[k..]), ScanWord(st, k, words[k], words[k + 1..]);
    ScanUnfold(words, k, st);
    if i == k { SeenStays(words, next, t); } else { LookedAtIsSeen(words, next, i, t); }
  }

  lemma KeptUnfold(words: seq<Word>, k: nat)
    requires k < |words|
    ensures ValuesKept(words[k..]) <==>
              && (!words[k].local && words[k].TakesValue() && k + 1 < |words| ==> !words[k + 1].local)
              && ValuesKept(words[k + Width(words[k..])..])
    ensures Scannable(words[k..]) <==> words[k].text != "" && Scannable(words[k + Width(words[k..])..])
  {
    var s := words[k..];
    assert s[Width(s)..] == words[k + Width(s)..];
  }

  lemma {:induction false} ExchangedKept(words: seq<Word>, words': seq<Word>, k: nat, i: int, j: int)
    requires k <= |words| && Exchanged(words, words', i, j) && AheadLookedAt(words, k, i) && AheadLookedAt(words, k, j)
    requires ValuesKept(words[k..]) && Scannable(words[k..])
    ensures ValuesKept(words'[k..]) && Scannable(words'[k..])
    decreases |words| - k
  {
    if k < |words| {
      KeptUnfold(words, k);
      KeptUnfold(words', k);
      ExchangedTurn(words, words', k, i, j);
      AheadNext(words, k, i);
      AheadNext(words, k, j);
      ExchangedKept(words, words', k + Width(words[k..]), i, j);
    }
  }

  // ------------------------------------------------------ both actions are recorded

  /** The arguments preprocessing leaves when both "-c" and "-S" were recorded. */
  function Mixed(args: seq<string>, i: nat, j: nat): seq<string>
    requires i < |args| && j < |args|
  {
    args[i := "-E"][j := "-c"]
  }

  lemma ActionWords()
    ensures Action(Read("-c")) && Action(Read("-S")) && Action(Read("-E")) && Read("-E").kind.ActionE?
  {
    ActionText("-c");
    ActionText("-S");
    ActionText("-E");
    NotLocal("-c");
    NotLocal("-S");
    NotLocal("-E");
  }

  lemma MixedExchanges(args: seq<string>, i: nat, j: nat)
    requires i < |args| && j < |args| && args[i] == "-c" && args[j] == "-S"
    ensures Exchanged(Words(args), Words(Mixed(args, i, j)), i, j) && Words(Mixed(args, i, j))[i].kind.ActionE?
  {
    ActionWords();
    assert i != j;
  }

  lemma {:induction false} NormalUpdated(s: seq<string>, i: nat, a: string)
    requires i < |s| && AllSupported(s) && JoinedOutputs(s) == 0 && !IsUnsupported(a) && !IsJoinedOutput(a)
    ensures AllSupported(s[i := a]) && JoinedOutputs(s[i := a]) == 0
  {
    if i == 0 {
      assert s[i := a][1..] == s[1..];
    } else {
      NormalUpdated(s[1..], i - 1, a);
      assert s[i := a][1..] == s[1..][i - 1 := a];
    }
  }

  lemma MixedNormal(args: seq<string>, i: nat, j: nat)
    requires i < |args| && j < |args| && AllSupported(args) && JoinedOutputs(args) == 0
    ensures AllSupported(Mixed(args, i, j)) && JoinedOutputs(Mixed(args, i, j)) == 0
  {
    assert "-E"[1] == 'E' && "-c"[1] == 'c';
    NormalUpdated(args, i, "-E");
    NormalUpdated(args[i := "-E"], j, "-c");
  }

  /** The scan over the arguments preprocessing leaves: the same files, and "-E". */
  lemma MixedScan(args: seq<string>, i: nat, j: nat)
    requires "-c" in ScanOf(args).flags && ScanOf(args).flags["-c"] == i < |args|
    requires "-S" in ScanOf(args).flags && ScanOf(args).flags["-S"] == j < |args|
    requires args[i] == "-c" && args[j] == "-S" && ValuesKept(Words(args)) && Scannable(Words(args))
    ensures var words := Words(Mixed(args, i, j));
            && SameFiles(ScanOf(args), ScanOf(Mixed(args, i, j))) && ScanOf(Mixed(args, i, j)).seenE
            && ValuesKept(words) && Scannable(words)
  {
    var words, words' := Words(args), Words(Mixed(args, i, j));
    assert words[0..] == words && words'[0..] == words';
    RecordedIsLookedAt(words, 0, Fresh(), "-c");
    RecordedIsLookedAt(words, 0, Fresh(), "-S");
    MixedExchanges(args, i, j);
    ExchangedScan(words, words', 0, i, j, Fresh(), Fresh());
    ExchangedLookedAt(words, words', 0, i, j);
    LookedAtIsSeen(words', 0, i, Fresh());
    ExchangedKept(words, words', 0, i, j);
  }

  lemma MixedSettled(args: seq<string>, i: nat, j: nat)
    requires Settled(args) && ValuesKept(Words(args)) && Scannable(Words(args))
    requires "-c" in ScanOf(args).flags && ScanOf(args).flags["-c"] == i < |args|
    requires "-S" in ScanOf(args).flags && ScanOf(args).flags["-S"] == j < |args|
    requires args[i] == "-c" && args[j] == "-S"
    ensures var mixed := Mixed(args, i, j);
            Settled(mixed) && ValuesKept(Words(mixed)) && Scannable(Words(mixed)) && ScanOf(mixed).seenE
  {
    MixedNormal(args, i, j);
    MixedScan(args, i, j);
    ParseRecordsActions(args);
  }

  /** An "-E" among settled arguments is sent. */
  lemma PreprocessingIsSent(args: seq<string>, mode: RunMode, pic: bool, pie: bool)
    requires Settled(args) && ValuesKept(Words(args)) && Scannable(Words(args)) && ScanOf(args).seenE
    ensures "-E" in SentFrom(args, mode, pic, pie).flags
  {
    var kept := WithoutLocal(args);
    RemovalKeepsMeaning(args);
    SettledParse(kept, mode);
    var stripped := ParseOf(kept, mode);
    PicKeepsMeaning(kept, stripped.flags, pic, pie);
    var t := WithPic(kept, stripped.flags, pic, pie);
    SettledParse(t, stripped.mode);
    ParseRecordsActions(t);
  }

  /** What Parse allows to be compiled remotely has no "-E". */
  lemma RemoteHasNoPreprocessing(s: seq<string>, mode: RunMode)
    requires Scannable(Words(Normalized(s))) && ParseOf(s, mode).mode == RunRemote
    ensures "-E" !in ParseOf(s, mode).flags
  {
    var n := Normalized(s);
    RemoteExactly(s, mode);
    WordsNamed(n);
    ScanSummary(Words(n), 0, Fresh());
    ParseRecordsActions(n);
  }

  /** A second pass records the actions where the first one did. */
  lemma SettledFlags(s: seq<string>, mode: RunMode, k: string)
    requires ParseIsIdempotent(s, mode) && k != "-o" && k in ParseOf(s, mode).flags
    ensures var args := ParseOf(s, mode).args;
            k in ScanOf(args).flags && ScanOf(args).flags[k] == ParseOf(s, mode).flags[k]
  {
    var first := ParseOf(s, mode);
    ReparsedFlags(s, mode);
    IdempotentSettles(s, mode);
    SettledParse(first.args, first.mode);
  }

  // ---------------------------------------------------------------- main result

  /** What is sent asks for what the command line asked for after its own parsing. */
  ghost predicate SentRight(s: seq<string>, mode: RunMode, pic: bool, pie: bool)
    requires Scannable(Words(Normalized(Unwrapped(s)))) && WellIndexed(ParseOf(Unwrapped(s), mode))
  {
    var first, sent := ParseOf(Unwrapped(s), mode), Sent(s, mode, pic, pie);
    WellIndexed(sent) && AsksTheSame(first, sent)
  }

  lemma BothIsWrong(s: seq<string>, mode: RunMode, pic: bool, pie: bool)
    requires var u := Unwrapped(s);
             && Scannable(Words(Normalized(u))) && ParseIsIdempotent(u, mode) && ParseOf(u, mode).mode == RunRemote
             && BothActions(ParseOf(u, mode).flags) && ValuesKept(Words(ParseOf(u, mode).args))
    ensures WellIndexed(ParseOf(Unwrapped(s), mode)) && !SentRight(s, mode, pic, pie)
  {
    var u := Unwrapped(s);
    var first := ParseOf(u, mode);
    ParseDescribes(u, mode);
    PreprocessingMixesUpBoth(first);
    IdempotentSettles(u, mode);
    ParsedIsScannable(u, mode);
    SettledFlags(u, mode, "-c");
    SettledFlags(u, mode, "-S");
    MixedSettled(first.args, first.flags["-c"], first.flags["-S"]);
    var p := Preprocessed(s, mode);
    PreprocessingIsSent(p.args, p.mode, pic, pie);
    RemoteHasNoPreprocessing(u, mode);
  }

  lemma PicAddsNoLocal(s: seq<string>, flags: map<string, int>, pic: bool, pie: bool)
    requires NoLocal(s)
    ensures NoLocal(WithPic(s, flags, pic, pie))
  {
    PicWord("-fPIC");
    PicWord("-fPIE");
    var t := ["-fPIC"] + s;
    assert t[1..] == s && (["-fPIE"] + s)[1..] == s && (["-fPIE"] + t)[1..] == t;
  }

  lemma NothingLocalSent(args: seq<string>, mode: RunMode, pic: bool, pie: bool)
    ensures NoLocal(SentFrom(args, mode, pic, pie).args)
  {
    var stripped := ParseOf(WithoutLocal(args), mode);
    NothingLocalLeft(args, mode);
    PicAddsNoLocal(stripped.args, stripped.flags, pic, pie);
    ParseAddsNoLocal(WithPic(stripped.args, stripped.flags, pic, pie), stripped.mode);
  }

  lemma LocalOutputIsWrong(s: seq<string>, mode: RunMode, pic: bool, pie: bool)
    requires Scannable(Words(Normalized(Unwrapped(s)))) && OutputIsLocal(ParseOf(Unwrapped(s), mode))
    ensures WellIndexed(ParseOf(Unwrapped(s), mode)) && !SentRight(s, mode, pic, pie)
  {
    var first, sent, p := ParseOf(Unwrapped(s), mode), Sent(s, mode, pic, pie), Preprocessed(s, mode);
    ParseDescribes(Unwrapped(s), mode);
    NothingLocalSent(p.args, p.mode, pic, pie);
    if first.args[first.output] in sent.args { NoLocalMember(sent.args, first.args[first.output]); }
  }

  /** Of a command line that may be compiled remotely, and in which no overridden "-o" has a local
      path, what is sent asks for the same actions, input and output exactly when not both "-c" and
      "-S" were recorded and the output path is not spelled like a local option. */
  lemma SentRightExactly(s: seq<string>, mode: RunMode, pic: bool, pie: bool)
    requires var u := Unwrapped(s);
             && Scannable(Words(Normalized(u))) && ParseIsIdempotent(u, mode) && ParseOf(u, mode).mode == RunRemote
             && OverriddenKept(Words(Normalized(u)), 0, ScanOf(Normalized(u)).output)
    ensures var first := ParseOf(Unwrapped(s), mode);
            && WellIndexed(first)
            && (SentRight(s, mode, pic, pie) <==> !BothActions(first.flags) && !OutputIsLocal(first))
  {
    var u := Unwrapped(s);
    ParseDescribes(u, mode);
    if OutputIsLocal(ParseOf(u, mode)) {
      LocalOutputIsWrong(s, mode, pic, pie);
    } else {
      RemoteExactly(u, mode);
      OutputNotLocal(u, mode);
      SettledKept(u, mode);
      if BothActions(ParseOf(u, mode).flags) {
        BothIsWrong(s, mode, pic, pie);
      } else {
        SentAsksTheSame(s, mode, pic, pie);
      }
    }
  }
}
