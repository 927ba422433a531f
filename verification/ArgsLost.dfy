/** What RemoveLocalArgs loses: the value of an option that is itself spelled like a local option. */
module ArgsLost {
  import opened Args
  import opened ArgsIdempotence
  import opened ArgsIndices
  import opened ArgsLocal
  import opened ArgsRemote
  import opened ArgsSend

  /** After RemoveLocalArgs the command line asks for what it asked for before. */
  ghost predicate RequestKept(p: Parsed)
    requires WellIndexed(p)
  {
    var q := ParseOf(WithoutLocal(p.args), p.mode);
    WellIndexed(q) && AsksTheSame(p, q)
  }

  predicate OutputIsLocal(p: Parsed) { 0 <= p.output < |p.args| && IsLocalOption(p.args[p.output]) }

  /** An output path that is spelled like a local option is not the output path any more. */
  lemma LocalOutputIsLost(p: Parsed)
    requires WellIndexed(p) && OutputIsLocal(p)
    ensures !RequestKept(p)
    ensures p.args[p.output] !in ParseOf(WithoutLocal(p.args), p.mode).args
  {
    var q, v := ParseOf(WithoutLocal(p.args), p.mode), p.args[p.output];
    NothingLocalLeft(p.args, p.mode);
    if v in q.args { NoLocalMember(q.args, v); }
  }

  // --------------------------------------------- which values can be lost at all

  /** Every "-o" but the one whose value is at the given position has a value that is kept. */
  predicate OverriddenKept(s: seq<Word>, i: nat, at: int) {
    s == [] ||
    ((s[0].kind.Output? && |s| > 1 && s[1].local ==> i + 1 == at) && OverriddenKept(s[Width(s)..], i + Width(s), at))
  }

  /** Where the kind of an argument, its spelling and its being local meet. */
  predicate Spelling(w: Word) {
    && (w.local ==> w.text != "" && w.text[0] == '-')
    && (w.kind.LocalValue? || w.kind.DependencyValue? ==> w.local)
  }

  lemma ReadSpelling(a: string)
    ensures Spelling(Read(a))
  {
    if a in LOCAL_ARGS_WITH_VALUES { ValueOptionChars(a); }
    if HasLocalPrefix(a) || a in LOCAL_ARGS_NO_VALUES { PlainLocalChars(a); }
  }

  lemma PlainIsNotLocal(w: Word)
    requires Spelling(w) && PlainLanguage(w.text)
    ensures !w.local
  {
  }

  /** A command line nothing blocks keeps the values of all options but "-o". */
  lemma {:induction false} OnlyOutputsAreLost(words: seq<Word>, i: nat, at: int)
    requires i <= |words| && !Blocked(words[i..]) && OverriddenKept(words[i..], i, at)
    requires (forall j | 0 <= j < |words| :: Spelling(words[j])) && (0 <= at < |words| ==> !words[at].local)
    ensures ValuesKept(words[i..])
    decreases |words| - i
  {
    if i < |words| {
      var s := words[i..];
      assert s[1..] == words[i + 1..] && s[Width(s)..] == words[i + Width(s)..];
      if s[0].kind.Language? && |s| > 1 && PlainLanguage(s[1].text) { PlainIsNotLocal(s[1]); }
      OnlyOutputsAreLost(words, i + Width(s), at);
    }
  }

  lemma {:induction false} ValuesKeptAppend(s: seq<Word>, tail: seq<Word>)
    requires !EndsWaiting(s) && ValuesKept(s) && ValuesKept(tail)
    ensures ValuesKept(s + tail)
    decreases |s|
  {
    if s == [] {
      assert s + tail == tail;
    } else {
      assert (s + tail)[Width(s)..] == s[Width(s)..] + tail;
      ValuesKeptAppend(s[Width(s)..], tail);
    }
  }

  lemma AddedPairKept(n: seq<string>)
    requires ValuesKept(Words(n)) && !EndsWaiting(Words(n))
    ensures ValuesKept(Words(n + ["-o", AddedOutput(ScanOf(n))])) && !IsLocalOption(AddedOutput(ScanOf(n)))
  {
    var out := AddedOutput(ScanOf(n));
    ScanAddsPlain(n);
    NotLocal(out);
    WordsAppend(n, ["-o", out]);
    OutputWord(out);
    assert [O, Read(out)][2..] == [];
    assert ValuesKept([O, Read(out)]);
    ValuesKeptAppend(Words(n), [O, Read(out)]);
  }

  // ---------------------------------------------------------------- main result

  lemma ScanOutputText(n: seq<string>)
    requires Scannable(Words(n))
    ensures var st := ScanOf(n);
            st.output != -1 ==> 0 <= st.output < |n| && n[st.output] == st.outputArg
  {
    assert Words(n)[0..] == Words(n);
    ScanIndexed(Words(n), 0, Fresh());
  }

  lemma NormalKept(n: seq<string>)
    requires Scannable(Words(n)) && !Blocked(Words(n)) && OverriddenKept(Words(n), 0, ScanOf(n).output)
    requires !IsLocalOption(ScanOf(n).outputArg)
    ensures ValuesKept(Words(n))
  {
    forall j | 0 <= j < |n| ensures Spelling(Words(n)[j]) { ReadSpelling(n[j]); }
    ScanOutputText(n);
    assert Words(n)[0..] == Words(n);
    OnlyOutputsAreLost(Words(n), 0, ScanOf(n).output);
  }

  lemma EmptyIsNotLocal()
    ensures !IsLocalOption("")
  {
    NotLocal("");
  }

  lemma SettledKept(s: seq<string>, mode: RunMode)
    requires Scannable(Words(Normalized(s))) && ParseIsIdempotent(s, mode)
    requires !Blocked(Words(Normalized(s)))
    requires OverriddenKept(Words(Normalized(s)), 0, ScanOf(Normalized(s)).output)
    requires !IsLocalOption(ScanOf(Normalized(s)).outputArg)
    ensures ValuesKept(Words(ParseOf(s, mode).args))
  {
    var n := Normalized(s);
    NormalKept(n);
    IdempotentExactly(s, mode);
    if Adds(ScanOf(n)) { AddedPairKept(n); }
  }

  /** Two passes over a settled command line ask for the same thing. */
  lemma ReparseAsksTheSame(s: seq<string>, mode: RunMode)
    requires Scannable(Words(Normalized(s))) && ParseIsIdempotent(s, mode)
    ensures var p := ParseOf(s, mode); var again := ParseOf(p.args, p.mode);
            WellIndexed(p) && WellIndexed(again) && AsksTheSame(p, again)
  {
    var p := ParseOf(s, mode);
    var again := ParseOf(p.args, p.mode);
    ParseDescribes(s, mode);
    IdempotentSettles(s, mode);
    SettledParse(p.args, p.mode);
    ParsedIsScannable(s, mode);
    ParseDescribes(p.args, p.mode);
    ReparsedFlags(s, mode);
    assert SameActions(p.flags, again.flags);
  }

  lemma RemovalKeepsRequest(s: seq<string>, mode: RunMode)
    requires Scannable(Words(Normalized(s))) && ParseIsIdempotent(s, mode) && ValuesKept(Words(ParseOf(s, mode).args))
    ensures WellIndexed(ParseOf(s, mode)) && RequestKept(ParseOf(s, mode))
  {
    var p := ParseOf(s, mode);
    ReparseAsksTheSame(s, mode);
    IdempotentSettles(s, mode);
    ParsedIsScannable(s, mode);
    RemovalKeepsMeaning(p.args);
    ObservedAlike(p.args, WithoutLocal(p.args), p.mode, p.mode);
  }

  /** Of a command line that may be compiled remotely, and in which no overridden "-o" has a local
      path, RemoveLocalArgs keeps action, input and output exactly when the output path is not
      itself spelled like a local option. */
  lemma RequestKeptExactly(s: seq<string>, mode: RunMode)
    requires Scannable(Words(Normalized(s))) && ParseIsIdempotent(s, mode) && ParseOf(s, mode).mode == RunRemote
    requires OverriddenKept(Words(Normalized(s)), 0, ScanOf(Normalized(s)).output)
    ensures var p := ParseOf(s, mode); WellIndexed(p) && (RequestKept(p) <==> !OutputIsLocal(p))
  {
    var p, n := ParseOf(s, mode), Normalized(s);
    var st := ScanOf(n);
    ParseDescribes(s, mode);
    if OutputIsLocal(p) {
      LocalOutputIsLost(p);
    } else {
      RemoteExactly(s, mode);
      OutputNotLocal(s, mode);
      SettledKept(s, mode);
      RemovalKeepsRequest(s, mode);
    }
  }

  lemma OutputNotLocal(s: seq<string>, mode: RunMode)
    requires Scannable(Words(Normalized(s))) && !OutputIsLocal(ParseOf(s, mode))
    ensures !IsLocalOption(ScanOf(Normalized(s)).outputArg)
  {
    EmptyIsNotLocal();
    ParseDescribes(s, mode);
  }
}
