/** When running Parse twice is the same as running it once. */
module ArgsIdempotence {
  import opened Filenames
  import opened Args

  lemma WordAhead(st: Scan, i: nat, w: Word, rest: seq<Word>, rest': seq<Word>)
    requires w.kind.Output? ==> rest != [] && rest' != [] && rest[0] == rest'[0]
    ensures ScanWord(st, i, w, rest) == ScanWord(st, i, w, rest')
  {
  }

  lemma ScanStep(s: seq<Word>, tail: seq<Word>, i: nat, st: Scan)
    requires s != [] && (s[0].TakesValue() ==> |s| > 1)
    ensures ScanFrom(s + tail, i, st) == ScanFrom(s[Width(s)..] + tail, i + Width(s), ScanWord(st, i, s[0], s[1..]))
  {
    var w, all := Width(s), s + tail;
    assert all[w..] == s[w..] + tail;
    WordAhead(st, i, s[0], all[1..], s[1..]);
  }

  /** One turn of the scan, by position. */
  lemma ScanUnfold(words: seq<Word>, i: nat, st: Scan)
    requires i < |words|
    ensures var w := Width(words[i..]);
            && ScanFrom(words[i..], i, st) == ScanFrom(words[i + w..], i + w, ScanWord(st, i, words[i], words[i + 1..]))
            && (Scannable(words[i..]) <==> words[i].text != "" && Scannable(words[i + w..]))
  {
    var s := words[i..];
    assert s[1..] == words[i + 1..] && s[Width(s)..] == words[i + Width(s)..];
  }

  lemma WaitingUnfold(words: seq<Word>, i: nat)
    requires i < |words| && !EndsWaiting(words[i..])
    ensures (words[i].TakesValue() ==> i + 1 < |words|) && !EndsWaiting(words[i + Width(words[i..])..])
  {
    var s := words[i..];
    assert s[Width(s)..] == words[i + Width(s)..];
  }

  lemma SameTurn(s: seq<Word>, all: seq<Word>, i: nat, st: Scan)
    requires s <= all && i < |s| && (s[i].TakesValue() ==> i + 1 < |s|)
    ensures Width(all[i..]) == Width(s[i..])
    ensures ScanWord(st, i, all[i], all[i + 1..]) == ScanWord(st, i, s[i], s[i + 1..])
  {
    WordAhead(st, i, s[i], all[i + 1..], s[i + 1..]);
  }

  /** A turn over a prefix is the same turn over the whole. */
  lemma PrefixTurn(s: seq<Word>, all: seq<Word>, i: nat, st: Scan)
    requires s <= all && i < |s| && !EndsWaiting(s[i..])
    ensures var next, t := i + Width(s[i..]), ScanWord(st, i, s[i], s[i + 1..]);
            && !EndsWaiting(s[next..]) && ScanFrom(s[i..], i, st) == ScanFrom(s[next..], next, t)
            && ScanFrom(all[i..], i, st) == ScanFrom(all[next..], next, t)
  {
    WaitingUnfold(s, i);
    SameTurn(s, all, i, st);
    ScanUnfold(s, i, st);
    ScanUnfold(all, i, st);
  }

  lemma {:induction false} ScanPrefix(s: seq<Word>, all: seq<Word>, i: nat, st: Scan)
    requires i <= |s| && s <= all && !EndsWaiting(s[i..])
    ensures ScanFrom(all[i..], i, st) == ScanFrom(all[|s|..], |s|, ScanFrom(s[i..], i, st))
    decreases |s| - i
  {
    if i < |s| {
      PrefixTurn(s, all, i, st);
      ScanPrefix(s, all, i + Width(s[i..]), ScanWord(st, i, s[i], s[i + 1..]));
    }
  }

  /** A scan that does not end waiting goes on over further arguments as if it had stopped and
      been resumed. */
  lemma ScanAppend(s: seq<Word>, tail: seq<Word>, st: Scan)
    requires !EndsWaiting(s)
    ensures ScanFrom(s + tail, 0, st) == ScanFrom(tail, |s|, ScanFrom(s, 0, st))
  {
    var all := s + tail;
    assert s[0..] == s && all[0..] == all && all[|s|..] == tail;
    ScanPrefix(s, all, 0, st);
  }

  /** Once a command line was found to need local compilation, no later Parse forgets it, and
      Parse always decides. */
  lemma LocalIsFinal(s: seq<string>, mode: RunMode)
    ensures ParseOf(s, mode).mode != Unset
    ensures mode == RunLocal ==> ParseOf(s, mode).mode == RunLocal
  {
  }

  // ----------------------------------------------------------- normalisation

  predicate AllSupported(s: seq<string>) {
    s == [] || (!IsUnsupported(s[0]) && AllSupported(s[1..]))
  }

  /** How many arguments are an "-o" joined to its path. */
  function JoinedOutputs(s: seq<string>): nat {
    if s == [] then 0 else (if IsJoinedOutput(s[0]) then 1 else 0) + JoinedOutputs(s[1..])
  }

  lemma JoinedPieces(a: string)
    requires IsJoinedOutput(a)
    ensures !IsUnsupported(a)
    ensures !IsUnsupported("-o") && !IsJoinedOutput("-o")
    ensures !IsUnsupported(a[2..]) && !IsJoinedOutput(a[2..])
  {
    assert a[2..][0] == '/';
  }

  lemma {:induction false} StrippedFacts(s: seq<string>)
    ensures AllSupported(Stripped(s)) && JoinedOutputs(Stripped(s)) == JoinedOutputs(s)
    ensures AllSupported(s) ==> Stripped(s) == s
  {
    if s != [] {
      StrippedFacts(s[1..]);
      if IsJoinedOutput(s[0]) { JoinedPieces(s[0]); }
      assert ([s[0]] + Stripped(s[1..]))[1..] == Stripped(s[1..]);
    }
  }

  /** One pass separates one joined output. */
  lemma {:induction false} StandardizedFacts(s: seq<string>)
    ensures JoinedOutputs(s) == 0 ==> Standardized(s) == s
    ensures JoinedOutputs(s) > 0 ==>
              |Standardized(s)| == |s| + 1 && JoinedOutputs(Standardized(s)) == JoinedOutputs(s) - 1
    ensures AllSupported(s) ==> AllSupported(Standardized(s))
  {
    if s == [] {
    } else if IsJoinedOutput(s[0]) {
      JoinedPieces(s[0]);
      var pair := Standardized(s);
      assert pair[1..] == [s[0][2..]] + s[1..];
      assert pair[1..][1..] == s[1..];
    } else {
      StandardizedFacts(s[1..]);
      assert ([s[0]] + Standardized(s[1..]))[1..] == Standardized(s[1..]);
    }
  }

  lemma {:induction false} AppendFacts(s: seq<string>, t: seq<string>)
    ensures AllSupported(s + t) <==> AllSupported(s) && AllSupported(t)
    ensures JoinedOutputs(s + t) == JoinedOutputs(s) + JoinedOutputs(t)
  {
    if s == [] {
      assert s + t == t;
    } else {
      AppendFacts(s[1..], t);
      assert (s + t)[1..] == s[1..] + t;
    }
  }

  // ---------------------------------------------------------- added outputs

  /** What an input argument looks like: never an option. */
  predicate Operand(a: string) { a == "" || a == "-" || a[0] != '-' }

  predicate OperandsOnly(s: seq<Word>) {
    forall i | 0 <= i < |s| && s[i].kind.Source? :: Operand(s[i].text)
  }

  lemma {:induction false} InputIsOperand(s: seq<Word>, i: nat, st: Scan)
    requires OperandsOnly(s) && Operand(st.inputArg)
    ensures Operand(ScanFrom(s, i, st).inputArg)
    decreases |s|
  {
    if s != [] {
      InputIsOperand(s[Width(s)..], i + Width(s), ScanWord(st, i, s[0], s[1..]));
    }
  }

  /** Neither an option nor anything Parse gives a meaning to, other than as an input. */
  predicate Plain(a: string) { a != "" && (a[0] != '-' || (|a| > 1 && a[1] == '.')) }

  lemma ReplacedIsPlain(p: string, ext: string)
    requires Operand(p) && ext != "" && ext[0] == '.'
    ensures Plain(ReplaceExtension(p, ext))
  {
    var base := p[..|p| - |Ext(p)|];
    var out := base + ext;
    assert out[|base|] == '.';
    if base != "" {
      assert out[0] == p[0];
      if p == "-" { assert p[..0] == "" && Ext(p) == ""; }
    }
  }

  lemma AddedOutputIsPlain(st: Scan)
    requires Operand(st.inputArg)
    ensures Plain(AddedOutput(st))
  {
    ReplacedIsPlain(st.inputArg, ".s");
    ReplacedIsPlain(st.inputArg, ".o");
  }

  /** A generated output path is neither dropped nor split by a later pass. */
  lemma PlainIsKept(a: string)
    requires Plain(a)
    ensures !IsUnsupported(a) && !IsJoinedOutput(a)
  {
  }

  lemma PlainKind(a: string)
    requires Plain(a)
    ensures Classify(a) in {Source, OtherOperand, OtherOption}
  {
  }

  // ------------------------------------------------------------- main result

  lemma WordsAppend(s: seq<string>, t: seq<string>)
    ensures Words(s + t) == Words(s) + Words(t)
  {
  }

  lemma NormalizedFacts(s: seq<string>)
    ensures AllSupported(Normalized(s))
    ensures JoinedOutputs(Normalized(s)) == if JoinedOutputs(s) == 0 then 0 else JoinedOutputs(s) - 1
    ensures AllSupported(s) && JoinedOutputs(s) == 0 ==> Normalized(s) == s
    ensures AllSupported(s) && JoinedOutputs(s) > 0 ==> |Normalized(s)| > |s|
  {
    StandardizedFacts(s);
    StrippedFacts(Standardized(s));
  }

  /** Whether two passes agree on the argument list and the two indices later rewrites use. */
  predicate ParseIsIdempotent(s: seq<string>, mode: RunMode) {
    var once := ParseOf(s, mode);
    var twice := ParseOf(once.args, once.mode);
    twice.args == once.args && twice.input == once.input && twice.output == once.output
  }

  /** A joined output left over is split by the second pass. */
  lemma LeftoverJoinedGrows(s: seq<string>, mode: RunMode)
    requires JoinedOutputs(s) > 1
    ensures !ParseIsIdempotent(s, mode)
  {
    var n, once := Normalized(s), ParseOf(s, mode);
    NormalizedFacts(s);
    AddedTail(s, mode);
    NormalizedFacts(once.args);
    assert |ParseOf(once.args, once.mode).args| > |once.args|;
  }

  lemma AddedTail(s: seq<string>, mode: RunMode)
    ensures AllSupported(ParseOf(s, mode).args)
    ensures JoinedOutputs(ParseOf(s, mode).args) == JoinedOutputs(Normalized(s))
  {
    var n, out := Normalized(s), AddedOutput(ScanOf(Normalized(s)));
    NormalizedFacts(s);
    ScanAddsPlain(n);
    PairIsKept(out);
    AppendFacts(n, ["-o", out]);
  }

  lemma PairIsKept(out: string)
    requires Plain(out)
    ensures AllSupported(["-o", out]) && JoinedOutputs(["-o", out]) == 0
  {
    PlainIsKept(out);
    assert |"-o"| == 2 && "-o"[1] == 'o';
    var last := [out];
    assert last[1..] == [] && ["-o", out][1..] == last;
    assert AllSupported(last[1..]) && JoinedOutputs(last[1..]) == 0;
    assert AllSupported(last) && JoinedOutputs(last) == 0;
  }

  lemma ScanAddsPlain(n: seq<string>)
    ensures Plain(AddedOutput(ScanOf(n)))
  {
    SourcesAreOperands(n);
    InputIsOperand(Words(n), 0, Fresh());
    AddedOutputIsPlain(ScanOf(n));
  }

  lemma SourcesAreOperands(s: seq<string>)
    ensures OperandsOnly(Words(s))
  {
  }

  lemma OutputWord(out: string)
    ensures Words(["-o", out]) == [Word("-o", Output, false), Read(out)]
  {
  }

  const O: Word := Word("-o", Output, false)

  /** Scanning a complete "-o path" pair at the end. */
  lemma ScanPair(r: Word, i: nat, st: Scan)
    ensures ScanFrom([O, r], i, st) == st.(output := i + 1, outputArg := r.text, flags := st.flags["-o" := i])
  {
    assert [O, r][2..] == [];
  }

  predicate PlainWord(r: Word) { r.text != "" && (r.kind.Source? || r.kind.OtherOperand? || r.kind.OtherOption?) }

  /** Scanning a generated output path on its own, where nothing announces it as an output. */
  lemma ScanPlain(r: Word, i: nat, st: Scan)
    requires PlainWord(r)
    ensures var t := ScanFrom([r], i, st);
            && t.output == st.output && t.outputArg == st.outputArg
            && t.seenC == st.seenC && t.seenS == st.seenS && t.seenE == st.seenE
            && (st.inputArg != "" ==> t.inputArg != "")
  {
    assert [r][1..] == [];
  }

  lemma ScanPairAfter(s: seq<Word>, r: Word, st: Scan)
    requires !EndsWaiting(s)
    ensures var found, all := ScanFrom(s, 0, st), ScanFrom(s + [O, r], 0, st);
            all == found.(output := |s| + 1, outputArg := r.text, flags := found.flags["-o" := |s|])
  {
    ScanAppend(s, [O, r], st);
    ScanPair(r, |s|, ScanFrom(s, 0, st));
  }

  /** The pair was not read as a pair: either its "-o" became the output, or an output is still
      missing. */
  predicate Lost(t: Scan, n: nat) { Adds(t) || (t.outputArg == "-o" && t.output == n) }

  lemma PairLostAtEnd(s: seq<Word>, r: Word, i: nat, st: Scan)
    requires |s| == 1 && s[0].TakesValue() && PlainWord(r) && Adds(ScanFrom(s, i, st))
    ensures Lost(ScanFrom(s + [O, r], i, st), i + 1)
  {
    var all := s + [O, r];
    assert all[2..] == [r] && s[1..] == [] && all[1..] == [O, r];
    var a := ScanWord(st, i, s[0], [O, r]);
    assert ScanFrom(s, i, st) == ScanWord(st, i, s[0], []);
    assert ScanFrom(all, i, st) == ScanFrom([r], i + 2, a);
    ScanPlain(r, i + 2, a);
  }

  lemma {:induction false} PairLost(s: seq<Word>, r: Word, i: nat, st: Scan)
    requires EndsWaiting(s) && PlainWord(r) && Adds(ScanFrom(s, i, st))
    ensures Lost(ScanFrom(s + [O, r], i, st), i + |s|)
    decreases |s|
  {
    if s[0].TakesValue() && |s| == 1 {
      PairLostAtEnd(s, r, i, st);
    } else {
      var w, b := Width(s), ScanWord(st, i, s[0], s[1..]);
      assert (s + [O, r])[w..] == s[w..] + [O, r];
      ScanStep(s, [O, r], i, st);
      PairLost(s[w..], r, i + w, b);
    }
  }

  lemma SecondScan(n: seq<string>, out: string)
    ensures ScanOf(n + ["-o", out]) == ScanFrom(Words(n) + [O, Read(out)], 0, Fresh())
    ensures Plain(out) ==> PlainWord(Read(out))
  {
    WordsAppend(n, ["-o", out]);
    OutputWord(out);
    if Plain(out) { PlainKind(out); }
  }

  lemma IdempotentWhenAdding(s: seq<string>, mode: RunMode)
    requires JoinedOutputs(s) <= 1 && Adds(ScanOf(Normalized(s)))
    ensures ParseIsIdempotent(s, mode) <==> !EndsWaiting(Words(Normalized(s)))
  {
    var n, st, once := Normalized(s), ScanOf(Normalized(s)), ParseOf(s, mode);
    NormalizedFacts(s);
    AddedTail(s, mode);
    NormalizedFacts(once.args);
    var r := Read(AddedOutput(st));
    ScanAddsPlain(n);
    SecondScan(n, AddedOutput(st));
    if EndsWaiting(Words(n)) {
      PairLost(Words(n), r, 0, Fresh());
    } else {
      ScanPairAfter(Words(n), r, Fresh());
    }
  }

  lemma IdempotentWithoutAdding(s: seq<string>, mode: RunMode)
    requires JoinedOutputs(s) <= 1 && !Adds(ScanOf(Normalized(s)))
    ensures ParseIsIdempotent(s, mode)
  {
    var n, once := Normalized(s), ParseOf(s, mode);
    NormalizedFacts(s);
    AddedTail(s, mode);
    NormalizedFacts(once.args);
  }

  /** Parse is idempotent on the argument list and the input and output indices exactly when at
      most one "-o" is joined to its path, and an output is not added after an option that is
      still waiting for its value. */
  lemma IdempotentExactly(s: seq<string>, mode: RunMode)
    ensures var n := Normalized(s);
            && (ParseIsIdempotent(s, mode) <==>
                 JoinedOutputs(s) <= 1 && !(Adds(ScanOf(n)) && EndsWaiting(Words(n))))
  {
    if JoinedOutputs(s) > 1 {
      LeftoverJoinedGrows(s, mode);
    } else if Adds(ScanOf(Normalized(s))) {
      IdempotentWhenAdding(s, mode);
    } else {
      IdempotentWithoutAdding(s, mode);
    }
  }

  /** Of the flags, a second pass only learns about the "-o" the first one added. */
  lemma ReparsedFlags(s: seq<string>, mode: RunMode)
    requires ParseIsIdempotent(s, mode)
    ensures var n, once := Normalized(s), ParseOf(s, mode);
            && ParseOf(once.args, once.mode).flags
            == if Adds(ScanOf(n)) then once.flags["-o" := |n|] else once.flags
  {
    var n, st, once := Normalized(s), ScanOf(Normalized(s)), ParseOf(s, mode);
    IdempotentExactly(s, mode);
    NormalizedFacts(s);
    AddedTail(s, mode);
    NormalizedFacts(once.args);
    if Adds(st) {
      SecondScan(n, AddedOutput(st));
      ScanPairAfter(Words(n), Read(AddedOutput(st)), Fresh());
    }
  }

  /** Two joined outputs are enough to break it. */
  lemma JoinedOutputsBreakIdempotence()
    ensures !ParseIsIdempotent(["-o/a", "-o/b"], Unset)
  {
    var joined := ["-o/a", "-o/b"];
    assert joined[1..] == ["-o/b"] && joined[1..][1..] == [];
    assert JoinedOutputs(joined) == 2;
    IdempotentExactly(joined, Unset);
  }

  /** So is a trailing option without its value, when an output has to be added. */
  lemma WaitingBreaksIdempotence()
    ensures !ParseIsIdempotent(["-c", "-D"], Unset)
  {
    var s := ["-c", "-D"];
    WaitingExample(s);
    NormalizedFacts(s);
    IdempotentExactly(s, Unset);
  }

  lemma WaitingExample(s: seq<string>)
    requires s == ["-c", "-D"]
    ensures JoinedOutputs(s) == 0 && AllSupported(s) && Adds(ScanOf(s)) && EndsWaiting(Words(s))
  {
    ClassifyExamples();
    assert s[1..] == ["-D"] && s[1..][1..] == [];
    assert JoinedOutputs(s[1..]) == 0 && AllSupported(s[1..]);
    WaitingWords(Words(s));
  }

  lemma WaitingWords(words: seq<Word>)
    requires words == [Word("-c", ActionC, false), Word("-D", LocalValue, true)]
    ensures EndsWaiting(words) && Adds(ScanFrom(words, 0, Fresh()))
  {
    var last := words[1..];
    assert last == [Word("-D", LocalValue, true)] && last[1..] == [];
    assert EndsWaiting(last);
    var st := ScanWord(Fresh(), 0, words[0], last);
    assert ScanFrom(words, 0, Fresh()) == ScanFrom(last, 1, st) == ScanWord(st, 1, last[0], []);
  }

  lemma ClassifyExamples()
    ensures Read("-c") == Word("-c", ActionC, false) && Read("-D") == Word("-D", LocalValue, true)
    ensures !IsUnsupported("-c") && !IsJoinedOutput("-c") && !IsUnsupported("-D") && !IsJoinedOutput("-D")
  {
  }
}
