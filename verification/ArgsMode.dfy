/** Whether a second pass of Parse keeps the mode the first one decided on. */
module ArgsMode {
  import opened Filenames
  import opened Args
  import opened ArgsIdempotence
  import opened ArgsRemote
  import opened ArgsSend

  /** The last argument looked at is "-x" joined to its language. */
  predicate EndsWithLanguage(s: seq<Word>) {
    s != [] && (s == [s[0].(kind := Language(true))] || EndsWithLanguage(s[Width(s)..]))
  }

  /** No argument looked at is an "-o" with a value. */
  predicate NoOutput(s: seq<Word>) {
    s != [] ==> !(s[0].kind.Output? && |s| > 1) && NoOutput(s[Width(s)..])
  }

  lemma {:induction false} OutputStays(s: seq<Word>, i: nat, st: Scan)
    requires !Blocked(s) && st.outputArg != ""
    ensures ScanFrom(s, i, st).outputArg != ""
    decreases |s|
  {
    if s != [] {
      EmptyHasNoExt();
      OutputStays(s[Width(s)..], i + Width(s), ScanWord(st, i, s[0], s[1..]));
    }
  }

  /** Where nothing blocks, every "-o" names an output, so none was given if none was found. */
  lemma {:induction false} NoneGiven(s: seq<Word>, i: nat, st: Scan)
    requires !Blocked(s) && ScanFrom(s, i, st).outputArg == ""
    ensures NoOutput(s)
    decreases |s|
  {
    if s != [] {
      EmptyHasNoExt();
      var t := ScanWord(st, i, s[0], s[1..]);
      if t.outputArg != "" { OutputStays(s[Width(s)..], i + Width(s), t); }
      NoneGiven(s[Width(s)..], i + Width(s), t);
    }
  }

  lemma PairFacts(r: Word)
    ensures Inputs([O, r]) == 0 && !LaterObject([O, r]) && (Blocked([O, r]) <==> Ext(r.text) == "")
  {
    assert [O, r][2..] == [];
  }

  /** The argument before an added "-o" sees it as what follows, and only "-x" cares. */
  lemma LastBlocks(w: Word, r: Word)
    requires !w.TakesValue()
    ensures Blocks(w, [O, r]) <==> Blocks(w, []) || w.kind.Language?
  {
    assert O.text[0] == '-';
    assert !PlainLanguage(O.text);
  }

  lemma BlocksAhead(w: Word, rest: seq<Word>, tail: seq<Word>)
    requires rest != []
    ensures Blocks(w, rest + tail) <==> Blocks(w, rest)
  {
  }

  lemma {:induction false} AddedPairCounts(s: seq<Word>, r: Word)
    requires !EndsWaiting(s) && NoOutput(s)
    ensures Inputs(s + [O, r]) == Inputs(s) && !LaterObject(s + [O, r])
    decreases |s|
  {
    PairFacts(r);
    if s == [] {
      assert s + [O, r] == [O, r];
    } else {
      assert (s + [O, r])[Width(s)..] == s[Width(s)..] + [O, r];
      AddedPairCounts(s[Width(s)..], r);
    }
  }

  lemma AddedPairAtEnd(w: Word, r: Word)
    requires !w.TakesValue()
    ensures Blocked([w] + [O, r]) <==> Blocked([w]) || EndsWithLanguage([w]) || Ext(r.text) == ""
  {
    assert ([w] + [O, r])[1..] == [O, r] && [w][1..] == [];
    LastBlocks(w, r);
    PairFacts(r);
    assert EndsWithLanguage([w]) <==> w.kind.Language?;
  }

  /** What an added "-o path" changes: it may follow a joined "-x". */
  lemma {:induction false} AddedPairBlocks(s: seq<Word>, r: Word)
    requires !EndsWaiting(s)
    ensures Blocked(s + [O, r]) <==> Blocked(s) || EndsWithLanguage(s) || Ext(r.text) == ""
    decreases |s|
  {
    if s == [] {
      assert s + [O, r] == [O, r];
      PairFacts(r);
    } else if |s| == 1 {
      assert s == [s[0]];
      AddedPairAtEnd(s[0], r);
    } else {
      var w, all := Width(s), s + [O, r];
      assert all[w..] == s[w..] + [O, r] && all[1..] == s[1..] + [O, r];
      BlocksAhead(s[0], s[1..], [O, r]);
      AddedPairBlocks(s[w..], r);
    }
  }

  /** An output that is added next to "-c" or "-S" has an extension. */
  lemma AddedHasExtension(st: Scan)
    requires st.seenC || st.seenS
    ensures Ext(AddedOutput(st)) != ""
  {
    var base := st.inputArg[..|st.inputArg| - |Ext(st.inputArg)|];
    var x := if st.seenS then 's' else 'o';
    ShortExtension(base + ".", x);
    assert AddedOutput(st) == base + "." + [x];
  }

  /** Where Parse is idempotent on the arguments, a second pass keeps the mode exactly unless
      remote compilation was allowed and an output was added after a joined "-x". */
  lemma ModeKeptExactly(s: seq<string>, mode: RunMode)
    requires Scannable(Words(Normalized(s))) && ParseIsIdempotent(s, mode)
    ensures var once := ParseOf(s, mode);
            ParseOf(once.args, once.mode).mode == once.mode <==>
            !(once.mode == RunRemote && Adds(ScanOf(Normalized(s))) && EndsWithLanguage(Words(Normalized(s))))
  {
    var once := ParseOf(s, mode);
    LocalIsFinal(s, mode);
    LocalIsFinal(once.args, once.mode);
    if once.mode == RunRemote { RemoteKeptExactly(s, mode); }
  }

  lemma SecondPass(s: seq<string>, mode: RunMode)
    requires ParseIsIdempotent(s, mode)
    ensures var once := ParseOf(s, mode); Normalized(once.args) == once.args
  {
    AddedTail(s, mode);
    IdempotentExactly(s, mode);
    NormalizedFacts(s);
    NormalizedFacts(ParseOf(s, mode).args);
  }

  /** What RemoteExactly asks of the arguments. */
  predicate AllowsRemote(words: seq<Word>, st: Scan) {
    && Inputs(words) == 1 && !Blocked(words) && !LaterObject(words)
    && !ShouldRunLocal(st.inputArg) && (st.seenC || st.seenS || st.outputArg != "")
  }

  lemma RemoteAllowed(s: seq<string>, n: seq<string>, mode: RunMode)
    requires n == Normalized(s) && Scannable(Words(n))
    ensures ParseOf(s, mode).mode == RunRemote <==> mode != RunLocal && AllowsRemote(Words(n), ScanOf(n))
  {
    RemoteExactly(s, mode);
  }

  lemma RemoteKeptExactly(s: seq<string>, mode: RunMode)
    requires Scannable(Words(Normalized(s))) && ParseIsIdempotent(s, mode) && ParseOf(s, mode).mode == RunRemote
    ensures var once := ParseOf(s, mode);
            ParseOf(once.args, once.mode).mode == RunRemote <==>
            !(Adds(ScanOf(Normalized(s))) && EndsWithLanguage(Words(Normalized(s))))
  {
    var once, n := ParseOf(s, mode), Normalized(s);
    RemoteAllowed(s, n, mode);
    SecondPass(s, mode);
    ParsedIsScannable(s, mode);
    RemoteAllowed(once.args, once.args, once.mode);
    IdempotentExactly(s, mode);
    if Adds(ScanOf(n)) { SecondMode(n, AddedOutput(ScanOf(n))); }
  }

  /** The second pass over arguments to which an output was added. */
  lemma SecondMode(n: seq<string>, out: string)
    requires !EndsWaiting(Words(n)) && AllowsRemote(Words(n), ScanOf(n)) && Adds(ScanOf(n))
    requires out == AddedOutput(ScanOf(n))
    ensures AllowsRemote(Words(n + ["-o", out]), ScanOf(n + ["-o", out])) <==> !EndsWithLanguage(Words(n))
  {
    NoneGiven(Words(n), 0, Fresh());
    AddedHasExtension(ScanOf(n));
    WordsAppend(n, ["-o", out]);
    OutputWord(out);
    AddedPairCounts(Words(n), Read(out));
    AddedPairBlocks(Words(n), Read(out));
    SecondScan(n, out);
    ScanPairAfter(Words(n), Read(out), Fresh());
  }
}
