/** What the indices Parse stores refer to. */
module ArgsIndices {
  import opened Common
  import opened Filenames
  import opened Args
  import opened ArgsIdempotence

  ghost predicate InputFound(words: seq<Word>, st: Scan, bound: nat)
    requires bound <= |words|
  {
    && (st.input == -1 <==> st.inputArg == "")
    && (st.input != -1 ==>
          0 <= st.input < bound && words[st.input].kind.Source? && words[st.input].text == st.inputArg)
  }

  ghost predicate OptionFound(words: seq<Word>, st: Scan, bound: nat)
    requires bound <= |words|
  {
    st.output != -1 ==> 1 <= st.output < bound && words[st.output - 1].kind.Output?
  }

  ghost predicate OutputFound(words: seq<Word>, st: Scan, bound: nat)
    requires bound <= |words|
  {
    && (st.output == -1 ==> st.outputArg == "")
    && (st.output != -1 ==> 0 <= st.output < bound && words[st.output].text == st.outputArg)
  }

  ghost predicate FlagsFound(words: seq<Word>, st: Scan, bound: nat)
    requires bound <= |words|
  {
    && (forall k | k in st.flags :: 0 <= st.flags[k] < bound && words[st.flags[k]].FlagKey() == Some(k))
    && (forall k | k in st.flags :: st.flags[k] != st.output)
  }

  /** Every index a scan has stored, so far below bound, refers to what it says. */
  ghost predicate Indexed(words: seq<Word>, st: Scan, bound: nat)
    requires bound <= |words|
  {
    && InputFound(words, st, bound) && OptionFound(words, st, bound) && OutputFound(words, st, bound)
    && FlagsFound(words, st, bound)
    && (st.input == st.output ==> st.input == -1)
  }

  lemma WordIndexed(words: seq<Word>, i: nat, st: Scan)
    requires i < |words| && Indexed(words, st, i) && words[i].text != ""
    ensures Indexed(words, ScanWord(st, i, words[i], words[i + 1..]), i + Width(words[i..]))
  {
  }

  /** Where a scan at position i ends up: what it finds and the mode it leaves. */
  datatype Ending = Ending(found: Scan, mode: RunMode)

  function EndOf(words: seq<Word>, i: nat, st: Scan, mode: RunMode): Ending
    requires i <= |words|
  {
    Ending(ScanFrom(words[i..], i, st), if ForcedFrom(words[i..], i, st) then RunLocal else mode)
  }

  lemma EndUnfold(words: seq<Word>, i: nat, st: Scan, mode: RunMode)
    requires i < |words|
    ensures EndOf(words, i, st, mode)
         == EndOf(words, i + Width(words[i..]), ScanWord(st, i, words[i], words[i + 1..]),
                  if ForcesLocalRun(st, words[i], words[i + 1..]) then RunLocal else mode)
  {
    ScanUnfold(words, i, st);
    var s := words[i..];
    assert s[1..] == words[i + 1..] && s[Width(s)..] == words[i + Width(s)..];
  }

  lemma ScanIndexed(words: seq<Word>, i: nat, st: Scan)
    requires i <= |words| && Indexed(words, st, i) && Scannable(words[i..])
    ensures Indexed(words, ScanFrom(words[i..], i, st), |words|)
    decreases |words| - i
  {
    if i < |words| {
      ScanUnfold(words, i, st);
      WordIndexed(words, i, st);
      ScanIndexed(words, i + Width(words[i..]), ScanWord(st, i, words[i], words[i + 1..]));
    }
  }

  lemma FlagKeyIsPrefix(a: string, k: string)
    requires Read(a).FlagKey() == Some(k)
    ensures k <= a
    ensures |k| == 2 ==> a == k
  {
  }

  ghost predicate InputIndexed(p: Parsed) {
    p.input == -1 || (0 <= p.input < |p.args| && (IsSourceFile(p.args[p.input]) || p.args[p.input] == "-"))
  }

  ghost predicate OutputIndexed(p: Parsed) {
    p.output == -1 || (1 <= p.output < |p.args| && p.args[p.output - 1] == "-o")
  }

  ghost predicate FlagsIndexed(p: Parsed) {
    && (forall k | k in p.flags :: 0 <= p.flags[k] < |p.args| && k <= p.args[p.flags[k]])
    && (forall k | k in p.flags :: p.flags[k] != p.input && p.flags[k] != p.output)
    && (forall k, l | k in p.flags && l in p.flags && p.flags[k] == p.flags[l] :: k == l)
  }

  /** The indices of a parsed command line are in range, tell different arguments apart, and
      point at what they are named after. */
  ghost predicate WellIndexed(p: Parsed) {
    InputIndexed(p) && OutputIndexed(p) && FlagsIndexed(p) && (p.input == p.output ==> p.input == -1)
  }

  lemma OutputText(a: string)
    ensures Classify(a).Output? ==> a == "-o"
    ensures Classify(a).Source? ==> (IsSourceFile(a) || a == "-")
  {
  }

  lemma FlagsPrefix(n: seq<string>, st: Scan)
    requires Indexed(Words(n), st, |n|)
    ensures forall k | k in st.flags :: k <= n[st.flags[k]] && (|k| == 2 ==> n[st.flags[k]] == k)
  {
    forall k | k in st.flags ensures k <= n[st.flags[k]] && (|k| == 2 ==> n[st.flags[k]] == k) {
      assert Words(n)[st.flags[k]].FlagKey() == Some(k);
      FlagKeyIsPrefix(n[st.flags[k]], k);
    }
  }

  lemma FlagsDistinct(words: seq<Word>, st: Scan)
    requires Indexed(words, st, |words|)
    ensures forall k | k in st.flags :: st.flags[k] != st.input
    ensures forall k, l | k in st.flags && l in st.flags && st.flags[k] == st.flags[l] :: k == l
  {
  }

  lemma ScanFlagsIndexed(n: seq<string>, st: Scan, mode: RunMode)
    requires Indexed(Words(n), st, |n|)
    ensures FlagsIndexed(Parsed(n, mode, st.input, st.output, st.flags))
  {
    FlagsPrefix(n, st);
    FlagsDistinct(Words(n), st);
  }

  lemma InputIsSource(words: seq<Word>, n: seq<string>, i: nat)
    requires words == Words(n) && i < |n| && words[i].kind.Source?
    ensures IsSourceFile(n[i]) || n[i] == "-"
  {
    OutputText(n[i]);
  }

  lemma OptionBeforeOutput(words: seq<Word>, n: seq<string>, i: nat)
    requires words == Words(n) && i < |n| && words[i].kind.Output?
    ensures n[i] == "-o"
  {
    OutputText(n[i]);
  }

  lemma ScanInputIndexed(words: seq<Word>, n: seq<string>, st: Scan, mode: RunMode)
    requires words == Words(n) && InputFound(words, st, |n|)
    ensures InputIndexed(Parsed(n, mode, st.input, st.output, st.flags))
  {
    if st.input != -1 { InputIsSource(words, n, st.input); }
  }

  lemma ScanOutputIndexed(words: seq<Word>, n: seq<string>, st: Scan, mode: RunMode)
    requires |words| == |n| && OptionFound(words, st, |n|) && (st.output != -1 ==> words == Words(n))
    ensures OutputIndexed(Parsed(n, mode, st.input, st.output, st.flags))
  {
    if st.output != -1 { OptionBeforeOutput(words, n, st.output - 1); }
  }

  ghost predicate Exact(p: Parsed, k: string) {
    k in p.flags ==> 0 <= p.flags[k] < |p.args| && p.args[p.flags[k]] == k
  }

  ghost predicate ActionsExact(p: Parsed) { Exact(p, "-c") && Exact(p, "-S") && Exact(p, "-E") }

  lemma FinishedWellIndexed(n: seq<string>, st: Scan, mode: RunMode)
    requires WellIndexed(Parsed(n, mode, st.input, st.output, st.flags))
    ensures WellIndexed(Finished(n, st, mode))
  {
    assert (n + ["-o", AddedOutput(st)])[|n|] == "-o";
  }

  ghost predicate Texts(n: seq<string>, st: Scan) {
    && (st.input == -1 <==> st.inputArg == "") && (st.output == -1 ==> st.outputArg == "")
    && (st.input != -1 ==> 0 <= st.input < |n| && n[st.input] == st.inputArg)
    && (st.output != -1 ==> 0 <= st.output < |n| && n[st.output] == st.outputArg)
  }

  ghost predicate FlagTexts(n: seq<string>, flags: map<string, int>) {
    forall k | k in flags && |k| == 2 :: 0 <= flags[k] < |n| && n[flags[k]] == k
  }

  lemma ScanTexts(n: seq<string>, st: Scan)
    requires InputFound(Words(n), st, |n|) && OutputFound(Words(n), st, |n|)
    ensures Texts(n, st)
  {
  }

  /** The indexed arguments are the input and the output that the scan found, or the output added. */
  ghost predicate NamesFiles(p: Parsed, st: Scan) {
    && (p.input == -1 <==> st.inputArg == "")
    && (p.input != -1 ==> 0 <= p.input < |p.args| && p.args[p.input] == st.inputArg)
    && (p.output == -1 ==> st.outputArg == "" && !Adds(st))
    && (p.output != -1 ==>
          0 <= p.output < |p.args| && p.args[p.output] == (if Adds(st) then AddedOutput(st) else st.outputArg))
  }

  /** A parsed command line against the scan it came from: it is well indexed, the recorded
      action options are exactly there, and it names the files found. */
  ghost predicate Describes(p: Parsed, st: Scan) {
    WellIndexed(p) && ActionsExact(p) && NamesFiles(p, st)
  }

  lemma ActionsStay(n: seq<string>, p: Parsed)
    requires FlagTexts(n, p.flags) && n <= p.args
    ensures ActionsExact(p)
  {
    assert |"-c"| == |"-S"| == |"-E"| == 2;
  }

  lemma FinishedExtends(n: seq<string>, st: Scan, mode: RunMode)
    ensures n <= Finished(n, st, mode).args && Finished(n, st, mode).flags == st.flags
  {
  }

  lemma FinishedNames(n: seq<string>, st: Scan, mode: RunMode)
    requires Texts(n, st)
    ensures NamesFiles(Finished(n, st, mode), st)
  {
  }

  lemma ScanOfIndexed(n: seq<string>)
    requires Scannable(Words(n))
    ensures Indexed(Words(n), ScanOf(n), |n|)
  {
    assert Words(n)[0..] == Words(n);
    ScanIndexed(Words(n), 0, Fresh());
  }

  lemma ScannedWellIndexed(n: seq<string>, st: Scan, mode: RunMode)
    requires Indexed(Words(n), st, |n|)
    ensures WellIndexed(Parsed(n, mode, st.input, st.output, st.flags))
  {
    ScanInputIndexed(Words(n), n, st, mode);
    ScanOutputIndexed(Words(n), n, st, mode);
    ScanFlagsIndexed(n, st, mode);
  }

  lemma FinishedActions(n: seq<string>, st: Scan, mode: RunMode)
    requires Indexed(Words(n), st, |n|)
    ensures ActionsExact(Finished(n, st, mode))
  {
    FlagsPrefix(n, st);
    FinishedExtends(n, st, mode);
    ActionsStay(n, Finished(n, st, mode));
  }

  lemma FinishedDescribes(n: seq<string>, st: Scan, mode: RunMode)
    requires Indexed(Words(n), st, |n|)
    ensures Describes(Finished(n, st, mode), st)
  {
    ScannedWellIndexed(n, st, mode);
    FinishedWellIndexed(n, st, mode);
    FinishedActions(n, st, mode);
    ScanTexts(n, st);
    FinishedNames(n, st, mode);
  }

  lemma ParseDescribes(s: seq<string>, mode: RunMode)
    requires Scannable(Words(Normalized(s)))
    ensures Describes(ParseOf(s, mode), ScanOf(Normalized(s)))
  {
    var n := Normalized(s);
    ScanOfIndexed(n);
    FinishedDescribes(n, ScanOf(n), ScannedMode(n, mode));
  }
}
