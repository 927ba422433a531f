/** What Parse does, in terms of how arguments are spelled: nothing here is defined by the branches
    of its switch. */
module ArgsText {
  import opened Common
  import opened Filenames
  import opened Args
  import opened ArgsIdempotence
  import opened ArgsIndices
  import opened ArgsLocal
  import opened ArgsMode
  import opened ArgsRemote
  import opened ArgsSend

  // ------------------------------------------------------------------ spellings

  /** Options for the preprocessor or the linker whose value is the next argument. */
  predicate ValueOption(a: string) {
    || a == "-D" || a == "-I" || a == "-U" || a == "-L" || a == "-l" || a == "-MF" || a == "-MT" || a == "-MQ"
    || a == "-include" || a == "-imacros" || a == "-iprefix" || a == "-iwithprefix" || a == "-isystem"
    || a == "-imultilib" || a == "-iplugindir" || a == "-iquote" || a == "-isysroot" || a == "-iwithprefixbefore"
    || a == "-idirafter"
  }

  predicate TakesNext(a: string) { ValueOption(a) || a == "-o" || a == "-x" }

  /** Options that need the developer's own machine. */
  predicate NeedsHost(a: string) {
    || a == "-march=native" || a == "-mtune=native" || a == "-frepo" || "-specs=" <= a || "-dr" <= a
    || a == "-fprofile-arcs" || a == "-ftest-coverage" || a == "--coverage" || a == "-fprofile-correction"
    || "-fprofile-generate" <= a || "-fprofile-use" <= a || "-fauto-profile" <= a
  }

  /** Dependency output other than beside a compilation. */
  predicate OnlyDependencies(a: string) {
    && "-M" <= a && a != "-MD" && a != "-MMD" && a != "-MG" && a != "-MP"
    && !("-MF" <= a) && !("-MT" <= a) && !("-MQ" <= a)
  }

  predicate SourceName(a: string) {
    var e := Ext(a);
    || e == ".i" || e == ".ii" || e == ".c" || e == ".cc" || e == ".cpp" || e == ".CPP" || e == ".cxx" || e == ".cp"
    || e == ".c++" || e == ".C" || e == ".m" || e == ".mm" || e == ".mi" || e == ".mii" || e == ".M" || e == ".s"
    || e == ".S" || e == ".go" || e == ".h" || e == ".H" || e == ".hpp" || e == ".hp" || e == ".hxx" || e == ".h++"
    || e == ".HPP" || e == ".tcc" || e == ".hh"
  }

  /** An input file, or "-" for standard input. */
  predicate IsInput(a: string) { a == "-" || (SourceName(a) && (|a| < 2 || a[0] != '-')) }

  lemma ValueOptions(a: string)
    ensures a in LOCAL_ARGS_WITH_VALUES <==> ValueOption(a)
  {
  }

  lemma SourceNames(a: string)
    ensures IsSourceFile(a) <==> SourceName(a)
  {
  }

  lemma InputSpelling(a: string)
    ensures Classify(a).Source? <==> IsInput(a)
  {
    SourceNames(a);
  }

  /** The second character decides which prefixes an option can have. */
  lemma SecondCharacter(a: string)
    requires |a| > 1
    ensures "-MF" <= a || "-MT" <= a || "-MQ" <= a || "-M" <= a ==> a[1] == 'M'
    ensures "-Wa," <= a ==> a[1] == 'W'
    ensures "-specs=" <= a ==> a[1] == 's'
    ensures "-fprofile-generate" <= a || "-fprofile-use" <= a || "-fauto-profile" <= a ==> a[1] == 'f'
    ensures "-x" <= a ==> a[1] == 'x'
    ensures "-dr" <= a ==> a[1] == 'd'
  {
    assert "-MF"[1] == "-MT"[1] == "-MQ"[1] == "-M"[1] == 'M' && "-Wa,"[1] == 'W' && "-specs="[1] == 's';
    assert "-fprofile-generate"[1] == "-fprofile-use"[1] == "-fauto-profile"[1] == 'f';
    assert "-x"[1] == 'x' && "-dr"[1] == 'd';
  }

  predicate ProfileOption(a: string) {
    a == "-fprofile-arcs" || a == "-ftest-coverage" || a == "--coverage" || a == "-fprofile-correction"
  }

  lemma ProfileOptions(a: string)
    ensures a in PROFILE_ARGS <==> ProfileOption(a)
  {
  }

  predicate PicOption(a: string) {
    || a == "-fPIC" || a == "-fPIE" || a == "-fpic" || a == "-fpie"
    || a == "-fno-pic" || a == "-fno-pie" || a == "-fno-PIC" || a == "-fno-PIE"
  }

  lemma PicOptions(a: string)
    ensures a in PIC_ARGS <==> PicOption(a)
  {
  }

  lemma HostIsNotPic(a: string)
    requires NeedsHost(a)
    ensures !PicOption(a) && |a| > 1 && a[0] == '-' && a[1] in {'m', 'f', 's', 'd', '-'} && a != "-S" && a != "-E"
  {
    assert "-specs="[1] == 's' && "-dr"[1] == 'd';
    assert "-fprofile-generate"[1] == "-fprofile-use"[1] == "-fauto-profile"[1] == 'f';
  }

  lemma HostForces(a: string)
    requires NeedsHost(a)
    ensures Classify(a).ForcesLocal?
  {
    HostIsNotPic(a);
    SecondCharacter(a);
    ProfileOptions(a);
    PicOptions(a);
  }

  lemma ForcedIsHost(a: string)
    requires Classify(a).ForcesLocal?
    ensures NeedsHost(a)
  {
    ProfileOptions(a);
  }

  lemma LanguageKind(a: string)
    requires "-x" <= a
    ensures Classify(a).Language?
  {
    assert "-x"[0] == '-' && "-x"[1] == 'x';
    SecondCharacter(a);
    ProfileOptions(a);
    PicOptions(a);
  }

  lemma OutputKind()
    ensures Classify("-o") == Output
  {
    OutputWord("");
    assert Words(["-o", ""])[0] == Read("-o");
  }

  lemma AssemblerKind(a: string)
    requires "-Wa," <= a
    ensures Classify(a).Assembler?
  {
    assert "-Wa,"[0] == '-' && "-Wa,"[1] == 'W';
    SecondCharacter(a);
    PicOptions(a);
  }

  lemma DependenciesKind(a: string)
    requires OnlyDependencies(a)
    ensures Classify(a).DependencyOther?
  {
    assert "-M"[0] == '-' && "-M"[1] == 'M';
  }

  lemma OtherSpellings(a: string)
    ensures Classify(a).DependencyOther? <==> OnlyDependencies(a)
    ensures (Classify(a).Assembler? <==> "-Wa," <= a) && (Classify(a).Language? <==> "-x" <= a)
    ensures Classify(a).Output? <==> a == "-o"
  {
    if "-x" <= a { LanguageKind(a); }
    if "-Wa," <= a { AssemblerKind(a); }
    if OnlyDependencies(a) { DependenciesKind(a); }
    OutputKind();
  }

  lemma LocalValueSpelling(a: string)
    requires ValueOption(a)
    ensures Read(a).TakesValue()
  {
    ValueOptions(a);
    LocalOptionsAgree(a);
  }

  lemma LanguageTakes(a: string)
    requires Classify(a).Language?
    ensures Classify(a).joined <==> a != "-x"
  {
  }

  lemma DependencyTakes(a: string)
    requires Classify(a).DependencyValue?
    ensures !Classify(a).joined <==> ValueOption(a)
  {
    assert "-MF" <= a || "-MT" <= a || "-MQ" <= a;
    DependencyKind(a);
    ValueOptions(a);
  }

  lemma TakesSpelling(a: string)
    ensures Read(a).TakesValue() <==> TakesNext(a)
  {
    OtherSpellings(a);
    ValueOptions(a);
    if ValueOption(a) { LocalValueSpelling(a); }
    if Classify(a).Language? { LanguageTakes(a); }
    if Classify(a).DependencyValue? { DependencyTakes(a); }
    if a == "-x" { LanguageTakes(a); }
  }

  // ------------------------------------------------- what a scan finds, by spelling

  function TextWidth(s: seq<string>): (n: nat)
    requires s != []
    ensures 1 <= n <= |s|
  {
    if TakesNext(s[0]) && |s| > 1 then 2 else 1
  }

  /** The argument is among those looked at: it is not the value of another. */
  predicate Looks(s: seq<string>, a: string) {
    s != [] && (s[0] == a || Looks(s[TextWidth(s)..], a))
  }

  /** The input files among the arguments looked at. */
  function InputsIn(s: seq<string>): seq<string> {
    if s == [] then [] else (if IsInput(s[0]) then [s[0]] else []) + InputsIn(s[TextWidth(s)..])
  }

  /** The paths after "-o". */
  function OutputsIn(s: seq<string>): seq<string> {
    if s == [] then [] else (if s[0] == "-o" && |s| > 1 then [s[1]] else []) + OutputsIn(s[TextWidth(s)..])
  }

  /** The first argument rules out remote compilation by itself, or by what follows it. */
  predicate RulesOut(s: seq<string>)
    requires s != []
  {
    || s[0] == "-E" || OnlyDependencies(s[0]) || NeedsHost(s[0])
    || ("-Wa," <= s[0] && (Contains(s[0], ",-a") || Contains(s[0], "--MD")))
    || ("-x" <= s[0] && |s| > 1 && !("c" <= s[1] || "objective-c" <= s[1] || "go" <= s[1]))
    || (s[0] == "-o" && (|s| == 1 || Ext(s[1]) == ""))
  }

  predicate RuledOut(s: seq<string>) { s != [] && (RulesOut(s) || RuledOut(s[TextWidth(s)..])) }

  lemma TextStep(s: seq<string>)
    requires s != []
    ensures var words, w := Words(s), TextWidth(s);
            && words != [] && words[0] == Read(s[0]) && Width(words) == w
            && words[1..] == Words(s[1..]) && words[w..] == Words(s[w..])
  {
    TakesSpelling(s[0]);
    WordsTail(s, 1);
    WordsTail(s, TextWidth(s));
  }

  lemma BlocksByText(s: seq<string>)
    requires s != []
    ensures Blocks(Read(s[0]), Words(s[1..])) <==> RulesOut(s)
  {
    if NeedsHost(s[0]) { HostForces(s[0]); }
    if Classify(s[0]).ForcesLocal? { ForcedIsHost(s[0]); }
    ActionText(s[0]);
    OtherSpellings(s[0]);
  }

  lemma {:induction false} BlockedByText(s: seq<string>)
    ensures Blocked(Words(s)) <==> RuledOut(s)
    decreases |s|
  {
    if s != [] {
      TextStep(s);
      BlocksByText(s);
      BlockedByText(s[TextWidth(s)..]);
    }
  }

  lemma {:induction false} InputsByText(s: seq<string>)
    ensures Inputs(Words(s)) == |InputsIn(s)|
    decreases |s|
  {
    if s != [] {
      TextStep(s);
      InputSpelling(s[0]);
      InputsByText(s[TextWidth(s)..]);
    }
  }

  function Last(xs: seq<string>, before: string): string { if xs == [] then before else xs[|xs| - 1] }

  lemma LastAppend(xs: seq<string>, ys: seq<string>, before: string)
    ensures Last(xs + ys, before) == Last(ys, Last(xs, before))
  {
  }

  lemma WordByText(s: seq<string>, i: nat, st: Scan)
    requires s != []
    ensures var t := ScanWord(st, i, Read(s[0]), Words(s[1..]));
            && t.inputArg == Last(if IsInput(s[0]) then [s[0]] else [], st.inputArg)
            && t.outputArg == Last(if s[0] == "-o" && |s| > 1 then [s[1]] else [], st.outputArg)
            && (t.seenC <==> st.seenC || s[0] == "-c") && (t.seenS <==> st.seenS || s[0] == "-S")
            && (t.seenE <==> st.seenE || s[0] == "-E")
  {
    InputSpelling(s[0]);
    OtherSpellings(s[0]);
    ActionText(s[0]);
  }

  function InputAt(s: seq<string>): seq<string>
    requires s != []
  {
    if IsInput(s[0]) then [s[0]] else []
  }

  function OutputAt(s: seq<string>): seq<string>
    requires s != []
  {
    if s[0] == "-o" && |s| > 1 then [s[1]] else []
  }

  /** One turn of the scan, by spelling. */
  lemma TextTurn(s: seq<string>, i: nat, st: Scan) returns (t: Scan)
    requires s != []
    ensures ScanFrom(Words(s), i, st) == ScanFrom(Words(s[TextWidth(s)..]), i + TextWidth(s), t)
    ensures t.inputArg == Last(InputAt(s), st.inputArg) && t.outputArg == Last(OutputAt(s), st.outputArg)
    ensures (t.seenC <==> st.seenC || s[0] == "-c") && (t.seenS <==> st.seenS || s[0] == "-S")
    ensures t.seenE <==> st.seenE || s[0] == "-E"
  {
    TextStep(s);
    WordByText(s, i, st);
    t := ScanWord(st, i, Read(s[0]), Words(s[1..]));
  }

  /** A scan finds the last input, the last output, and the actions looked at. */
  lemma {:induction false} ScanByText(s: seq<string>, i: nat, st: Scan)
    ensures var t := ScanFrom(Words(s), i, st);
            && t.inputArg == Last(InputsIn(s), st.inputArg) && t.outputArg == Last(OutputsIn(s), st.outputArg)
            && (t.seenC <==> st.seenC || Looks(s, "-c")) && (t.seenS <==> st.seenS || Looks(s, "-S"))
            && (t.seenE <==> st.seenE || Looks(s, "-E"))
    decreases |s|
  {
    if s != [] {
      var rest := s[TextWidth(s)..];
      var t := TextTurn(s, i, st);
      ScanByText(rest, i + TextWidth(s), t);
      LastAppend(InputAt(s), InputsIn(rest), st.inputArg);
      LastAppend(OutputAt(s), OutputsIn(rest), st.outputArg);
    }
  }

  // ----------------------------------------------------------- object files named

  predicate IsObject(path: string) { Ext(path) == ".o" }

  ghost predicate ObjectFrom(paths: seq<string>, n: nat) { exists i :: n <= i < |paths| && IsObject(paths[i]) }

  lemma ObjectBehind(head: seq<string>, rest: seq<string>, n: nat)
    ensures ObjectFrom(head + rest, |head| + n) <==> ObjectFrom(rest, n)
  {
    var all := head + rest;
    if i :| |head| + n <= i < |all| && IsObject(all[i]) { assert IsObject(rest[i - |head|]); }
    if i :| n <= i < |rest| && IsObject(rest[i]) { assert IsObject(all[|head| + i]); }
  }

  lemma ObjectAhead(x: string, rest: seq<string>)
    ensures ObjectFrom([x] + rest, 0) <==> IsObject(x) || ObjectFrom(rest, 0)
  {
    ObjectBehind([x], rest, 0);
    assert ([x] + rest)[0] == x;
  }

  lemma ObjectTurn(s: seq<string>)
    requires s != []
    ensures var rest := Words(s[TextWidth(s)..]);
            && (HasObject(Words(s)) <==> (OutputAt(s) != [] && IsObject(s[1])) || HasObject(rest))
            && (LaterObject(Words(s)) <==>
                  if OutputAt(s) != [] && s[1] != "" then HasObject(rest) else LaterObject(rest))
  {
    TextStep(s);
    OtherSpellings(s[0]);
  }

  lemma {:induction false} ObjectsByText(s: seq<string>)
    ensures HasObject(Words(s)) <==> ObjectFrom(OutputsIn(s), 0)
    decreases |s|
  {
    if s != [] {
      var rest := s[TextWidth(s)..];
      ObjectTurn(s);
      ObjectsByText(rest);
      if OutputAt(s) == [] {
        assert OutputsIn(s) == OutputsIn(rest);
      } else {
        ObjectAhead(s[1], OutputsIn(rest));
      }
    }
  }

  /** Where nothing rules out remote compilation every "-o" names an output, so an object file after
      another output is any but the first. */
  lemma {:induction false} LaterByText(s: seq<string>)
    requires !RuledOut(s)
    ensures LaterObject(Words(s)) <==> ObjectFrom(OutputsIn(s), 1)
    decreases |s|
  {
    if s != [] {
      var rest := s[TextWidth(s)..];
      ObjectTurn(s);
      EmptyHasNoExt();
      if OutputAt(s) == [] {
        LaterByText(rest);
        assert OutputsIn(s) == OutputsIn(rest);
      } else {
        ObjectsByText(rest);
        ObjectBehind([s[1]], OutputsIn(rest), 0);
      }
    }
  }

  // --------------------------------------------------------------- main results

  /** The command line may be compiled remotely, as far as its arguments go. */
  ghost predicate RemoteText(n: seq<string>) {
    && !RuledOut(n) && |InputsIn(n)| == 1 && !ShouldRunLocal(Last(InputsIn(n), "")) && !ObjectFrom(OutputsIn(n), 1)
    && (Looks(n, "-c") || Looks(n, "-S") || OutputsIn(n) != [])
  }

  lemma AllowsFor(words: seq<Word>, st: Scan, n: seq<string>, input: string, outputs: seq<string>)
    requires (Blocked(words) <==> RuledOut(n)) && Inputs(words) == |InputsIn(n)|
    requires input == st.inputArg == Last(InputsIn(n), "") && outputs == OutputsIn(n)
    requires (st.seenC <==> Looks(n, "-c")) && (st.seenS <==> Looks(n, "-S"))
    requires !RuledOut(n) ==> (LaterObject(words) <==> ObjectFrom(outputs, 1))
    requires !RuledOut(n) ==> (st.outputArg != "" <==> outputs != [])
    ensures AllowsRemote(words, st) <==> RemoteText(n)
  {
    assert ShouldRunLocal(st.inputArg) == ShouldRunLocal(Last(InputsIn(n), ""));
  }

  lemma AllowsByText(n: seq<string>)
    ensures AllowsRemote(Words(n), ScanOf(n)) <==> RemoteText(n)
  {
    BlockedByText(n);
    InputsByText(n);
    ScanByText(n, 0, Fresh());
    if !RuledOut(n) {
      LaterByText(n);
      OutputsAreNamed(n);
    }
    AllowsFor(Words(n), ScanOf(n), n, Last(InputsIn(n), ""), OutputsIn(n));
  }

  /** Which command lines may be compiled remotely, from their spelling alone. */
  lemma RemoteByText(s: seq<string>, mode: RunMode)
    requires Scannable(Words(Normalized(s)))
    ensures ParseOf(s, mode).mode == RunRemote <==> mode != RunLocal && RemoteText(Normalized(s))
  {
    RemoteAllowed(s, Normalized(s), mode);
    AllowsByText(Normalized(s));
  }

  /** An argument that needs the developer's machine, anywhere but as the value of another, makes the
      command line local. */
  lemma HostRunsLocal(s: seq<string>, mode: RunMode, a: string)
    requires Scannable(Words(Normalized(s))) && Looks(Normalized(s), a) && NeedsHost(a)
    ensures ParseOf(s, mode).mode == RunLocal
  {
    LookedAtRulesOut(Normalized(s), a);
    RemoteByText(s, mode);
    LocalIsFinal(s, mode);
  }

  lemma {:induction false} LookedAtRulesOut(s: seq<string>, a: string)
    requires Looks(s, a) && NeedsHost(a)
    ensures RuledOut(s)
    decreases |s|
  {
    if s[0] != a { LookedAtRulesOut(s[TextWidth(s)..], a); }
  }

  lemma {:induction false} OutputsAreNamed(s: seq<string>)
    requires !RuledOut(s)
    ensures forall i | 0 <= i < |OutputsIn(s)| :: OutputsIn(s)[i] != ""
    decreases |s|
  {
    if s != [] {
      EmptyHasNoExt();
      OutputsAreNamed(s[TextWidth(s)..]);
    }
  }

  /** What Parse names: the last input looked at; the last path after "-o", or a path made from the
      input where none was given and one is needed. */
  lemma NamesByText(s: seq<string>, mode: RunMode)
    requires Scannable(Words(Normalized(s)))
    ensures var n, p := Normalized(s), ParseOf(s, mode);
            && WellIndexed(p) && (p.input == -1 <==> Last(InputsIn(n), "") == "")
            && (p.input != -1 ==> p.args[p.input] == Last(InputsIn(n), ""))
            && (p.output != -1 ==> p.args[p.output] == OutputNamed(n))
  {
    ParseDescribes(s, mode);
    ScanByText(Normalized(s), 0, Fresh());
  }

  function OutputNamed(n: seq<string>): string {
    var input, given := Last(InputsIn(n), ""), Last(OutputsIn(n), "");
    if given != "" then given
    else if Looks(n, "-S") then ReplaceExtension(input, ".s")
    else if Looks(n, "-c") then ReplaceExtension(input, ".o")
    else if input != "" && !Looks(n, "-E") then "a.out"
    else given
  }

  // ------------------------------------------------------------- recorded options

  /** Options that are recorded under their own name. */
  predicate WholeWord(k: string) {
    || PicOption(k) || k == "-c" || k == "-S" || k == "-E" || k == "-o"
    || k == "-MD" || k == "-MMD" || k == "-MG" || k == "-MP"
  }

  lemma PicKindByText(k: string)
    requires PicOption(k)
    ensures Classify(k).Pic?
  {
    PicOptions(k);
    assert k[0] == '-' && k[1] == 'f';
    SecondCharacter(k);
  }

  lemma WholeWordKey(k: string)
    requires WholeWord(k)
    ensures Read(k).FlagKey() == Some(k)
  {
    if PicOption(k) { PicKindByText(k); }
    ActionText(k);
    OutputKind();
  }

  lemma DependencyKeyIsNoWord(a: string)
    requires Classify(a).DependencyValue?
    ensures |a| >= 3 && !WholeWord(a[..3])
  {
    assert "-MF" <= a || "-MT" <= a || "-MQ" <= a;
    assert a[..3] == "-MF" || a[..3] == "-MT" || a[..3] == "-MQ";
  }

  /** Any other key is the argument itself. */
  lemma OtherKeys(w: Word)
    requires !w.kind.DependencyValue?
    ensures w.FlagKey() in {None, Some("-Wa"), Some(w.text)}
  {
  }

  lemma AssemblerIsNoWord()
    ensures !WholeWord("-Wa")
  {
  }

  lemma KeyIsWord(a: string, k: string)
    requires WholeWord(k)
    ensures Read(a).FlagKey() == Some(k) <==> a == k
  {
    WholeWordKey(k);
    AssemblerIsNoWord();
    if Classify(a).DependencyValue? { DependencyKeyIsNoWord(a); } else { OtherKeys(Read(a)); }
  }

  /** Such an option is recorded exactly when it is looked at. */
  lemma {:induction false} RecordedByText(s: seq<string>, i: nat, st: Scan, k: string)
    requires WholeWord(k)
    ensures k in ScanFrom(Words(s), i, st).flags <==> k in st.flags || Looks(s, k)
    decreases |s|
  {
    if s != [] {
      TextStep(s);
      KeyIsWord(s[0], k);
      RecordedByText(s[TextWidth(s)..], i + TextWidth(s), ScanWord(st, i, Read(s[0]), Words(s[1..])), k);
    }
  }
}
