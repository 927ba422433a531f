/** Which arguments reach the agent, in terms of how they are spelled. */
module ArgsKept {
  import opened Args
  import opened ArgsIdempotence
  import opened ArgsIndices
  import opened ArgsActions
  import opened ArgsLocal
  import opened ArgsPreprocessor
  import opened ArgsSend
  import opened ArgsText

  // ---------------------------------------------------------------- spellings

  predicate LoneOption(a: string) {
    || a == "-undef" || a == "-nostdinc" || a == "-nostdinc++" || a == "-MD" || a == "-MMD" || a == "-MG" || a == "-MP"
  }

  predicate LonePrefix(a: string) {
    || "-Wp," <= a || "-Wl," <= a || "-D" <= a || "-U" <= a || "-I" <= a || "-l" <= a || "-L" <= a
    || "-MF" <= a || "-MT" <= a || "-MQ" <= a || "-isystem" <= a || "-stdlib" <= a
  }

  /** Not an option of the preprocessor or the linker. */
  predicate Portable(a: string) { !ValueOption(a) && !LoneOption(a) && !LonePrefix(a) }

  /** Options that decide what the compiler makes of its input. */
  predicate CompileOption(a: string) {
    || "-std=" <= a || "-O" <= a || "-g" <= a || "-f" <= a || "-m" <= a
    || ("-W" <= a && !("-Wp," <= a) && !("-Wl," <= a))
  }

  lemma LocalBySpelling(a: string)
    ensures (a in LOCAL_ARGS_NO_VALUES <==> LoneOption(a)) && (HasLocalPrefix(a) <==> LonePrefix(a))
  {
  }

  lemma ValueSecond(a: string)
    requires ValueOption(a) || LoneOption(a) || LonePrefix(a)
    ensures |a| > 1 && a[0] == '-' && a[1] in {'W', 'D', 'U', 'I', 'l', 'L', 'M', 'i', 's', 'u', 'n'}
    ensures a[1] == 'W' ==> "-Wp," <= a || "-Wl," <= a
    ensures a[1] == 's' ==> "-stdlib" <= a
  {
    LocalBySpelling(a);
    ValueOptions(a);
    if ValueOption(a) { ValueOptionChars(a); } else { PlainLocalChars(a); }
  }

  lemma CompileSecond(a: string)
    requires CompileOption(a)
    ensures |a| > 1 && a[0] == '-' && a[1] in {'s', 'O', 'g', 'f', 'm', 'W'}
    ensures a[1] == 's' ==> |a| > 4 && a[4] == '='
    ensures a[1] == 'W' ==> !("-Wp," <= a) && !("-Wl," <= a)
  {
    assert "-std="[1] == 's' && "-O"[1] == 'O' && "-g"[1] == 'g' && "-f"[1] == 'f' && "-m"[1] == 'm' && "-W"[1] == 'W';
  }

  lemma CompileIsPortable(a: string)
    requires CompileOption(a)
    ensures Portable(a)
  {
    CompileSecond(a);
    assert "-stdlib"[4] == 'l';
    if !Portable(a) { ValueSecond(a); }
  }

  // ------------------------------------------------------------------ filtering

  function Only(s: seq<string>, p: string -> bool): seq<string> {
    if s == [] then [] else (if p(s[0]) then [s[0]] else []) + Only(s[1..], p)
  }

  lemma {:induction false} OnlyAppend(s: seq<string>, t: seq<string>, p: string -> bool)
    ensures Only(s + t, p) == Only(s, p) + Only(t, p)
  {
    if s == [] {
      assert s + t == t;
    } else {
      OnlyAppend(s[1..], t, p);
      var head: seq<string> := if p(s[0]) then [s[0]] else [];
      assert (s + t)[0] == s[0] && (s + t)[1..] == s[1..] + t;
      assert head + (Only(s[1..], p) + Only(t, p)) == (head + Only(s[1..], p)) + Only(t, p);
    }
  }

  lemma {:induction false} OnlyOnly(s: seq<string>, p: string -> bool, q: string -> bool)
    requires forall a | q(a) :: p(a)
    ensures Only(Only(s, p), q) == Only(s, q)
  {
    if s != [] {
      OnlyOnly(s[1..], p, q);
      var head: seq<string> := if p(s[0]) then [s[0]] else [];
      OnlyAppend(head, Only(s[1..], p), q);
      assert Only(head, q) == if q(s[0]) then [s[0]] else [] by {
        if head != [] { assert head[1..] == []; }
      }
    }
  }

  // -------------------------------------------------------------- normalisation

  /** Options the agents are not given. */
  predicate Unsupported(a: string) {
    a == "-Wpedantic" || a == "-pedantic-errors" || a == "-pedantic" || "-flto" <= a
  }

  predicate Supported(a: string) { !Unsupported(a) }

  lemma {:induction false} StrippedByText(s: seq<string>)
    ensures Stripped(s) == Only(s, Supported)
  {
    if s != [] { StrippedByText(s[1..]); }
  }

  /** "-o" and an absolute path in one argument. */
  predicate Glued(a: string) { |a| > 2 && a[0] == '-' && a[1] == 'o' && a[2] == '/' }

  lemma {:induction false} StandardizedByText(s: seq<string>, i: nat)
    requires i <= |s| && (forall j | 0 <= j < i :: !Glued(s[j])) && (i < |s| ==> Glued(s[i]))
    ensures Standardized(s) == if i == |s| then s else s[..i] + ["-o", s[i][2..]] + s[i + 1..]
  {
    if s != [] && i > 0 {
      StandardizedByText(s[1..], i - 1);
      assert s == [s[0]] + s[1..];
      if i < |s| { assert s[..i] == [s[0]] + s[1..][..i - 1] && s[i + 1..] == s[1..][i..]; }
    }
  }

  /** Before it is scanned, the first output glued to its option is separated, and the unsupported
      options are dropped; everything else stays as it is, in its order. */
  lemma NormalizedByText(s: seq<string>, i: nat)
    requires i <= |s| && (forall j | 0 <= j < i :: !Glued(s[j])) && (i < |s| ==> Glued(s[i]))
    ensures Normalized(s) == Only(if i == |s| then s else s[..i] + ["-o", s[i][2..]] + s[i + 1..], Supported)
  {
    StandardizedByText(s, i);
    StrippedByText(Standardized(s));
  }

  // ------------------------------------------------------------ RemoveLocalArgs

  /** The arguments that are not the value of an option of the preprocessor or the linker. */
  function NotValues(s: seq<string>): seq<string>
    decreases |s|
  {
    if s == [] then []
    else [s[0]] + NotValues(if !ValueOption(s[0]) then s[1..] else if |s| > 1 then s[2..] else [])
  }

  /** What RemoveLocalArgs keeps, exactly: everything else, as often and in the same order. */
  lemma {:induction false} KeptByText(s: seq<string>)
    ensures WithoutLocal(s) == Only(NotValues(s), Portable)
    decreases |s|
  {
    if s != [] {
      var rest := if !ValueOption(s[0]) then s[1..] else if |s| > 1 then s[2..] else [];
      ValueOptions(s[0]);
      LocalBySpelling(s[0]);
      KeptByText(rest);
      assert NotValues(s)[1..] == NotValues(rest);
    }
  }

  /** Options that decide what is compiled survive, as often and in the same order. */
  lemma CompileOptionsKept(s: seq<string>)
    ensures Only(WithoutLocal(s), CompileOption) == Only(NotValues(s), CompileOption)
  {
    KeptByText(s);
    forall a | CompileOption(a) ensures Portable(a) { CompileIsPortable(a); }
    OnlyOnly(NotValues(s), Portable, CompileOption);
  }

  lemma {:induction false} OnlyHas(s: seq<string>, p: string -> bool, a: string)
    requires a in Only(s, p)
    ensures p(a)
  {
    if !p(s[0]) || a != s[0] { OnlyHas(s[1..], p, a); }
  }

  /** None of the preprocessor's and linker's options is left. */
  lemma LocalIsDropped(s: seq<string>, a: string)
    requires ValueOption(a) || LoneOption(a) || LonePrefix(a)
    ensures a !in WithoutLocal(s)
  {
    KeptByText(s);
    if a in WithoutLocal(s) { OnlyHas(NotValues(s), Portable, a); }
  }

  // ------------------------------------------------------------------ later passes

  lemma NotCompile(a: string)
    requires |a| > 1 && a[0] == '-' ==> a[1] in {'o', '.', 'c', 'S', 'E'}
    ensures !CompileOption(a) && !ValueOption(a)
  {
    if CompileOption(a) { CompileSecond(a); }
    if ValueOption(a) { ValueSecond(a); }
  }

  lemma OnlyOne(a: string, p: string -> bool)
    ensures Only([a], p) == if p(a) then [a] else []
  {
    assert [a][1..] == [];
  }

  lemma OnlyPair(path: string)
    requires !CompileOption(path)
    ensures Only(["-o", path], CompileOption) == []
  {
    NotCompile("-o");
    assert ["-o", path] == ["-o"] + [path];
    OnlyAppend(["-o"], [path], CompileOption);
    OnlyOne("-o", CompileOption);
    OnlyOne(path, CompileOption);
  }

  lemma JoinedIsNoCompileOption(a: string)
    requires IsJoinedOutput(a)
    ensures !CompileOption(a) && !CompileOption(a[2..])
  {
    assert a[0] == "-o/"[0] && a[1] == "-o/"[1] && a[2..][0] == "-o/"[2];
    NotCompile(a);
    NotCompile(a[2..]);
  }

  lemma {:induction false} StandardizedKeeps(s: seq<string>)
    ensures Only(Standardized(s), CompileOption) == Only(s, CompileOption)
  {
    if s == [] {
    } else if IsJoinedOutput(s[0]) {
      JoinedIsNoCompileOption(s[0]);
      OnlyPair(s[0][2..]);
      OnlyAppend(["-o", s[0][2..]], s[1..], CompileOption);
    } else {
      StandardizedKeeps(s[1..]);
      assert ([s[0]] + Standardized(s[1..]))[1..] == Standardized(s[1..]);
    }
  }

  /** A pass over supported arguments keeps the options that decide what is compiled. */
  lemma ParseKeeps(s: seq<string>, mode: RunMode)
    requires AllSupported(s)
    ensures Only(ParseOf(s, mode).args, CompileOption) == Only(s, CompileOption)
  {
    var n := Normalized(s);
    StandardizedFacts(s);
    StrippedFacts(Standardized(s));
    StandardizedKeeps(s);
    var out := AddedOutput(ScanOf(n));
    ScanAddsPlain(n);
    NotCompile(out);
    OnlyPair(out);
    OnlyAppend(n, ["-o", out], CompileOption);
  }

  lemma {:induction false} RemovalKeepsSupport(s: seq<string>)
    requires AllSupported(s)
    ensures AllSupported(WithoutLocal(s))
    decreases |s|
  {
    if s != [] {
      if s[0] in LOCAL_ARGS_WITH_VALUES {
        if |s| > 1 { assert s[1..][1..] == s[2..]; }
        RemovalKeepsSupport(if |s| > 1 then s[2..] else []);
      } else {
        RemovalKeepsSupport(s[1..]);
        assert ([s[0]] + WithoutLocal(s[1..]))[1..] == WithoutLocal(s[1..]);
      }
    }
  }

  // ----------------------------------------------------------------- explicit PIC

  /** The command line says itself whether code is to be position independent. */
  predicate SaysPic(n: seq<string>) {
    Looks(n, "-fPIC") || Looks(n, "-fpic") || Looks(n, "-fno-PIC") || Looks(n, "-fno-pic")
  }

  predicate SaysPie(n: seq<string>) {
    Looks(n, "-fPIE") || Looks(n, "-fpie") || Looks(n, "-fno-PIE") || Looks(n, "-fno-pie")
  }

  /** What is prepended: "-fPIE" before "-fPIC", each where it is the toolchain's default and the
      command line says nothing about it. */
  function PicAdded(n: seq<string>, pic: bool, pie: bool): seq<string> {
    (if pie && !SaysPie(n) then ["-fPIE"] else []) + (if pic && !SaysPic(n) then ["-fPIC"] else [])
  }

  lemma PicRecorded(n: seq<string>)
    ensures forall k | PicOption(k) :: k in ScanOf(n).flags <==> Looks(n, k)
  {
    forall k | PicOption(k) ensures k in ScanOf(n).flags <==> Looks(n, k) {
      RecordedByText(n, 0, Fresh(), k);
    }
  }

  /** The recorded options of the two kinds are those the command line has. */
  ghost predicate Recorded(flags: map<string, int>, n: seq<string>) {
    && ("-fno-pic" !in flags && "-fno-PIC" !in flags && "-fPIC" !in flags && "-fpic" !in flags <==> !SaysPic(n))
    && ("-fno-pie" !in flags && "-fno-PIE" !in flags && "-fPIE" !in flags && "-fpie" !in flags <==> !SaysPie(n))
  }

  lemma PicSaid(n: seq<string>)
    ensures Recorded(ScanOf(n).flags, n)
  {
    PicRecorded(n);
    assert PicOption("-fPIC") && PicOption("-fpic") && PicOption("-fno-PIC") && PicOption("-fno-pic");
    assert PicOption("-fPIE") && PicOption("-fpie") && PicOption("-fno-PIE") && PicOption("-fno-pie");
  }

  lemma PicPrepended(args: seq<string>, flags: map<string, int>, n: seq<string>, pic: bool, pie: bool)
    requires Recorded(flags, n)
    ensures WithPic(args, flags, pic, pie) == PicAdded(n, pic, pie) + args
  {
  }

  /** PrependExplicitPICArgs after a Parse, exactly. */
  lemma PicByText(s: seq<string>, mode: RunMode, pic: bool, pie: bool)
    ensures var p := ParseOf(s, mode); WithPic(p.args, p.flags, pic, pie) == PicAdded(Normalized(s), pic, pie) + p.args
  {
    var n, p := Normalized(s), ParseOf(s, mode);
    PicSaid(n);
    assert p.flags == ScanOf(n).flags;
    PicPrepended(p.args, p.flags, n, pic, pie);
  }

  lemma PicAddedIsCompile(n: seq<string>, pic: bool, pie: bool)
    ensures Only(PicAdded(n, pic, pie), CompileOption) == PicAdded(n, pic, pie) && AllSupported(PicAdded(n, pic, pie))
  {
    OnlyOne("-fPIC", CompileOption);
    OnlyOne("-fPIE", CompileOption);
    OnlyAppend(["-fPIE"], ["-fPIC"], CompileOption);
    PicWord("-fPIC");
    PicWord("-fPIE");
    AppendFacts(["-fPIE"], ["-fPIC"]);
    assert ["-fPIC"][1..] == [] && ["-fPIE"][1..] == [];
  }

  // -------------------------------------------------------------------- what is sent

  lemma {:induction false} NotValuesUpdated(s: seq<string>, i: nat, a: string)
    requires i < |s| && !ValueOption(s[i]) && !CompileOption(s[i]) && !ValueOption(a) && !CompileOption(a)
    ensures Only(NotValues(s[i := a]), CompileOption) == Only(NotValues(s), CompileOption)
    decreases |s|
  {
    var t := s[i := a];
    var n := if ValueOption(s[0]) then 2 else 1;
    if i == 0 {
      assert t[1..] == s[1..];
      NotValuesStep(s);
      NotValuesStep(t);
    } else {
      NotValuesStep(s);
      NotValuesStep(t);
      if n <= i {
        NotValuesUpdated(s[n..], i - n, a);
        assert t[n..] == s[n..][i - n := a];
      } else {
        assert |s| > 1 && t[2..] == s[2..];
      }
    }
  }

  function CompileAt(s: seq<string>): seq<string>
    requires s != []
  {
    if CompileOption(s[0]) then [s[0]] else []
  }

  lemma NotValuesStep(s: seq<string>)
    requires s != []
    ensures var rest := if !ValueOption(s[0]) then s[1..] else if |s| > 1 then s[2..] else [];
            Only(NotValues(s), CompileOption) == CompileAt(s) + Only(NotValues(rest), CompileOption)
  {
    var rest := if !ValueOption(s[0]) then s[1..] else if |s| > 1 then s[2..] else [];
    assert NotValues(s)[1..] == NotValues(rest);
  }

  lemma {:induction false} SupportedUpdated(s: seq<string>, i: nat, a: string)
    requires i < |s| && AllSupported(s) && !IsUnsupported(a)
    ensures AllSupported(s[i := a])
  {
    if i == 0 {
      assert s[i := a][1..] == s[1..];
    } else {
      SupportedUpdated(s[1..], i - 1, a);
      assert s[i := a][1..] == s[1..][i - 1 := a];
    }
  }

  predicate IsAction(a: string) { a == "-c" || a == "-S" || a == "-E" }

  /** Exchanging an action option for another leaves the other options as they are. */
  lemma ActionExchanged(s: seq<string>, i: nat, a: string)
    requires i < |s| && IsAction(s[i]) && IsAction(a) && AllSupported(s)
    ensures AllSupported(s[i := a]) && Only(NotValues(s[i := a]), CompileOption) == Only(NotValues(s), CompileOption)
  {
    NotCompile(s[i]);
    NotCompile(a);
    NotValuesUpdated(s, i, a);
    SupportedUpdated(s, i, a);
  }

  /** So does preprocessing, whatever it makes of the action. */
  lemma PreprocessingKeeps(p: Parsed)
    requires WellIndexed(p) && ActionsExact(p) && AllSupported(p.args)
    ensures var q := AfterPreprocessing(p).args;
            AllSupported(q) && Only(NotValues(q), CompileOption) == Only(NotValues(p.args), CompileOption)
  {
    PreprocessingRestoresExactly(p);
    if BothActions(p.flags) {
      PreprocessingMixesUpBoth(p);
      var c, s := p.flags["-c"], p.flags["-S"];
      assert c != s;
      ActionExchanged(p.args, c, "-E");
      ActionExchanged(p.args[c := "-E"], s, "-c");
    }
  }

  /** The last two rewrites. */
  lemma SentFromKeeps(args: seq<string>, mode: RunMode, pic: bool, pie: bool)
    requires AllSupported(args)
    ensures Only(SentFrom(args, mode, pic, pie).args, CompileOption)
         == PicAdded(Normalized(WithoutLocal(args)), pic, pie) + Only(NotValues(args), CompileOption)
  {
    var kept := WithoutLocal(args);
    var stripped := ParseOf(kept, mode);
    var added := PicAdded(Normalized(kept), pic, pie);
    RemovalKeepsSupport(args);
    ParseKeeps(kept, mode);
    CompileOptionsKept(args);
    PicByText(kept, mode, pic, pie);
    PicAddedIsCompile(Normalized(kept), pic, pie);
    AddedTail(kept, mode);
    AppendFacts(added, stripped.args);
    OnlyAppend(added, stripped.args, CompileOption);
    ParseKeeps(added + stripped.args, stripped.mode);
  }

  /** The options that decide what is compiled reach the agent: each as often and in the same order as
      the command line has them after its own parsing, behind at most "-fPIE" and "-fPIC". */
  lemma SentKeeps(s: seq<string>, mode: RunMode, pic: bool, pie: bool)
    requires Scannable(Words(Normalized(Unwrapped(s))))
    ensures Only(Sent(s, mode, pic, pie).args, CompileOption)
         == PicAdded(Normalized(WithoutLocal(Preprocessed(s, mode).args)), pic, pie)
            + Only(NotValues(ParseOf(Unwrapped(s), mode).args), CompileOption)
  {
    var first := ParseOf(Unwrapped(s), mode);
    ParseDescribes(Unwrapped(s), mode);
    AddedTail(Unwrapped(s), mode);
    PreprocessingKeeps(first);
    var p := Preprocessed(s, mode);
    SentFromKeeps(p.args, p.mode, pic, pie);
  }

  // ----------------------------------------------------------------- preprocessing

  lemma {:induction false} PreprocessRulesOut(s: seq<string>)
    requires Looks(s, "-E")
    ensures RuledOut(s)
    decreases |s|
  {
    if s[0] != "-E" { PreprocessRulesOut(s[TextWidth(s)..]); }
  }

  /** A command line that may be compiled remotely because it names an output, with neither "-c" nor
      "-S", is not preprocessed: the compiler is run with all it says, but for the output path. */
  lemma ActionlessIsNotPreprocessed(s: seq<string>, mode: RunMode)
    requires Scannable(Words(Normalized(s))) && ParseOf(s, mode).mode == RunRemote
    requires !Looks(Normalized(s), "-c") && !Looks(Normalized(s), "-S")
    ensures var p := ParseOf(s, mode);
            && WellIndexed(p) && 0 <= p.output < |p.args| && PreprocessorArgs(p) == p.args[p.output := "-"]
  {
    var n, p := Normalized(s), ParseOf(s, mode);
    ParseDescribes(s, mode);
    RemoteByText(s, mode);
    if Looks(n, "-E") { PreprocessRulesOut(n); }
    RecordedByText(n, 0, Fresh(), "-c");
    RecordedByText(n, 0, Fresh(), "-S");
    RecordedByText(n, 0, Fresh(), "-E");
    assert p.flags == ScanOf(n).flags;
    ScanByText(n, 0, Fresh());
    OutputsAreNamed(n);
  }
}
