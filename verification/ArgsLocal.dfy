/** RemoveLocalArgs: what is dropped before a command line is sent to an agent, and what is not. */
module ArgsLocal {
  import opened Args
  import opened ArgsIdempotence

  /** The arguments RemoveLocalArgs keeps. */
  function WithoutLocal(s: seq<string>): seq<string>
    decreases |s|
  {
    if s == [] then []
    else if s[0] in LOCAL_ARGS_WITH_VALUES then WithoutLocal(if |s| > 1 then s[2..] else [])
    else if HasLocalPrefix(s[0]) || s[0] in LOCAL_ARGS_NO_VALUES then WithoutLocal(s[1..])
    else [s[0]] + WithoutLocal(s[1..])
  }

  // ------------------------------------------------------- nothing local is left

  predicate NoLocal(s: seq<string>) {
    s == [] || (!IsLocalOption(s[0]) && NoLocal(s[1..]))
  }

  lemma {:induction false} WithoutLocalHasNone(s: seq<string>)
    ensures NoLocal(WithoutLocal(s))
    decreases |s|
  {
    if s != [] {
      if s[0] in LOCAL_ARGS_WITH_VALUES {
        WithoutLocalHasNone(if |s| > 1 then s[2..] else []);
      } else {
        WithoutLocalHasNone(s[1..]);
        assert ([s[0]] + WithoutLocal(s[1..]))[1..] == WithoutLocal(s[1..]);
      }
    }
  }

  // ------------------------------------------------- what Parse observes is kept

  /** What a scan reports, leaving out where it was found. */
  datatype Seen = Seen(inputArg: string, hasOutput: bool, outputArg: string, seenC: bool, seenS: bool, seenE: bool)

  function Obs(st: Scan): Seen { Seen(st.inputArg, st.output != -1, st.outputArg, st.seenC, st.seenS, st.seenE) }

  /** Dropped options mean nothing to Parse, and agree with it about having a value. */
  predicate Silent(w: Word) {
    w.local ==> w.kind.DependencyFlag? || w.kind.DependencyValue? || w.kind.LocalValue? || w.kind.OtherOption?
  }

  predicate AllSilent(s: seq<Word>) { forall i | 0 <= i < |s| :: Silent(s[i]) }

  function Kept(s: seq<Word>): seq<Word> {
    if s == [] then []
    else if s[0].local then Kept(s[Width(s)..])
    else [s[0]] + Kept(s[1..])
  }

  /** No value of a kept option (the path after "-o", the language after "-x") is a local option. */
  predicate ValuesKept(s: seq<Word>) {
    s == [] || ((!s[0].local && s[0].TakesValue() && |s| > 1 ==> !s[1].local) && ValuesKept(s[Width(s)..]))
  }

  lemma SilentWord(st: Scan, i: nat, w: Word, rest: seq<Word>)
    requires w.local && Silent(w)
    ensures Obs(ScanWord(st, i, w, rest)) == Obs(st)
  {
  }

  lemma ObsWord(a: Scan, b: Scan, i: nat, j: nat, w: Word, rest: seq<Word>, rest': seq<Word>)
    requires Obs(a) == Obs(b)
    requires w.kind.Output? ==> (rest == [] <==> rest' == []) && (rest != [] ==> rest[0] == rest'[0])
    ensures Obs(ScanWord(a, i, w, rest)) == Obs(ScanWord(b, j, w, rest'))
  {
  }

  lemma KeptPair(s: seq<Word>)
    requires |s| > 1 && !s[0].local && !s[1].local
    ensures Kept(s) == [s[0], s[1]] + Kept(s[2..])
  {
    assert s[1..][1..] == s[2..];
  }

  lemma KeptWidth(s: seq<Word>)
    requires s != [] && !s[0].local && (s[0].TakesValue() && |s| > 1 ==> !s[1].local)
    ensures var k, w := Kept(s), Width(s);
            && k != [] && k[0] == s[0] && Width(k) == w && k[w..] == Kept(s[w..])
            && (s[0].kind.Output? ==> (k[1..] == [] <==> s[1..] == []) && (s[1..] != [] ==> k[1..][0] == s[1..][0]))
  {
    if Width(s) == 2 {
      KeptPair(s);
    } else if |s| == 1 {
      assert s[1..] == [];
    }
  }

  /** The skipping of RemoveLocalArgs stays in step with that of Parse. */
  lemma {:induction false} KeptScansAlike(s: seq<Word>, i: nat, j: nat, a: Scan, b: Scan)
    requires AllSilent(s) && ValuesKept(s) && Obs(a) == Obs(b)
    ensures Obs(ScanFrom(s, i, a)) == Obs(ScanFrom(Kept(s), j, b))
    decreases |s|
  {
    if s != [] {
      var w, t := Width(s), ScanWord(a, i, s[0], s[1..]);
      if s[0].local {
        SilentWord(a, i, s[0], s[1..]);
        KeptScansAlike(s[w..], i + w, j, t, b);
      } else {
        KeptWidth(s);
        ObsWord(a, b, i, j, s[0], s[1..], Kept(s)[1..]);
        KeptScansAlike(s[w..], i + w, j + w, t, ScanWord(b, j, s[0], Kept(s)[1..]));
      }
    }
  }

  // The second and third characters of an option decide most of its branches.

  lemma ValueOptionChars(a: string)
    requires a in LOCAL_ARGS_WITH_VALUES
    ensures |a| > 1 && a[0] == '-' && a[1] in {'D', 'I', 'U', 'L', 'l', 'M', 'i'}
    ensures a[1] == 'M' ==> |a| == 3 && a[2] in {'F', 'T', 'Q'}
  {
  }

  lemma PlainLocalChars(a: string)
    requires HasLocalPrefix(a) || a in LOCAL_ARGS_NO_VALUES
    ensures |a| > 1 && a[0] == '-' && a[1] in {'W', 'D', 'U', 'I', 'l', 'L', 'M', 'i', 's', 'u', 'n'}
    ensures a[1] == 'W' ==> |a| > 2 && a[2] in {'p', 'l'}
    ensures a[1] == 's' ==> |a| > 2 && a[2] == 't'
    ensures a[1] == 'M' ==> a in {"-MD", "-MMD", "-MG", "-MP"} || "-MF" <= a || "-MT" <= a || "-MQ" <= a
  {
  }

  lemma PicChars(a: string)
    requires |a| > 1 && a[1] !in {'f', '-'}
    ensures a !in PIC_ARGS && a !in PROFILE_ARGS
  {
  }

  /** The branches of the switch in Parse that look at whole prefixes. */
  lemma PrefixChars(a: string)
    requires |a| > 1 && a[1] !in {'E', 'M', 'm', 'f', '-', 'S', 'x', 'd', 'c', 'o', 'W', 's'}
    ensures !("-MF" <= a || "-MT" <= a || "-MQ" <= a || "-M" <= a)
    ensures !("-Wa," <= a || "-specs=" <= a || "-x" <= a || "-dr" <= a)
    ensures !("-fprofile-generate" <= a || "-fprofile-use" <= a || "-fauto-profile" <= a)
    ensures a !in {"-E", "-MD", "-MMD", "-MG", "-MP", "-march=native", "-mtune=native", "-S", "-frepo", "-c", "-o"}
  {
  }

  lemma PlainByChars(a: string)
    requires |a| > 2 && a[0] == '-' && ((a[1] == 'W' && a[2] in {'p', 'l'}) || (a[1] == 's' && a[2] == 't'))
    ensures Classify(a) == OtherOption && a !in LOCAL_ARGS_WITH_VALUES
  {
    PicChars(a);
    if a in LOCAL_ARGS_WITH_VALUES { ValueOptionChars(a); }
  }

  lemma ValueByChars(a: string)
    requires |a| > 1 && a[0] == '-' && a[1] in {'D', 'U', 'I', 'l', 'L', 'i', 'u', 'n'}
    ensures Classify(a) == if a in LOCAL_ARGS_WITH_VALUES then LocalValue else OtherOption
  {
    PicChars(a);
    PrefixChars(a);
  }

  lemma KindByChars(a: string)
    requires |a| > 1 && a[0] == '-' && a[1] in {'W', 'D', 'U', 'I', 'l', 'L', 'i', 's', 'u', 'n'}
    requires a[1] == 'W' ==> |a| > 2 && a[2] in {'p', 'l'}
    requires a[1] == 's' ==> |a| > 2 && a[2] == 't'
    ensures Classify(a) == if a in LOCAL_ARGS_WITH_VALUES then LocalValue else OtherOption
  {
    if a[1] in {'W', 's'} { PlainByChars(a); } else { ValueByChars(a); }
  }

  lemma DependencyKind(a: string)
    requires a in {"-MD", "-MMD", "-MG", "-MP"} || "-MF" <= a || "-MT" <= a || "-MQ" <= a
    ensures Classify(a) == if a in {"-MD", "-MMD", "-MG", "-MP"} then DependencyFlag else DependencyValue(|a| > 3)
    ensures a in LOCAL_ARGS_WITH_VALUES <==> Classify(a) == DependencyValue(false)
  {
    if a in LOCAL_ARGS_WITH_VALUES { ValueOptionChars(a); }
    if |a| == 3 { assert a == "-MF" || a == "-MT" || a == "-MQ" || a in {"-MD", "-MG", "-MP"}; }
  }

  /** A local option takes a value for Parse exactly when RemoveLocalArgs skips one. */
  lemma LocalOptionsAgree(a: string)
    requires IsLocalOption(a)
    ensures Silent(Read(a)) && (Read(a).TakesValue() <==> a in LOCAL_ARGS_WITH_VALUES)
  {
    if a in LOCAL_ARGS_WITH_VALUES { ValueOptionChars(a); } else { PlainLocalChars(a); }
    if a[1] == 'M' { DependencyKind(a); } else { KindByChars(a); }
  }

  lemma WordsTail(s: seq<string>, k: nat)
    requires k <= |s|
    ensures Words(s)[k..] == Words(s[k..])
  {
  }

  lemma WordsCons(a: string, s: seq<string>)
    ensures Words([a] + s) == [Read(a)] + Words(s)
  {
  }

  /** On words, RemoveLocalArgs keeps what Kept keeps. */
  lemma {:induction false} WithoutLocalIsKept(s: seq<string>)
    ensures Words(WithoutLocal(s)) == Kept(Words(s))
    decreases |s|
  {
    if s != [] {
      WordsTail(s, 1);
      if |s| > 1 { WordsTail(s, 2); }
      if IsLocalOption(s[0]) {
        LocalOptionsAgree(s[0]);
        if s[0] in LOCAL_ARGS_WITH_VALUES {
          WithoutLocalIsKept(if |s| > 1 then s[2..] else []);
        } else {
          WithoutLocalIsKept(s[1..]);
        }
      } else {
        WithoutLocalIsKept(s[1..]);
        WordsCons(s[0], WithoutLocal(s[1..]));
      }
    }
  }

  lemma WordsAreSilent(s: seq<string>)
    ensures AllSilent(Words(s))
  {
    forall i | 0 <= i < |s| ensures Silent(Words(s)[i]) {
      if IsLocalOption(s[i]) { LocalOptionsAgree(s[i]); }
    }
  }

  lemma {:induction false} KeptScannable(s: seq<Word>)
    requires ValuesKept(s) && Scannable(s)
    ensures Scannable(Kept(s))
    decreases |s|
  {
    if s != [] {
      KeptScannable(s[Width(s)..]);
      if !s[0].local { KeptWidth(s); }
    }
  }

  lemma {:induction false} WithoutLocalStaysNormal(s: seq<string>)
    requires AllSupported(s) && JoinedOutputs(s) == 0
    ensures AllSupported(WithoutLocal(s)) && JoinedOutputs(WithoutLocal(s)) == 0
    decreases |s|
  {
    if s != [] {
      if s[0] in LOCAL_ARGS_WITH_VALUES {
        if |s| > 1 { assert s[1..][1..] == s[2..]; }
        WithoutLocalStaysNormal(if |s| > 1 then s[2..] else []);
      } else {
        WithoutLocalStaysNormal(s[1..]);
        assert ([s[0]] + WithoutLocal(s[1..]))[1..] == WithoutLocal(s[1..]);
      }
    }
  }

  // ---------------------------------------------------------------- main results

  lemma NotLocal(a: string)
    requires |a| > 1 && a[0] == '-' ==> a[1] in {'o', '.', 'c', 'S', 'E', 'x', 'f'}
    ensures !IsLocalOption(a)
  {
    if a in LOCAL_ARGS_WITH_VALUES { ValueOptionChars(a); }
    if HasLocalPrefix(a) || a in LOCAL_ARGS_NO_VALUES { PlainLocalChars(a); }
  }

  lemma {:induction false} NormalizingAddsNoLocal(s: seq<string>)
    requires NoLocal(s)
    ensures NoLocal(Standardized(s)) && NoLocal(Stripped(s))
  {
    if s != [] {
      NormalizingAddsNoLocal(s[1..]);
      assert ([s[0]] + Stripped(s[1..]))[1..] == Stripped(s[1..]);
      assert ([s[0]] + Standardized(s[1..]))[1..] == Standardized(s[1..]);
      if IsJoinedOutput(s[0]) {
        var pair := ["-o", s[0][2..]] + s[1..];
        assert pair[1..] == [s[0][2..]] + s[1..] && pair[1..][1..] == s[1..];
        assert s[0][2..][0] == '/';
        NotLocal("-o");
        NotLocal(s[0][2..]);
      }
    }
  }

  lemma {:induction false} NoLocalAppend(s: seq<string>, t: seq<string>)
    ensures NoLocal(s + t) <==> NoLocal(s) && NoLocal(t)
  {
    if s == [] {
      assert s + t == t;
    } else {
      NoLocalAppend(s[1..], t);
      assert (s + t)[1..] == s[1..] + t;
    }
  }

  lemma ParseAddsNoLocal(s: seq<string>, mode: RunMode)
    requires NoLocal(s)
    ensures NoLocal(ParseOf(s, mode).args)
  {
    var n := Normalized(s);
    NormalizingAddsNoLocal(s);
    NormalizingAddsNoLocal(Standardized(s));
    var out := AddedOutput(ScanOf(n));
    ScanAddsPlain(n);
    PairNotLocal(out);
    NoLocalAppend(n, ["-o", out]);
  }

  /** After RemoveLocalArgs, its Parse included, no argument is a local-only option. */
  lemma NothingLocalLeft(s: seq<string>, mode: RunMode)
    ensures NoLocal(ParseOf(WithoutLocal(s), mode).args)
  {
    WithoutLocalHasNone(s);
    ParseAddsNoLocal(WithoutLocal(s), mode);
  }

  lemma PairNotLocal(out: string)
    requires Plain(out)
    ensures NoLocal(["-o", out])
  {
    NotLocal("-o");
    NotLocal(out);
    assert [out][1..] == [] && ["-o", out][1..] == [out];
    assert NoLocal([out]);
  }

  /** The argument list a Parse leaves alone. */
  predicate Settled(s: seq<string>) {
    AllSupported(s) && JoinedOutputs(s) == 0 && !Adds(ScanOf(s))
  }

  lemma SettledParse(s: seq<string>, mode: RunMode)
    requires Settled(s)
    ensures Normalized(s) == s && !Adds(ScanOf(s)) && ParseOf(s, mode).args == s
  {
    NormalizedFacts(s);
  }

  /** Where Parse is idempotent it leaves a settled argument list. */
  lemma IdempotentSettles(s: seq<string>, mode: RunMode)
    requires ParseIsIdempotent(s, mode)
    ensures Settled(ParseOf(s, mode).args)
  {
    var once := ParseOf(s, mode);
    IdempotentExactly(s, mode);
    NormalizedFacts(s);
    AddedTail(s, mode);
    NormalizedFacts(once.args);
  }

  /** Removing local options from a settled command line whose "-o" and "-x" values are not
      themselves local leaves input file, output path and actions as they were found. */
  lemma RemovalKeepsMeaning(s: seq<string>)
    requires Settled(s) && ValuesKept(Words(s)) && Scannable(Words(s))
    ensures Settled(WithoutLocal(s)) && Scannable(Words(WithoutLocal(s)))
    ensures Obs(ScanOf(WithoutLocal(s))) == Obs(ScanOf(s))
  {
    WithoutLocalStaysNormal(s);
    WithoutLocalIsKept(s);
    WordsAreSilent(s);
    KeptScannable(Words(s));
    KeptScansAlike(Words(s), 0, 0, Fresh(), Fresh());
  }

  lemma {:induction false} NoLocalMember(s: seq<string>, v: string)
    requires NoLocal(s) && v in s
    ensures !IsLocalOption(v)
  {
    if v != s[0] { NoLocalMember(s[1..], v); }
  }
}
