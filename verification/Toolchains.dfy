/** Toolchains, the routing key the scheduler derives from one, and the store an agent
    looks a routed toolchain up in (pkg/types/functions.go, pkg/toolchains/store.go). */
module Toolchains {
  import opened Common

  /** Kind and lang are protobuf enums: any int32 can arrive, but only some have names. */
  datatype Toolchain = Toolchain(
    kind: int, lang: int, executable: string, targetArch: string, version: string,
    picDefault: bool, pieDefault: bool)

  const KIND_MARK: string := "ToolchainKind_"

  function KindName(kind: int): string {
    match kind
    case 0 => "ToolchainKind_Unknown"
    case 1 => "ToolchainKind_Gnu"
    case 2 => "ToolchainKind_Clang"
    case 3 => "ToolchainKind_Test"
    case 4 => "ToolchainKind_Sleep"
    case _ => ""
  }

  function LangName(lang: int): string {
    match lang
    case 0 => "ToolchainLang_Unknown"
    case 1 => "ToolchainLang_C"
    case 2 => "ToolchainLang_CXX"
    case 3 => "ToolchainLang_Multi"
    case _ => ""
  }

  /** Toolchain.EquivalentTo: everything but the executable path and the PIC defaults. */
  predicate EquivalentTo(a: Toolchain, b: Toolchain) {
    a.kind == b.kind && a.lang == b.lang && a.targetArch == b.targetArch && a.version == b.version
  }

  /** The bytes Toolchain.Hash writes into the hasher, in order. */
  function HashBytes(tc: Toolchain): string {
    tc.targetArch + KindName(tc.kind) + LangName(tc.lang) + tc.version
  }

  predicate Enumerated(tc: Toolchain) {
    0 <= tc.kind <= 4 && 0 <= tc.lang <= 3
  }

  /** Toolchains whose fields cannot be mistaken for one another inside HashBytes. */
  ghost predicate Unambiguous(tc: Toolchain) {
    && Enumerated(tc)
    && !Contains(tc.targetArch, KIND_MARK)
    && (tc.version == "" || '0' <= tc.version[0] <= '9')
  }

  /** "ToolchainLang_C" followed by "XX..." reads the same as "ToolchainLang_CXX". */
  predicate ReadsAsCxx(a: Toolchain, b: Toolchain) {
    && a.kind == b.kind && a.targetArch == b.targetArch
    && a.lang == 1 && b.lang == 2 && a.version == "XX" + b.version
  }

  /** What is written for a toolchain with a named kind and lang. */
  lemma BytesSpelledOut(tc: Toolchain)
    requires Enumerated(tc)
    ensures HashBytes(tc)
         == tc.targetArch + ("ToolchainKind_" + ["Unknown", "Gnu", "Clang", "Test", "Sleep"][tc.kind])
            + ("ToolchainLang_" + ["Unknown", "C", "CXX", "Multi"][tc.lang]) + tc.version
  {
    assert KindName(tc.kind) == "ToolchainKind_" + ["Unknown", "Gnu", "Clang", "Test", "Sleep"][tc.kind];
    assert LangName(tc.lang) == "ToolchainLang_" + ["Unknown", "C", "CXX", "Multi"][tc.lang];
  }

  lemma KindNameStart(kind: int)
    requires 0 <= kind <= 4
    ensures |KindName(kind)| > 14 && KindName(kind)[..14] == KIND_MARK
  {
  }

  /** The kind name starts where the architecture ends, so architectures of different length
      cannot lead to the same bytes. */
  lemma ShorterArchDiffers(p: string, u: string, q: string, v: string, i: int, j: int)
    requires 0 <= i <= 4 && 0 <= j <= 4 && !Contains(q, KIND_MARK) && |p| < |q|
    ensures p + (KindName(i) + u) != q + (KindName(j) + v)
  {
    var x, y, n := p + (KindName(i) + u), q + (KindName(j) + v), |p|;
    KindNameStart(i);
    KindNameStart(j);
    assert x[n..n + 14] == KIND_MARK;
    if n + 14 <= |q| {
      assert y[n..n + 14] == q[n..n + 14];
      assert !OccursAt(q, KIND_MARK, n);
    } else {
      var d := |q| - n;
      assert y[n + d] == KindName(j)[0] == KindName(j)[..14][0] == 'T';
      assert x[n + d] == x[n..n + 14][d] == KIND_MARK[d] != 'T';
    }
  }

  lemma SplitAlike(p: string, q: string, r: string, s: string)
    requires p + q == r + s && |p| == |r|
    ensures p == r && q == s
  {
    assert p == (p + q)[..|p|] && q == (p + q)[|p|..];
    assert r == (r + s)[..|r|] && s == (r + s)[|r|..];
  }

  lemma KindByCharacter(i: int, j: int)
    requires 0 <= i <= 4 && 0 <= j <= 4 && KindName(i)[14] == KindName(j)[14]
    ensures i == j
  {
  }

  /** The kind is read off the fifteenth character. */
  lemma KindDecoded(i: int, j: int, u: string, v: string)
    requires 0 <= i <= 4 && 0 <= j <= 4 && KindName(i) + u == KindName(j) + v
    ensures i == j && u == v
  {
    KindNameStart(i);
    KindNameStart(j);
    assert (KindName(i) + u)[14] == KindName(i)[14] == KindName(j)[14];
    KindByCharacter(i, j);
    SplitAlike(KindName(i), u, KindName(j), v);
  }

  lemma LangByCharacter(i: int, j: int, u: string, v: string)
    requires 0 <= i <= 3 && 0 <= j <= 3 && LangName(i) + u == LangName(j) + v
    ensures i == j || (i == 1 && j == 2) || (i == 2 && j == 1)
  {
    assert (LangName(i) + u)[14] == LangName(i)[14] && (LangName(j) + v)[14] == LangName(j)[14];
  }

  lemma CxxCompletes(u: string, v: string)
    requires LangName(1) + u == LangName(2) + v
    ensures u == "XX" + v
  {
    assert LangName(2) + v == LangName(1) + ("XX" + v);
    SplitAlike(LangName(1), u, LangName(1), "XX" + v);
  }

  lemma LangDecoded(a: Toolchain, b: Toolchain)
    requires Enumerated(a) && Enumerated(b)
    requires LangName(a.lang) + a.version == LangName(b.lang) + b.version
    ensures a.lang == b.lang || (a.lang == 1 && b.lang == 2) || (a.lang == 2 && b.lang == 1)
    ensures a.lang == b.lang ==> a.version == b.version
    ensures a.lang == 1 && b.lang == 2 ==> a.version == "XX" + b.version
  {
    LangByCharacter(a.lang, b.lang, a.version, b.version);
    if a.lang == b.lang {
      SplitAlike(LangName(a.lang), a.version, LangName(b.lang), b.version);
    } else if a.lang == 1 {
      CxxCompletes(a.version, b.version);
    }
  }

  function AfterArch(tc: Toolchain): string { KindName(tc.kind) + (LangName(tc.lang) + tc.version) }

  lemma Regrouped(tc: Toolchain)
    ensures HashBytes(tc) == tc.targetArch + AfterArch(tc)
  {
  }

  lemma ArchDecoded(a: Toolchain, b: Toolchain)
    requires Enumerated(a) && !Contains(a.targetArch, KIND_MARK)
    requires Enumerated(b) && !Contains(b.targetArch, KIND_MARK)
    requires HashBytes(a) == HashBytes(b)
    ensures a.targetArch == b.targetArch && AfterArch(a) == AfterArch(b)
  {
    var u, v := LangName(a.lang) + a.version, LangName(b.lang) + b.version;
    Regrouped(a);
    Regrouped(b);
    if |a.targetArch| < |b.targetArch| { ShorterArchDiffers(a.targetArch, u, b.targetArch, v, a.kind, b.kind); }
    if |b.targetArch| < |a.targetArch| { ShorterArchDiffers(b.targetArch, v, a.targetArch, u, b.kind, a.kind); }
    SplitAlike(a.targetArch, AfterArch(a), b.targetArch, AfterArch(b));
  }

  /** The exact reach of the routing key: for named kinds and langs, and architectures free of
      the kind marker, two toolchains feed the same bytes to the hash exactly when they are
      equivalent or one's version completes "C" to the other's "CXX". */
  lemma SameBytesExactly(a: Toolchain, b: Toolchain)
    requires Enumerated(a) && !Contains(a.targetArch, KIND_MARK)
    requires Enumerated(b) && !Contains(b.targetArch, KIND_MARK)
    ensures HashBytes(a) == HashBytes(b)
       <==> EquivalentTo(a, b) || ReadsAsCxx(a, b) || ReadsAsCxx(b, a)
  {
    if HashBytes(a) == HashBytes(b) {
      ArchDecoded(a, b);
      KindDecoded(a.kind, b.kind, LangName(a.lang) + a.version, LangName(b.lang) + b.version);
      LangDecoded(a, b);
      LangDecoded(b, a);
    }
    if ReadsAsCxx(a, b) { CxxReading(a, b); }
    if ReadsAsCxx(b, a) { CxxReading(b, a); }
  }

  lemma CxxReading(a: Toolchain, b: Toolchain)
    requires ReadsAsCxx(a, b)
    ensures HashBytes(a) == HashBytes(b)
  {
    assert LangName(2) == LangName(1) + "XX";
    assert LangName(1) + ("XX" + b.version) == LangName(2) + b.version;
    var front := a.targetArch + KindName(a.kind);
    assert HashBytes(a) == front + (LangName(1) + ("XX" + b.version));
    assert HashBytes(b) == front + (LangName(2) + b.version);
  }

  /** For unambiguous toolchains the key is exactly toolchain equivalence. */
  lemma RoutingKeyIsEquivalence(a: Toolchain, b: Toolchain)
    requires Unambiguous(a) && Unambiguous(b)
    ensures HashBytes(a) == HashBytes(b) <==> EquivalentTo(a, b)
  {
    SameBytesExactly(a, b);
  }

  /** None of the three conditions can be dropped: an unnamed kind, a marker inside the
      architecture, and a version that is not a number each give a collision. */
  lemma RoutingKeyCollisions()
    ensures var a := Toolchain(5, 1, "cc", "x86_64", "9", false, false);
            var b := a.(kind := 6);
            HashBytes(a) == HashBytes(b) && !EquivalentTo(a, b)
    ensures var names := KindName(1) + LangName(1);
            var a := Toolchain(1, 1, "cc", "", "1" + names, false, false);
            var b := Toolchain(1, 1, "cc", names + "1", "", false, false);
            Unambiguous(a) && HashBytes(a) == HashBytes(b) && !EquivalentTo(a, b)
    ensures var a := Toolchain(1, 1, "cc", "x86_64", "XX9", false, false);
            var b := Toolchain(1, 2, "c++", "x86_64", "9", false, false);
            Unambiguous(b) && HashBytes(a) == HashBytes(b) && !EquivalentTo(a, b)
  {
    var names := KindName(1) + LangName(1);
    var a := Toolchain(1, 1, "cc", "", "1" + names, false, false);
    var b := Toolchain(1, 1, "cc", names + "1", "", false, false);
    assert !Contains(a.targetArch, KIND_MARK);
    assert HashBytes(a) == names + "1" + names;
    assert HashBytes(b) == names + "1" + names;
    var c := Toolchain(1, 1, "cc", "x86_64", "XX9", false, false);
    var d := Toolchain(1, 2, "c++", "x86_64", "9", false, false);
    assert !Contains(d.targetArch, KIND_MARK);
    assert c.version == "XX" + d.version;
    CxxReading(c, d);
  }

  /** Some toolchain of the list has the routing key of tc: what attaches an agent to tc's route. */
  predicate Offers(items: seq<Toolchain>, tc: Toolchain) {
    exists i :: 0 <= i < |items| && HashBytes(items[i]) == HashBytes(tc)
  }

  /** Store.TryMatch: the first stored toolchain equivalent to the one a request names. */
  method TryMatch(items: seq<Toolchain>, other: Toolchain) returns (r: Option<Toolchain>)
    ensures r.Some? ==> r.value in items && EquivalentTo(r.value, other)
    ensures r.None? <==> forall tc | tc in items :: !EquivalentTo(tc, other)
  {
    for i := 0 to |items|
      invariant forall j | 0 <= j < i :: !EquivalentTo(items[j], other)
    {
      if EquivalentTo(items[i], other) {
        return Some(items[i]);
      }
    }
    return None;
  }

  /** An agent that was attached to a request's route has an equivalent toolchain in its store. */
  lemma OfferedIsMatched(items: seq<Toolchain>, tc: Toolchain)
    requires Unambiguous(tc) && forall t | t in items :: Unambiguous(t)
    ensures Offers(items, tc) <==> exists t :: t in items && EquivalentTo(t, tc)
  {
    forall i | 0 <= i < |items|
      ensures HashBytes(items[i]) == HashBytes(tc) <==> EquivalentTo(items[i], tc)
    {
      RoutingKeyIsEquivalence(items[i], tc);
    }
  }
}
