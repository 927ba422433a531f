/** ConfigurePreprocessorOptions: unwrapping "-Wp,..." into the options it carries. */
module ArgsPreprocessor {
  import opened Common

  /** strings.Split(a, ","). */
  function Pieces(a: string): (pieces: seq<string>)
    ensures |pieces| >= 1
  {
    if a == "" then [""]
    else
      var rest := Pieces(a[1..]);
      if a[0] == ',' then [""] + rest else [[a[0]] + rest[0]] + rest[1..]
  }

  function Joined(pieces: seq<string>): string
    requires |pieces| >= 1
  {
    if |pieces| == 1 then pieces[0] else pieces[0] + "," + Joined(pieces[1..])
  }

  lemma {:induction false} JoinedHead(x: char, pieces: seq<string>)
    requires |pieces| >= 1
    ensures Joined([[x] + pieces[0]] + pieces[1..]) == [x] + Joined(pieces)
  {
    var longer := [[x] + pieces[0]] + pieces[1..];
    assert longer[1..] == pieces[1..];
  }

  lemma {:induction false} PiecesJoin(a: string)
    ensures Joined(Pieces(a)) == a
  {
    if a != "" {
      PiecesJoin(a[1..]);
      var rest := Pieces(a[1..]);
      if a[0] == ',' {
        assert ([""] + rest)[1..] == rest;
      } else {
        JoinedHead(a[0], rest);
      }
      assert a == [a[0]] + a[1..];
    }
  }

  lemma {:induction false} PiecesClean(a: string)
    ensures forall p | p in Pieces(a) :: ',' !in p
  {
    if a != "" { PiecesClean(a[1..]); }
  }

  lemma {:induction false} PiecesWhole(a: string)
    requires ',' !in a
    ensures Pieces(a) == [a]
  {
    if a != "" {
      PiecesWhole(a[1..]);
      assert a == [a[0]] + a[1..];
    }
  }

  /** The pieces are the parts between the commas: joined again they give the argument back, and
      none of them contains one. */
  lemma PiecesSplit(a: string)
    ensures Joined(Pieces(a)) == a
    ensures forall p | p in Pieces(a) :: ',' !in p
    ensures ',' !in a ==> Pieces(a) == [a]
  {
    PiecesJoin(a);
    PiecesClean(a);
    if ',' !in a { PiecesWhole(a); }
  }

  predicate WritesDependencies(p: string) { p == "-MD" || p == "-MMD" }

  predicate Names(pieces: seq<string>)
    requires |pieces| >= 1
  {
    WritesDependencies(pieces[0]) && |pieces| > 1 && pieces[1] != "" && pieces[1][0] != '-'
  }

  /** "-MF" goes between "-MD" or "-MMD" and a path that follows it. */
  function Expanded(pieces: seq<string>): seq<string> {
    if pieces == [] then []
    else if Names(pieces) then [pieces[0], "-MF"] + Expanded(pieces[1..])
    else [pieces[0]] + Expanded(pieces[1..])
  }

  /** No empty piece follows "-MD" or "-MMD": its first character would be looked at. */
  predicate Expandable(pieces: seq<string>) {
    forall i | 0 <= i < |pieces| - 1 && WritesDependencies(pieces[i]) :: pieces[i + 1] != ""
  }

  predicate IsWrapped(a: string) { "-Wp" <= a }

  function Carried(a: string): seq<string> { Expanded(Pieces(a)[1..]) }

  function Replaced(a: string): seq<string> { if IsWrapped(a) then Carried(a) else [a] }

  /** Every wrapped argument is replaced by what it carries, the others are kept. */
  function Unwrapped(s: seq<string>): seq<string> {
    if s == [] then [] else Replaced(s[0]) + Unwrapped(s[1..])
  }

  predicate AllExpandable(s: seq<string>) {
    forall a | a in s && IsWrapped(a) :: Expandable(Pieces(a)[1..])
  }

  lemma Associative(a: seq<string>, b: seq<string>, c: seq<string>)
    ensures a + (b + c) == (a + b) + c
  {
  }

  lemma {:induction false} UnwrappedAppend(s: seq<string>, t: seq<string>)
    ensures Unwrapped(s + t) == Unwrapped(s) + Unwrapped(t)
  {
    if s == [] {
      assert s + t == t;
    } else {
      UnwrappedAppend(s[1..], t);
      assert (s + t)[1..] == s[1..] + t;
      Associative(Replaced(s[0]), Unwrapped(s[1..]), Unwrapped(t));
    }
  }

  lemma {:induction false} ExpandedFrom(pieces: seq<string>)
    ensures forall e | e in Expanded(pieces) :: e in pieces || e == "-MF"
  {
    if pieces != [] { ExpandedFrom(pieces[1..]); }
  }

  lemma NoComma(a: string)
    requires ',' !in a
    ensures !("-Wp," <= a)
  {
    if |a| > 3 { assert a[3] in a; }
  }

  lemma UnwrappedNext(s: seq<string>, k: nat)
    requires k < |s|
    ensures Unwrapped(s[..k + 1]) == Unwrapped(s[..k]) + Replaced(s[k])
  {
    assert s[..k + 1] == s[..k] + [s[k]];
    UnwrappedAppend(s[..k], [s[k]]);
    assert [s[k]][1..] == [];
  }

  /** No "-Wp," option is left, so nothing hides from the scan that follows. */
  lemma {:induction false} NothingWrappedLeft(s: seq<string>)
    ensures forall a | a in Unwrapped(s) :: !("-Wp," <= a)
  {
    if s != [] {
      NothingWrappedLeft(s[1..]);
      if IsWrapped(s[0]) {
        PiecesSplit(s[0]);
        ExpandedFrom(Pieces(s[0])[1..]);
        forall a | a in Carried(s[0]) ensures !("-Wp," <= a) {
          if a != "-MF" { NoComma(a); }
        }
      }
    }
  }

  /** The prefix tested is "-Wp" without the comma: exactly the options with that prefix that have
      no comma, such as "-Wpointer-arith", carry nothing and are dropped altogether. */
  lemma OtherWpOptionsAreDropped(a: string)
    ensures Unwrapped([a]) == Replaced(a)
    ensures Replaced(a) == [] <==> IsWrapped(a) && ',' !in a
  {
    PiecesSplit(a);
    assert [a][1..] == [];
    if |Pieces(a)| == 1 { assert Pieces(a)[0] in Pieces(a); }
  }

  // ------------------------------------------------------------ by position

  /** Piece i asks for dependency output, and a path follows it. */
  predicate NeedsFile(pieces: seq<string>, i: int) {
    && 0 <= i < |pieces| - 1 && (pieces[i] == "-MD" || pieces[i] == "-MMD")
    && pieces[i + 1] != "" && pieces[i + 1][0] != '-'
  }

  /** Where piece i is after the insertions before it. */
  function Place(pieces: seq<string>, i: nat): nat {
    if i == 0 then 0 else Place(pieces, i - 1) + 1 + One(NeedsFile(pieces, i - 1))
  }

  lemma {:induction false} PlaceFromSecond(pieces: seq<string>, i: nat)
    requires pieces != [] && i > 0
    ensures Place(pieces, i) == 1 + One(NeedsFile(pieces, 0)) + Place(pieces[1..], i - 1)
  {
    if i > 1 {
      PlaceFromSecond(pieces, i - 1);
      assert NeedsFile(pieces, i - 1) == NeedsFile(pieces[1..], i - 2);
    }
  }

  lemma NamesFirst(pieces: seq<string>)
    requires pieces != []
    ensures Names(pieces) <==> NeedsFile(pieces, 0)
  {
  }

  /** The first piece, and "-MF" if it needs it, come before the expansion of the others. */
  lemma ExpandedFirst(pieces: seq<string>)
    requires pieces != []
    ensures Expanded(pieces)
         == (if NeedsFile(pieces, 0) then [pieces[0], "-MF"] else [pieces[0]]) + Expanded(pieces[1..])
  {
    NamesFirst(pieces);
  }

  lemma {:induction false} ExpandedLength(pieces: seq<string>)
    ensures Place(pieces, |pieces|) == |Expanded(pieces)|
  {
    if pieces != [] {
      ExpandedFirst(pieces);
      PlaceFromSecond(pieces, |pieces|);
      ExpandedLength(pieces[1..]);
    }
  }

  /** The list has s at position p. */
  predicate Has(list: seq<string>, p: int, s: string) { 0 <= p < |list| && list[p] == s }

  lemma HasBehind(head: seq<string>, rest: seq<string>, p: nat, s: string)
    requires Has(rest, p, s)
    ensures Has(head + rest, |head| + p, s)
  {
  }

  /** What is in the expanded list, of the length that ExpandedLength gives: each piece at its place, and
      "-MF" behind those that need it. */
  lemma {:induction false} ExpandedExactly(pieces: seq<string>, i: nat)
    requires i < |pieces|
    ensures Has(Expanded(pieces), Place(pieces, i), pieces[i])
    ensures NeedsFile(pieces, i) ==> Has(Expanded(pieces), Place(pieces, i) + 1, "-MF")
    decreases |pieces|
  {
    ExpandedFirst(pieces);
    if i > 0 {
      var head := if NeedsFile(pieces, 0) then [pieces[0], "-MF"] else [pieces[0]];
      PlaceFromSecond(pieces, i);
      ExpandedExactly(pieces[1..], i - 1);
      assert NeedsFile(pieces, i) == NeedsFile(pieces[1..], i - 1);
      HasBehind(head, Expanded(pieces[1..]), Place(pieces[1..], i - 1), pieces[i]);
      if NeedsFile(pieces, i) { HasBehind(head, Expanded(pieces[1..]), Place(pieces[1..], i - 1) + 1, "-MF"); }
    }
  }

  /** What an argument carries: what follows "-Wp,", split at its commas. */
  lemma WrappedCarries(carried: string)
    ensures Replaced("-Wp," + carried) == Expanded(Pieces(carried))
  {
    var a := "-Wp," + carried;
    PiecesFrom("-Wp", carried);
    assert a == "-Wp" + "," + carried;
    assert "-Wp" <= a;
  }

  lemma {:induction false} PiecesFrom(first: string, rest: string)
    requires ',' !in first
    ensures Pieces(first + "," + rest) == [first] + Pieces(rest)
  {
    var a := first + "," + rest;
    if first == "" {
      assert a[1..] == rest;
    } else {
      assert a[1..] == first[1..] + "," + rest && a[0] == first[0];
      PiecesFrom(first[1..], rest);
      assert [first[0]] + first[1..] == first;
    }
  }

  /** Everything else is left alone. */
  lemma OthersStay(a: string)
    requires |a| < 3 || a[0] != '-' || a[1] != 'W' || a[2] != 'p'
    ensures Replaced(a) == [a]
  {
    assert "-Wp"[0] == '-' && "-Wp"[1] == 'W' && "-Wp"[2] == 'p';
  }

  /** A turn of the loop that inserts nothing, and one that inserts "-MF" after piece ii. */
  lemma Moved(split: seq<string>, ii: nat)
    requires ii < |split| && Expandable(split[ii..])
    ensures Expandable(split[ii + 1..])
    ensures !Names(split[ii..]) ==>
              split[..ii + 1] + Expanded(split[ii + 1..]) == split[..ii] + Expanded(split[ii..])
    ensures Names(split[ii..]) ==>
              split[..ii + 1] + ["-MF"] + Expanded(split[ii + 1..]) == split[..ii] + Expanded(split[ii..])
  {
    var rest := split[ii..];
    assert rest[1..] == split[ii + 1..];
    assert forall i | 0 <= i < |rest| - 1 :: rest[1..][i] == rest[i + 1];
    assert split[..ii + 1] == split[..ii] + [rest[0]];
  }

  /** The loop over the pieces of one argument, inserting "-MF" into the slice it walks. */
  method InsertDependencyFiles(pieces: seq<string>) returns (split: seq<string>)
    requires Expandable(pieces)
    ensures split == Expanded(pieces)
  {
    split := pieces;
    var ii := 0;
    while ii < |split|
      invariant ii <= |split|
      invariant split[..ii] + Expanded(split[ii..]) == Expanded(pieces)
      invariant Expandable(split[ii..])
      decreases |split| - ii
    {
      Moved(split, ii);
      if WritesDependencies(split[ii]) {
        if ii == |split| - 1 || split[ii + 1][0] == '-' {
        } else {
          ghost var walked := split;
          split := split[..ii + 1] + split[ii..];
          split := split[ii + 1 := "-MF"];
          assert split[ii + 2..] == walked[ii + 1..];
          assert split[..ii + 2] == walked[..ii + 1] + ["-MF"];
          ii := ii + 1;
        }
      }
      ii := ii + 1;
    }
  }
}
