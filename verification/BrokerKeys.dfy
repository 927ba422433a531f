/** What the key of the compile cache tells apart (pkg/types/functions.go). */
module BrokerKeys {
  import opened Common
  import opened Toolchains
  import opened Broker

  function ToolchainBytes(req: CompileRequest): string {
    match req.toolchain
    case None => ""
    case Some(tc) => HashBytes(tc)
  }

  /** Arguments are written one after another, without anything in between. */
  lemma {:induction false} ConcatAppend(a: seq<string>, b: seq<string>)
    ensures Concat(a + b) == Concat(a) + Concat(b)
  {
    if a == [] {
      assert a + b == b;
    } else {
      assert (a + b)[1..] == a[1..] + b;
      ConcatAppend(a[1..], b);
      assert a[0] + (Concat(a[1..]) + Concat(b)) == (a[0] + Concat(a[1..])) + Concat(b);
    }
  }

  lemma ConcatOne(a: string)
    ensures Concat([a]) == a
  {
    assert [a][1..] == [];
  }

  /** The key is the toolchain's bytes, then the source, then the arguments. */
  lemma KeyIs(req: CompileRequest)
    ensures RequestHash(req) == ToolchainBytes(req) + (req.source + Concat(req.args))
  {
  }

  /** For toolchains and sources whose bytes are equally long, two requests have one key exactly when
      toolchain bytes, sources and the arguments run together are equal. */
  lemma SameKeyExactly(a: CompileRequest, b: CompileRequest)
    requires |ToolchainBytes(a)| == |ToolchainBytes(b)| && |a.source| == |b.source|
    ensures RequestHash(a) == RequestHash(b) <==>
              ToolchainBytes(a) == ToolchainBytes(b) && a.source == b.source && Concat(a.args) == Concat(b.args)
  {
    KeyIs(a);
    KeyIs(b);
    if RequestHash(a) == RequestHash(b) {
      SplitAlike(ToolchainBytes(a), a.source + Concat(a.args), ToolchainBytes(b), b.source + Concat(b.args));
      SplitAlike(a.source, Concat(a.args), b.source, Concat(b.args));
    }
  }

  ghost predicate SameText(a: CompileRequest, b: CompileRequest) {
    && ToolchainBytes(a) + (a.source + Concat(a.args)) == ToolchainBytes(b) + (b.source + Concat(b.args))
    && (|ToolchainBytes(a)| == |ToolchainBytes(b)| && |a.source| == |b.source| ==>
          ToolchainBytes(a) == ToolchainBytes(b) && a.source == b.source && Concat(a.args) == Concat(b.args))
  }

  lemma SameKeySameText(a: CompileRequest, b: CompileRequest)
    requires RequestHash(a) == RequestHash(b)
    ensures SameText(a, b)
  {
    KeyIs(a);
    KeyIs(b);
    if |ToolchainBytes(a)| == |ToolchainBytes(b)| && |a.source| == |b.source| { SameKeyExactly(a, b); }
  }

  lemma ArgumentApart(pre: seq<string>, x: string, y: string, post: seq<string>)
    requires |x| == |y| && Concat(pre + [x] + post) == Concat(pre + [y] + post)
    ensures x == y
  {
    ConcatAppend(pre + [x], post);
    ConcatAppend(pre + [y], post);
    ConcatAppend(pre, [x]);
    ConcatAppend(pre, [y]);
    ConcatOne(x);
    ConcatOne(y);
    var rest := Concat(post);
    assert (Concat(pre) + x) + rest == Concat(pre) + (x + rest) && (Concat(pre) + y) + rest == Concat(pre) + (y + rest);
    SplitAlike(Concat(pre), x + rest, Concat(pre), y + rest);
    SplitAlike(x, rest, y, rest);
  }

  /** Requests that differ in one argument, of the same length, have different keys. */
  lemma OneArgumentTellsApart(req: CompileRequest, pre: seq<string>, x: string, y: string, post: seq<string>)
    requires |x| == |y| && x != y
    ensures RequestHash(req.(args := pre + [x] + post)) != RequestHash(req.(args := pre + [y] + post))
  {
    var a, b := req.(args := pre + [x] + post), req.(args := pre + [y] + post);
    SameKeyExactly(a, b);
    if Concat(a.args) == Concat(b.args) { ArgumentApart(pre, x, y, post); }
  }

  /** Without separators the arguments can be divided differently. */
  lemma DividedAlike(req: CompileRequest, x: string, y: string)
    ensures RequestHash(req.(args := [x, y])) == RequestHash(req.(args := [x + y]))
  {
    assert [x, y] == [x] + [y];
    ConcatAppend([x], [y]);
    ConcatOne(x);
    ConcatOne(y);
    ConcatOne(x + y);
    KeyIs(req.(args := [x, y]));
    KeyIs(req.(args := [x + y]));
  }
}
