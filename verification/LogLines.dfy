/** Cutting a stream of arbitrary chunks into lines. */
module LogLines {
  import opened Text

  predicate OneLine(s: string) {
    '\n' !in s
  }

  /** The lines `ls`, each closed by a newline. */
  function Unlines(ls: seq<string>): string {
    if ls == [] then [] else ls[0] + "\n" + Unlines(ls[1..])
  }

  /** `s.split("\n", 1)[0]` when there is a newline. */
  function FirstLine(s: string): (l: string)
    requires '\n' in s
    ensures |l| < |s| && l <= s && s[|l|] == '\n' && OneLine(l)
  {
    if s[0] == '\n' then [] else [s[0]] + FirstLine(s[1..])
  }

  /** The closed lines of `s`. */
  function CompleteLines(s: string): (ls: seq<string>)
    ensures forall i :: 0 <= i < |ls| ==> OneLine(ls[i])
    decreases |s|
  {
    if '\n' !in s then [] else [FirstLine(s)] + CompleteLines(s[|FirstLine(s)| + 1..])
  }

  /** What follows the last newline of `s`. */
  function Remainder(s: string): (r: string)
    ensures OneLine(r)
    decreases |s|
  {
    if '\n' !in s then s else Remainder(s[|FirstLine(s)| + 1..])
  }

  lemma {:induction false} UnlinesConcat(a: seq<string>, b: seq<string>)
    ensures Unlines(a + b) == Unlines(a) + Unlines(b)
  {
    if a == [] {
      assert a + b == b;
    } else {
      assert (a + b)[1..] == a[1..] + b && (a + b)[0] == a[0];
      UnlinesConcat(a[1..], b);
    }
  }

  /** Cutting loses nothing. */
  lemma {:induction false} CutIsExact(s: string)
    ensures s == Unlines(CompleteLines(s)) + Remainder(s)
    decreases |s|
  {
    if '\n' in s {
      var l := FirstLine(s);
      var rest := s[|l| + 1..];
      assert s == l + "\n" + rest;
      CutIsExact(rest);
      var ls := CompleteLines(s);
      assert ls[0] == l && ls[1..] == CompleteLines(rest);
    }
  }

  lemma FirstLineOf(l: string, rest: string)
    requires OneLine(l)
    ensures '\n' in l + "\n" + rest && FirstLine(l + "\n" + rest) == l
  {
    assert (l + "\n" + rest)[|l|] == '\n';
  }

  /** Cutting closed lines and an open one gives them back. */
  lemma {:induction false} CutOfUnlines(ls: seq<string>, tail: string)
    requires forall i :: 0 <= i < |ls| ==> OneLine(ls[i])
    requires OneLine(tail)
    ensures CompleteLines(Unlines(ls) + tail) == ls && Remainder(Unlines(ls) + tail) == tail
  {
    var s := Unlines(ls) + tail;
    if ls == [] {
      assert s == tail;
    } else {
      var rest := Unlines(ls[1..]) + tail;
      assert s == ls[0] + "\n" + rest;
      FirstLineOf(ls[0], rest);
      assert s[|ls[0]| + 1..] == rest;
      CutOfUnlines(ls[1..], tail);
    }
  }

  /** Where the stream is chunked makes no difference. */
  lemma CutInTwo(a: string, b: string)
    ensures CompleteLines(a + b) == CompleteLines(a) + CompleteLines(Remainder(a) + b)
    ensures Remainder(a + b) == Remainder(Remainder(a) + b)
  {
    hide CompleteLines, Remainder, Unlines;
    var mid := Remainder(a) + b;
    var u, v, t := CompleteLines(a), CompleteLines(mid), Remainder(mid);
    CutIsExact(a);
    CutIsExact(mid);
    UnlinesConcat(u, v);
    assert a + b == Unlines(u) + Remainder(a) + b;
    assert Unlines(u) + Remainder(a) + b == Unlines(u) + mid;
    assert Unlines(u) + (Unlines(v) + t) == Unlines(u + v) + t;
    CutOfUnlines(u + v, t);
  }

  function Concat(chunks: seq<string>): string {
    if chunks == [] then [] else Concat(chunks[..|chunks| - 1]) + chunks[|chunks| - 1]
  }

  lemma ConcatAppend(chunks: seq<string>, i: nat)
    requires i < |chunks|
    ensures Concat(chunks[..i + 1]) == Concat(chunks[..i]) + chunks[i]
  {
    assert chunks[..i + 1][..i] == chunks[..i];
  }

  function NonEmpty(ls: seq<string>): (r: seq<string>)
    ensures forall l :: l in r <==> l in ls && l != []
  {
    if ls == [] then [] else NonEmpty(ls[..|ls| - 1]) + (if ls[|ls| - 1] == [] then [] else [ls[|ls| - 1]])
  }

  lemma {:induction false} NonEmptyConcat(a: seq<string>, b: seq<string>)
    ensures NonEmpty(a + b) == NonEmpty(a) + NonEmpty(b)
  {
    if b == [] {
      assert a + b == a;
    } else {
      var n := |b| - 1;
      assert (a + b)[..|a + b| - 1] == a + b[..n] && (a + b)[|a + b| - 1] == b[n];
      NonEmptyConcat(a, b[..n]);
    }
  }

  /** Taking the first line off the buffer. */
  lemma CutOne(s: string)
    requires '\n' in s
    ensures CompleteLines(s) == [FirstLine(s)] + CompleteLines(s[|FirstLine(s)| + 1..])
    ensures Remainder(s) == Remainder(s[|FirstLine(s)| + 1..])
  {
    hide FirstLine;
  }

  lemma NonEmptyAppend(ls: seq<string>, l: string)
    ensures NonEmpty(ls + [l]) == if l == [] then NonEmpty(ls) else NonEmpty(ls) + [l]
  {
    assert (ls + [l])[..|ls|] == ls;
  }

  lemma NonEmptySingle(l: string)
    ensures NonEmpty([l]) == if l == [] then [] else [l]
  {
    assert [l][..0] == [];
  }

  lemma RegroupLines(a: seq<string>, l: string, b: seq<string>)
    ensures a + ([l] + b) == (a + [l]) + b
  {
  }

  /** The inner loop: takes the closed lines off the buffer and keeps the non-empty ones. */
  method TakeLines(buffer: string) returns (lines: seq<string>, buf: string)
    ensures lines == NonEmpty(CompleteLines(buffer)) && buf == Remainder(buffer)
  {
    buf, lines := buffer, [];
    ghost var done: seq<string> := [];
    while '\n' in buf
      invariant CompleteLines(buffer) == done + CompleteLines(buf)
      invariant lines == NonEmpty(done)
      invariant Remainder(buf) == Remainder(buffer)
      decreases |buf|
    {
      hide *;
      var line := FirstLine(buf);
      CutOne(buf);
      NonEmptyAppend(done, line);
      RegroupLines(done, line, CompleteLines(buf[|line| + 1..]));
      buf := buf[|line| + 1..];
      if line != [] {
        lines := lines + [line];
      }
      done := done + [line];
    }
    assert CompleteLines(buf) == [] && done + [] == done;
  }

  /** `DockerRuntime.run`: every non-empty line of the container's output, whatever the chunks, and the stripped rest. */
  method DockerLines(chunks: seq<string>) returns (lines: seq<string>)
    ensures var whole := Concat(chunks);
            lines == NonEmpty(CompleteLines(whole)) + NonEmpty([Strip(Remainder(whole))])
  {
    var buf := "";
    lines := [];
    assert CompleteLines(Concat(chunks[..0])) == [] && Remainder(Concat(chunks[..0])) == "";
    hide *;
    for i := 0 to |chunks|
      invariant lines == NonEmpty(CompleteLines(Concat(chunks[..i])))
      invariant buf == Remainder(Concat(chunks[..i]))
    {
      ghost var before := Concat(chunks[..i]);
      ConcatAppend(chunks, i);
      CutInTwo(before, chunks[i]);
      NonEmptyConcat(CompleteLines(before), CompleteLines(buf + chunks[i]));
      var more, rest := TakeLines(buf + chunks[i]);
      lines, buf := lines + more, rest;
    }
    assert chunks[..|chunks|] == chunks;
    var rest := Strip(buf);
    NonEmptySingle(rest);
    if rest != [] {
      lines := lines + [rest];
    }
  }
}
