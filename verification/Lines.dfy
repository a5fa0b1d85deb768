/** Lines of a byte buffer, in the two views the patch uses: pieces that keep their newline, and offsets. */
module Lines {
  import opened Wrappers

  // Length of the first line, its newline included.
  function FirstLine(c: string): (n: nat)
    ensures n <= |c|
    ensures c != "" ==> n > 0
  {
    if c == "" then 0 else if c[0] == '\n' then 1 else 1 + FirstLine(c[1..])
  }

  predicate EndsLine(c: string) {
    c != "" && c[|c| - 1] == '\n'
  }

  // bytes.SplitAfter(c, "\n"): every piece keeps its newline, and what follows the last newline is
  // a piece of its own, even when it is empty.
  function SplitAfter(c: string): (pieces: seq<string>)
    ensures |pieces| > 0
  {
    var n := FirstLine(c);
    if EndsLine(c[..n]) then [c[..n]] + SplitAfter(c[n..]) else [c]
  }

  function Join(pieces: seq<string>): string {
    if pieces == [] then "" else pieces[0] + Join(pieces[1..])
  }

  // Offset at which line n starts, counting from 0; None past the last line.
  function LineStart(c: string, n: nat): (o: Option<nat>)
    ensures o.Some? ==> o.value <= |c|
  {
    if n == 0 then Some(0)
    else
      var k := FirstLine(c);
      if !EndsLine(c[..k]) then None
      else match LineStart(c[k..], n - 1)
        case None => None
        case Some(o) => Some(k + o)
  }

  lemma {:induction false} JoinOfSplit(c: string)
    ensures Join(SplitAfter(c)) == c
  {
    var n := FirstLine(c);
    if EndsLine(c[..n]) {
      JoinOfSplit(c[n..]);
      assert SplitAfter(c)[1..] == SplitAfter(c[n..]);
      assert c == c[..n] + c[n..];
    } else {
      assert [c][1..] == [];
    }
  }

  lemma {:induction false} JoinAppend(a: seq<string>, b: seq<string>)
    ensures Join(a + b) == Join(a) + Join(b)
  {
    if a == [] {
      assert a + b == b;
    } else {
      assert Join(a + b) == a[0] + Join(a[1..] + b) by {
        assert a + b == [a[0]] + (a[1..] + b);
        JoinFirst(a[0], a[1..] + b);
      }
      JoinAppend(a[1..], b);
    }
  }

  lemma {:induction false} PieceCount(c: string, n: nat)
    ensures LineStart(c, n).Some? <==> n < |SplitAfter(c)|
  {
    var k := FirstLine(c);
    if n > 0 && EndsLine(c[..k]) { PieceCount(c[k..], n - 1); }
  }

  lemma {:induction false} PrefixOfRest(c: string, k: nat, o: nat)
    requires k + o <= |c|
    ensures c[..k] + c[k..][..o] == c[..k + o]
  {
  }

  lemma {:induction false} JoinFirst(first: string, rest: seq<string>)
    ensures Join([first] + rest) == first + Join(rest)
  {
    assert ([first] + rest)[1..] == rest;
  }

  lemma {:induction false} PiecesBefore(c: string, n: nat)
    requires n < |SplitAfter(c)|
    ensures LineStart(c, n).Some? && Join(SplitAfter(c)[..n]) == c[..LineStart(c, n).value]
  {
    var k := FirstLine(c);
    if n > 0 {
      PiecesBefore(c[k..], n - 1);
      var o, rest := LineStart(c[k..], n - 1).value, SplitAfter(c[k..]);
      assert SplitAfter(c)[..n] == [c[..k]] + rest[..n - 1];
      JoinFirst(c[..k], rest[..n - 1]);
      PrefixOfRest(c, k, o);
    }
  }

  lemma {:induction false} PieceText(c: string, n: nat)
    requires n < |SplitAfter(c)| && LineStart(c, n).Some?
    ensures var o := LineStart(c, n).value; SplitAfter(c)[n] == c[o..][..FirstLine(c[o..])]
  {
    var k := FirstLine(c);
    if n == 0 {
      UnendedFirstLine(c);
      assert c[0..] == c;
    } else {
      PieceText(c[k..], n - 1);
      var o := LineStart(c[k..], n - 1).value;
      assert c[k..][o..] == c[k + o..];
    }
  }

  // The pieces and the offsets describe the same lines.
  lemma {:induction false} PieceAt(c: string, n: nat)
    ensures LineStart(c, n).Some? <==> n < |SplitAfter(c)|
    ensures n < |SplitAfter(c)| ==>
      var o := LineStart(c, n).value;
      Join(SplitAfter(c)[..n]) == c[..o] && SplitAfter(c)[n] == c[o..][..FirstLine(c[o..])]
  {
    PieceCount(c, n);
    if n < |SplitAfter(c)| {
      PiecesBefore(c, n);
      PieceText(c, n);
    }
  }

  lemma {:induction false} UnendedFirstLine(c: string)
    ensures !EndsLine(c[..FirstLine(c)]) ==> FirstLine(c) == |c|
  {
    if c != "" && c[0] != '\n' {
      UnendedFirstLine(c[1..]);
      var n := FirstLine(c[1..]);
      assert c[..1 + n] == [c[0]] + c[1..][..n];
      assert c[1..] != "" ==> c[..1 + n][n] == c[1..][..n][n - 1];
    }
  }

  predicate NoNewline(s: string) { '\n' !in s }

  // A line's text can be replaced by any text with the same line ending.
  lemma {:induction false} FirstLineOf(text: string, rest: string)
    requires NoNewline(text)
    ensures FirstLine(text + rest) == |text| + FirstLine(rest)
  {
    if text == "" {
      assert text + rest == rest;
    } else {
      FirstLineOf(text[1..], rest);
      assert (text + rest)[1..] == text[1..] + rest;
      assert text[0] in text;
    }
  }

  // A piece that ends in its only newline.
  predicate FullLine(p: string) {
    EndsLine(p) && NoNewline(p[..|p| - 1])
  }

  // The shape SplitAfter gives.
  predicate WellSplit(pieces: seq<string>) {
    && pieces != []
    && NoNewline(pieces[|pieces| - 1])
    && forall i :: 0 <= i < |pieces| - 1 ==> FullLine(pieces[i])
  }

  lemma {:induction false} FullLineFirst(p: string, rest: string)
    requires FullLine(p)
    ensures FirstLine(p + rest) == |p|
  {
    FirstLineOf(p[..|p| - 1], "\n" + rest);
    assert p + rest == p[..|p| - 1] + ("\n" + rest);
  }

  lemma {:induction false} FirstLineNoNewline(c: string)
    ensures var n := FirstLine(c); if EndsLine(c[..n]) then FullLine(c[..n]) else NoNewline(c)
  {
    var n := FirstLine(c);
    if c != "" && c[0] != '\n' {
      FirstLineNoNewline(c[1..]);
      assert c[..n] == [c[0]] + c[1..][..n - 1];
      assert c == [c[0]] + c[1..];
      if EndsLine(c[..n]) {
        assert c[..n][..n - 1] == [c[0]] + c[1..][..n - 1][..n - 2];
      } else {
        assert n > 1 ==> c[..n][n - 1] == c[1..][..n - 1][n - 2];
      }
    }
  }

  lemma {:induction false} SplitIsWell(c: string)
    ensures WellSplit(SplitAfter(c))
  {
    var n := FirstLine(c);
    FirstLineNoNewline(c);
    if EndsLine(c[..n]) {
      SplitIsWell(c[n..]);
    }
  }

  lemma {:induction false} NoNewlineFirst(c: string)
    requires NoNewline(c)
    ensures FirstLine(c) == |c| && !EndsLine(c)
  {
    FirstLineOf(c, "");
    assert c + "" == c;
    assert c != "" ==> c[|c| - 1] in c;
  }

  // Splitting undoes joining well-shaped pieces.
  lemma {:induction false} SplitOfJoin(pieces: seq<string>)
    requires WellSplit(pieces)
    ensures SplitAfter(Join(pieces)) == pieces
  {
    var rest := pieces[1..];
    if rest == [] {
      NoNewlineFirst(pieces[0]);
      assert Join(rest) == "" && pieces[0] + "" == pieces[0];
      assert pieces[0][..|pieces[0]|] == pieces[0];
    } else {
      FullLineFirst(pieces[0], Join(rest));
      SplitOfJoin(rest);
      var c := Join(pieces);
      assert c[..|pieces[0]|] == pieces[0] && c[|pieces[0]|..] == Join(rest);
    }
  }
}
