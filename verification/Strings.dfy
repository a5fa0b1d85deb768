/** Lower case, byte-wise string order, sorting by it, and comparison of two lists as bags. */
module Strings {
  function LowerChar(ch: char): char { if 'A' <= ch <= 'Z' then ch + 32 as char else ch }

  function Lower(text: string): (r: string)
    ensures |r| == |text| && forall i :: 0 <= i < |text| ==> r[i] == LowerChar(text[i])
  {
    seq(|text|, i requires 0 <= i < |text| => LowerChar(text[i]))
  }

  predicate Leq(a: string, b: string) {
    a == "" || (b != "" && (a[0] < b[0] || (a[0] == b[0] && Leq(a[1..], b[1..]))))
  }

  // Lower case changes the 26 letters and nothing else.
  lemma {:induction false} LowerIs(ch: char)
    ensures LowerChar(ch) ==
      if 'A' <= ch <= 'Z' then "abcdefghijklmnopqrstuvwxyz"[ch as int - 'A' as int] else ch
  {
  }

  // The first bytes in which the texts differ are the k-th.
  predicate Below(a: string, b: string, k: nat) {
    k < |a| && k < |b| && a[..k] == b[..k] && a[k] < b[k]
  }

  lemma {:induction false} BelowInTails(a: string, b: string, k: nat)
    requires a != "" && b != "" && a[0] == b[0]
    ensures Below(a, b, k + 1) <==> Below(a[1..], b[1..], k)
  {
    if k + 1 < |a| && k + 1 < |b| {
      assert a[..k + 1] == [a[0]] + a[1..][..k] && b[..k + 1] == [a[0]] + b[1..][..k];
      assert a[1..][..k] == a[..k + 1][1..] && b[1..][..k] == b[..k + 1][1..];
    }
  }

  lemma {:induction false} BelowAtHead(a: string, b: string, k: nat)
    requires a != "" && b != "" && a[0] != b[0]
    ensures Below(a, b, k) <==> k == 0 && a[0] < b[0]
  {
    if k == 0 { assert a[..0] == b[..0]; }
    if k > 0 && k < |a| && k < |b| { assert a[..k][0] != b[..k][0]; }
  }

  // The order is that of the first bytes in which the texts differ; a prefix comes first.
  lemma {:induction false} LeqIff(a: string, b: string)
    ensures Leq(a, b) <==> a <= b || exists k: nat :: Below(a, b, k)
  {
    if a != "" && b != "" {
      if a[0] == b[0] {
        LeqIff(a[1..], b[1..]);
        assert a <= b <==> a[1..] <= b[1..] by { assert a == [a[0]] + a[1..] && b == [a[0]] + b[1..]; }
        forall k: nat ensures Below(a, b, k + 1) <==> Below(a[1..], b[1..], k) { BelowInTails(a, b, k); }
        assert !Below(a, b, 0);
        forall k: nat | Below(a, b, k) ensures Below(a[1..], b[1..], k - 1) { BelowInTails(a, b, k - 1); }
      } else {
        forall k: nat ensures Below(a, b, k) <==> k == 0 && a[0] < b[0] { BelowAtHead(a, b, k); }
        assert Below(a, b, 0) <==> a[0] < b[0];
      }
    }
  }

  lemma {:induction false} LeqTotal(a: string, b: string)
    ensures Leq(a, b) || Leq(b, a)
    ensures Leq(a, b) && Leq(b, a) ==> a == b
  {
    if a != "" && b != "" && a[0] == b[0] {
      LeqTotal(a[1..], b[1..]);
      assert a == [a[0]] + a[1..] && b == [b[0]] + b[1..];
    }
  }

  lemma {:induction false} LeqTransitive(a: string, b: string, c: string)
    requires Leq(a, b) && Leq(b, c)
    ensures Leq(a, c)
  {
    if a != "" && a[0] == b[0] == c[0] { LeqTransitive(a[1..], b[1..], c[1..]); }
  }

  ghost predicate Sorted(s: seq<string>) {
    forall i, j :: 0 <= i < j < |s| ==> Leq(s[i], s[j])
  }

  lemma {:induction false} HeadIsLeast(a: seq<string>, x: string)
    requires Sorted(a) && x in a
    ensures Leq(a[0], x)
  {
    var i :| 0 <= i < |a| && a[i] == x;
    LeqTotal(x, x);
    assert i == 0 || Leq(a[0], a[i]);
  }

  lemma TailBag(a: seq<string>)
    requires a != []
    ensures multiset(a[1..]) == multiset(a) - multiset{a[0]}
  {
    assert a == [a[0]] + a[1..];
  }

  lemma {:induction false} SortedBagsEqual(a: seq<string>, b: seq<string>)
    requires Sorted(a) && Sorted(b) && multiset(a) == multiset(b)
    ensures a == b
  {
    assert |a| == |multiset(a)| == |multiset(b)| == |b|;
    if a != [] {
      assert a[0] in multiset(a) && b[0] in multiset(b);
      HeadIsLeast(a, b[0]);
      HeadIsLeast(b, a[0]);
      LeqTotal(a[0], b[0]);
      TailBag(a);
      TailBag(b);
      SortedBagsEqual(a[1..], b[1..]);
      assert a == [a[0]] + a[1..] && b == [b[0]] + b[1..];
    }
  }

  method PlaceFor(r: seq<string>, x: string) returns (k: nat)
    ensures k <= |r| && (forall j :: 0 <= j < k ==> Leq(r[j], x)) && (k < |r| ==> !Leq(r[k], x))
  {
    k := 0;
    while k < |r| && Leq(r[k], x)
      invariant 0 <= k <= |r|
      invariant forall j :: 0 <= j < k ==> Leq(r[j], x)
    {
      k := k + 1;
    }
  }

  lemma {:induction false} InsertionAddsOne(r: seq<string>, x: string, k: nat)
    requires k <= |r|
    ensures multiset(r[..k] + [x] + r[k..]) == multiset(r) + multiset{x}
  {
    assert r == r[..k] + r[k..];
  }

  // sort.Strings, by insertion.
  method SortStrings(s: seq<string>) returns (r: seq<string>)
    ensures Sorted(r) && multiset(r) == multiset(s)
  {
    r := [];
    for i := 0 to |s|
      invariant Sorted(r) && multiset(r) == multiset(s[..i])
    {
      var k := PlaceFor(r, s[i]);
      InsertionKeepsSorted(r, s[i], k);
      InsertionAddsOne(r, s[i], k);
      r := r[..k] + [s[i]] + r[k..];
      assert s[..i + 1] == s[..i] + [s[i]];
    }
    assert s[..|s|] == s;
  }

  lemma {:induction false} InsertionKeepsSorted(r: seq<string>, x: string, k: nat)
    requires Sorted(r) && k <= |r| && (forall j :: 0 <= j < k ==> Leq(r[j], x)) && (k < |r| ==> !Leq(r[k], x))
    ensures Sorted(r[..k] + [x] + r[k..])
  {
    forall j | k <= j < |r| ensures Leq(x, r[j]) {
      LeqTotal(x, r[k]);
      if k < j { LeqTransitive(x, r[k], r[j]); }
    }
  }

  // Sort both copies and compare: true exactly for permutations of each other.
  method SameIDs(left: seq<string>, right: seq<string>) returns (same: bool)
    ensures same <==> multiset(left) == multiset(right)
  {
    assert |left| == |multiset(left)| && |right| == |multiset(right)|;
    if |left| != |right| { return false; }
    var a := SortStrings(left);
    var b := SortStrings(right);
    assert |a| == |multiset(a)| && |b| == |multiset(b)|;
    for i := 0 to |a|
      invariant a[..i] == b[..i]
    {
      if a[i] != b[i] {
        if multiset(left) == multiset(right) { SortedBagsEqual(a, b); }
        return false;
      }
    }
    assert a == a[..|a|] == b[..|b|] == b;
    return true;
  }
}
