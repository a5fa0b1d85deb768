/**
  One investigation under several spellings of its ID.  UUID parsing and the database's cast both
  accept 32 digits, the dashed form and the dashed form in braces, in either case of the letters; the
  head branch is made from the text as it was sent.
*/
module Spelling {
  import opened Strings
  import opened Client
  import opened EndToEnd

  datatype Form = Digits | Dashed | Braced

  predicate HexDigits(d: string) {
    |d| == 32 && forall i :: 0 <= i < |d| ==> '0' <= d[i] <= '9' || 'a' <= d[i] <= 'f' || 'A' <= d[i] <= 'F'
  }

  function Dash(d: string): string
    requires HexDigits(d)
  {
    d[..8] + ("-" + (d[8..12] + ("-" + (d[12..16] + ("-" + (d[16..20] + ("-" + d[20..])))))))
  }

  function Spell(d: string, form: Form): string
    requires HexDigits(d)
  {
    match form
    case Digits => d
    case Dashed => Dash(d)
    case Braced => "{" + (Dash(d) + "}")
  }

  // Two spellings of one UUID.
  predicate SameUUID(d: string, d': string) { Lower(d) == Lower(d') }

  lemma {:induction false} CompactStep(ch: char, rest: string)
    ensures Compact([ch] + rest) == (if ch == '-' then "" else [LowerChar(ch)]) + Compact(rest)
  {
    assert ([ch] + rest)[1..] == rest;
  }

  lemma {:induction false} CompactAppend(a: string, b: string)
    ensures Compact(a + b) == Compact(a) + Compact(b)
  {
    if a == "" {
      assert a + b == b;
    } else {
      var c, rest := a[0], a[1..];
      assert a == [c] + rest && a + b == [c] + (rest + b);
      assert Compact(a) == Compact([c] + rest) && Compact(a + b) == Compact([c] + (rest + b));
      CompactStep(c, rest + b);
      CompactStep(c, rest);
      CompactAppend(rest, b);
    }
  }

  lemma {:induction false} CompactOfHex(text: string)
    requires '-' !in text
    ensures Compact(text) == Lower(text)
  {
    if text != "" {
      assert text[0] in text;
      CompactOfHex(text[1..]);
      assert Lower(text) == [LowerChar(text[0])] + Lower(text[1..]);
    }
  }

  lemma {:induction false} LowerAppend(a: string, b: string)
    ensures Lower(a + b) == Lower(a) + Lower(b)
  {
    var left, right := Lower(a + b), Lower(a) + Lower(b);
    forall i | 0 <= i < |left| ensures left[i] == right[i] {
      assert i < |a| ==> (a + b)[i] == a[i];
      assert i >= |a| ==> (a + b)[i] == b[i - |a|];
    }
  }

  // A dash between two texts is dropped.
  lemma {:induction false} CompactOverDash(a: string, rest: string)
    requires '-' !in a
    ensures Compact(a + ("-" + rest)) == Lower(a) + Compact(rest)
  {
    CompactAppend(a, "-" + rest);
    CompactAppend("-", rest);
    assert "-"[1..] == "";
    CompactOfHex(a);
  }

  lemma {:induction false} CompactOfDashed(a: string, b: string, c: string, e: string, f: string)
    requires '-' !in a && '-' !in b && '-' !in c && '-' !in e && '-' !in f
    ensures Compact(a + ("-" + (b + ("-" + (c + ("-" + (e + ("-" + f))))))))
      == Lower(a) + (Lower(b) + (Lower(c) + (Lower(e) + Lower(f))))
  {
    CompactOfHex(f);
    CompactOverDash(e, f);
    CompactOverDash(c, e + ("-" + f));
    CompactOverDash(b, c + ("-" + (e + ("-" + f))));
    CompactOverDash(a, b + ("-" + (c + ("-" + (e + ("-" + f))))));
  }

  lemma {:induction false} LowerOfParts(a: string, b: string, c: string, e: string, f: string)
    ensures Lower(a + (b + (c + (e + f)))) == Lower(a) + (Lower(b) + (Lower(c) + (Lower(e) + Lower(f))))
  {
    LowerAppend(e, f);
    LowerAppend(c, e + f);
    LowerAppend(b, c + (e + f));
    LowerAppend(a, b + (c + (e + f)));
  }

  lemma {:induction false} NoDashIn(d: string, i: nat, j: nat)
    requires HexDigits(d) && i <= j <= |d|
    ensures '-' !in d[i..j]
  {
    assert forall k :: i <= k < j ==> d[i..j][k - i] == d[k];
  }

  lemma {:induction false} CompactOfDash(d: string)
    requires HexDigits(d)
    ensures Compact(Dash(d)) == Lower(d)
  {
    NoDashIn(d, 0, 8);
    NoDashIn(d, 8, 12);
    NoDashIn(d, 12, 16);
    NoDashIn(d, 16, 20);
    NoDashIn(d, 20, 32);
    assert d[0..8] == d[..8] && d[20..32] == d[20..];
    CompactOfDashed(d[..8], d[8..12], d[12..16], d[16..20], d[20..]);
    LowerOfParts(d[..8], d[8..12], d[12..16], d[16..20], d[20..]);
    assert d == d[..8] + (d[8..12] + (d[12..16] + (d[16..20] + d[20..])));
  }

  lemma {:induction false} CompactOfSpelling(d: string, form: Form)
    requires HexDigits(d)
    ensures Compact(Spell(d, form)) == if form.Braced? then "{" + (Lower(d) + "}") else Lower(d)
  {
    CompactOfDash(d);
    if form.Braced? {
      CompactAppend("{", Dash(d) + "}");
      CompactAppend(Dash(d), "}");
      assert "{"[1..] == "" && "}"[1..] == "";
      assert Compact("{") == "{" && Compact("}") == "}";
    } else if form.Digits? {
      NoDashIn(d, 0, 32);
      assert d[0..32] == d;
      CompactOfHex(d);
    }
  }

  const PREFIX := "incidentpilot-oom-"

  // What the branch name takes from an ID.
  function Stem(d: string, form: Form): string
    requires HexDigits(d)
  {
    if form.Braced? then "{" + Lower(d)[..11] else Lower(d)[..12]
  }

  lemma {:induction false} BranchOfSpelling(d: string, form: Form)
    requires HexDigits(d)
    ensures RemediationBranch(Spell(d, form)) == PREFIX + Stem(d, form)
  {
    CompactOfSpelling(d, form);
    var compact := Compact(Spell(d, form));
    if form.Braced? {
      assert compact[..12] == "{" + Lower(d)[..11];
    }
  }

  lemma {:induction false} StemsAgreeIff(d: string, form: Form, d': string, form': Form)
    requires HexDigits(d) && HexDigits(d')
    ensures Stem(d, form) == Stem(d', form') <==>
      && (form.Braced? <==> form'.Braced?)
      && (if form.Braced? then Lower(d)[..11] == Lower(d')[..11] else Lower(d)[..12] == Lower(d')[..12])
  {
    var stem, stem' := Stem(d, form), Stem(d', form');
    if form.Braced? && form'.Braced? {
      assert stem[1..] == Lower(d)[..11] && stem'[1..] == Lower(d')[..11];
    } else if form.Braced? != form'.Braced? {
      assert Lower(d)[0] != '{' && Lower(d')[0] != '{';
      assert stem[0] != stem'[0];
    }
  }

  // Two IDs share a head branch if and only if both or neither are in braces and their first digits
  // agree: the first twelve, or eleven in braces.
  lemma {:induction false} BranchesAgreeIff(d: string, form: Form, d': string, form': Form)
    requires HexDigits(d) && HexDigits(d')
    ensures RemediationBranch(Spell(d, form)) == RemediationBranch(Spell(d', form')) <==>
      && (form.Braced? <==> form'.Braced?)
      && (if form.Braced? then Lower(d)[..11] == Lower(d')[..11] else Lower(d)[..12] == Lower(d')[..12])
  {
    BranchOfSpelling(d, form);
    BranchOfSpelling(d', form');
    StemsAgreeIff(d, form, d', form');
    assert (PREFIX + Stem(d, form))[|PREFIX|..] == Stem(d, form);
    assert (PREFIX + Stem(d', form'))[|PREFIX|..] == Stem(d', form');
  }

  // Of one investigation, whatever the letters' case: braces or not is all that matters.
  lemma {:induction false} SpellingsShareABranchIff(d: string, form: Form, d': string, form': Form)
    requires HexDigits(d) && HexDigits(d') && SameUUID(d, d')
    ensures RemediationBranch(Spell(d, form)) == RemediationBranch(Spell(d', form')) <==>
      (form.Braced? <==> form'.Braced?)
  {
    BranchesAgreeIff(d, form, d', form');
  }

  // A branch made from braces fails the service's own pattern, and every other one passes it.
  lemma {:induction false} BranchIsNamedIff(d: string, form: Form)
    requires HexDigits(d)
    ensures BranchName(RemediationBranch(Spell(d, form))) <==> !form.Braced?
  {
    BranchOfSpelling(d, form);
    var branch := PREFIX + Stem(d, form);
    assert |PREFIX| == 18 && forall i :: 0 <= i < 18 ==> branch[i] == PREFIX[i];
    if form.Braced? {
      assert branch[18] == '{';
    } else {
      forall i | 0 <= i < |branch| ensures BranchChar(branch[i]) {
        if i >= 18 { assert branch[i] == Lower(d)[i - 18] == LowerChar(d[i - 18]); } else { PrefixChars(i); }
      }
    }
  }

  lemma {:induction false} PrefixChars(i: nat)
    requires i < |PREFIX|
    ensures BranchChar(PREFIX[i])
  {
  }
}
