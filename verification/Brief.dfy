/** The evidence brief: which records come first, and which fit. */
module Briefs {
  import opened Wrappers
  import opened Records
  import opened Verify
  import opened Verifiers
  import Citations

  const MAX_BRIEF := 10240

  function IDsOf(records: seq<Record>): (ids: seq<string>)
    ensures |ids| == |records| && forall i :: 0 <= i < |records| ==> ids[i] == records[i].id
  {
    seq(|records|, i requires 0 <= i < |records| => records[i].id)
  }

  // --- priority

  // The last record with the ID.
  function Lookup(records: seq<Record>, id: string): Option<Record> {
    if records == [] then None
    else if records[|records| - 1].id == id then Some(records[|records| - 1])
    else Lookup(records[..|records| - 1], id)
  }

  function Looked(records: seq<Record>, ids: seq<string>): seq<Record> {
    if ids == [] then []
    else
      var n := |ids| - 1;
      Looked(records, ids[..n]) + if Lookup(records, ids[n]).Some? then [Lookup(records, ids[n]).value] else []
  }

  // The records with an ID of `ids`, or those without, in their order.
  function Among(records: seq<Record>, ids: seq<string>, inside: bool): seq<Record> {
    if records == [] then []
    else
      var n := |records| - 1;
      Among(records[..n], ids, inside) + if (records[n].id in ids) == inside then [records[n]] else []
  }

  function Prioritized(lens: Lens, records: seq<Record>): seq<Record> {
    match SupportedCause(lens, records, IDsOf(records))
    case None => records
    case Some(cause) => Looked(records, cause.evidenceIDs) + Among(records, cause.evidenceIDs, false)
  }

  lemma {:induction false} LookedStep(records: seq<Record>, ids: seq<string>, i: nat)
    requires i < |ids|
    ensures Looked(records, ids[..i + 1]) ==
      Looked(records, ids[..i]) + if Lookup(records, ids[i]).Some? then [Lookup(records, ids[i]).value] else []
  {
    assert ids[..i + 1][..i] == ids[..i];
  }

  lemma {:induction false} AmongStep(records: seq<Record>, ids: seq<string>, inside: bool, i: nat)
    requires i < |records|
    ensures Among(records[..i + 1], ids, inside) ==
      Among(records[..i], ids, inside) + if (records[i].id in ids) == inside then [records[i]] else []
  {
    assert records[..i + 1][..i] == records[..i];
  }

  ghost predicate Indexes(byID: map<string, Record>, records: seq<Record>) {
    && (forall id :: id in byID <==> Lookup(records, id).Some?)
    && forall id :: id in byID ==> Lookup(records, id) == Some(byID[id])
  }

  lemma IndexStep(byID: map<string, Record>, records: seq<Record>, i: nat)
    requires i < |records| && Indexes(byID, records[..i])
    ensures Indexes(byID[records[i].id := records[i]], records[..i + 1])
  {
    assert records[..i + 1][..i] == records[..i];
  }

  method Index(records: seq<Record>) returns (ids: seq<string>, byID: map<string, Record>)
    ensures ids == IDsOf(records) && Indexes(byID, records)
  {
    ids, byID := [], map[];
    for i := 0 to |records|
      invariant ids == IDsOf(records[..i]) && Indexes(byID, records[..i])
    {
      IndexStep(byID, records, i);
      ids := ids + [records[i].id];
      byID := byID[records[i].id := records[i]];
    }
    assert records[..|records|] == records;
  }

  method PutFirst(records: seq<Record>, byID: map<string, Record>, own: seq<string>) returns (prioritized: seq<Record>)
    requires Indexes(byID, records)
    ensures prioritized == Looked(records, own) + Among(records, own, false)
  {
    prioritized := [];
    var used: set<string> := {};
    for i := 0 to |own|
      invariant prioritized == Looked(records, own[..i])
      invariant forall id :: id in used <==> id in own[..i] && id in byID
    {
      LookedStep(records, own, i);
      if own[i] in byID {
        prioritized := prioritized + [byID[own[i]]];
        used := used + {own[i]};
      }
    }
    assert own[..|own|] == own;
    for i := 0 to |records|
      invariant prioritized == Looked(records, own) + Among(records[..i], own, false)
    {
      AmongStep(records, own, false, i);
      LookupFinds(records, records[i]);
      if records[i].id !in used { prioritized := prioritized + [records[i]]; }
    }
    assert records[..|records|] == records;
  }

  method PrioritizeEvidence(lens: Lens, records: seq<Record>) returns (r: seq<Record>)
    ensures r == Prioritized(lens, records)
  {
    var ids, byID := Index(records);
    var cause := FindSupportedCause(lens, records, ids);
    if cause.None? { return records; }
    r := PutFirst(records, byID, cause.value.evidenceIDs);
  }

  lemma {:induction false} LookupFinds(records: seq<Record>, r: Record)
    requires r in records
    ensures var found := Lookup(records, r.id); found.Some? && found.value in records && found.value.id == r.id
  {
    var n := |records| - 1;
    if records[n].id != r.id {
      assert r in records[..n];
      LookupFinds(records[..n], r);
    }
  }

  ghost predicate NoDuplicates<T>(s: seq<T>) {
    forall i, j :: 0 <= i < j < |s| ==> s[i] != s[j]
  }

  lemma {:induction false} CountOnce<T>(s: seq<T>, x: T)
    requires NoDuplicates(s)
    ensures multiset(s)[x] == if x in s then 1 else 0
  {
    if s != [] {
      var n := |s| - 1;
      assert s == s[..n] + [s[n]];
      CountOnce(s[..n], x);
    }
  }

  lemma SameElementsSameBag<T>(a: seq<T>, b: seq<T>)
    requires NoDuplicates(a) && NoDuplicates(b) && forall x :: x in a <==> x in b
    ensures multiset(a) == multiset(b)
  {
    forall x ensures multiset(a)[x] == multiset(b)[x] {
      CountOnce(a, x);
      CountOnce(b, x);
    }
  }

  lemma {:induction false} AmongSplits(records: seq<Record>, ids: seq<string>)
    ensures multiset(Among(records, ids, true)) + multiset(Among(records, ids, false)) == multiset(records)
  {
    if records != [] {
      var n := |records| - 1;
      assert records == records[..n] + [records[n]];
      AmongSplits(records[..n], ids);
    }
  }

  lemma {:induction false} AmongMembers(records: seq<Record>, ids: seq<string>, inside: bool, r: Record)
    ensures r in Among(records, ids, inside) <==> r in records && (r.id in ids) == inside
  {
    if records != [] {
      var n := |records| - 1;
      assert records == records[..n] + [records[n]];
      AmongMembers(records[..n], ids, inside, r);
    }
  }

  lemma {:induction false} AmongNoDuplicates(records: seq<Record>, ids: seq<string>, inside: bool)
    requires DistinctIDs(records)
    ensures NoDuplicates(Among(records, ids, inside))
  {
    if records != [] {
      var n := |records| - 1;
      AmongNoDuplicates(records[..n], ids, inside);
      forall r | r in Among(records[..n], ids, inside) ensures r != records[n] {
        AmongMembers(records[..n], ids, inside, r);
        var i :| 0 <= i < n && records[i] == r;
      }
      var before, all := Among(records[..n], ids, inside), Among(records, ids, inside);
      forall i, j | 0 <= i < j < |all| ensures all[i] != all[j] {
        assert all[i] == before[i] && before[i] in before;
        if j < |before| {
          assert all[j] == before[j] && before[i] != before[j];
        } else {
          assert all[j] == records[n];
        }
      }
    }
  }

  lemma {:induction false} FoundIsThere(records: seq<Record>, id: string)
    requires Lookup(records, id).Some?
    ensures Lookup(records, id).value in records && Lookup(records, id).value.id == id
  {
    var n := |records| - 1;
    if records[n].id != id { FoundIsThere(records[..n], id); }
  }

  lemma {:induction false} LookedIsExact(records: seq<Record>, ids: seq<string>)
    requires forall i :: 0 <= i < |ids| ==> Lookup(records, ids[i]).Some?
    ensures |Looked(records, ids)| == |ids|
    ensures forall i :: 0 <= i < |ids| ==> Looked(records, ids)[i] in records && Looked(records, ids)[i].id == ids[i]
  {
    if ids != [] {
      var n := |ids| - 1;
      LookedIsExact(records, ids[..n]);
      FoundIsThere(records, ids[n]);
      var before, all := Looked(records, ids[..n]), Looked(records, ids);
      assert all == before + [Lookup(records, ids[n]).value];
      forall i | 0 <= i < |ids| ensures all[i] in records && all[i].id == ids[i] {
        if i < n { assert all[i] == before[i] && ids[i] == ids[..n][i]; }
      }
    }
  }

  lemma {:induction false} SupportedIsVerified(
    lens: Lens, records: seq<Record>, cited: seq<string>) returns (cause: Cause)
    requires SupportedCause(lens, records, cited).Some?
    ensures SupportedCause(lens, records, cited) == Verified(lens, cause, records, cited)
    ensures cause == SupportedCause(lens, records, cited).value.cause
  {
    var i := Citations.FirstSomeFinds(Answers(lens, records, cited));
    cause := ORDER[i];
  }

  // No record fills two roles of one cause.
  lemma RolesExclude(lens: Lens, cause: Cause, picks: seq<Option<Record>>, i: nat, j: nat, r: Record)
    requires |picks| >= |Roles(cause)| && forall k :: 0 <= k < |picks| ==> picks[k].Some?
    requires i < j < |Citations.ProvedRoles(lens, cause, picks)|
    requires Plays(lens, Citations.ProvedRoles(lens, cause, picks)[i], r)
    ensures !Plays(lens, Citations.ProvedRoles(lens, cause, picks)[j], r)
  {
  }

  lemma OwnIDsAreDistinct(lens: Lens, cause: Cause, records: seq<Record>, cited: seq<string>)
    requires DistinctIDs(records) && Verified(lens, cause, records, cited).Some?
    ensures NoDuplicates(Verified(lens, cause, records, cited).value.evidenceIDs)
  {
    Citations.ProvedCauseIsJustified(lens, cause, records, cited);
    var picks, own := Picks(lens, cause, records, cited), Verified(lens, cause, records, cited).value.evidenceIDs;
    forall i, j | 0 <= i < j < |own| ensures own[i] != own[j] {
      if own[i] == own[j] {
        Citations.SameRecord(records, picks[i].value, picks[j].value);
        RolesExclude(lens, cause, picks, i, j, picks[i].value);
      }
    }
  }

  lemma {:induction false} OwnIsCollected(lens: Lens, cause: Cause, records: seq<Record>, cited: seq<string>, i: nat)
    requires Verified(lens, cause, records, cited).Some?
      && i < |Verified(lens, cause, records, cited).value.evidenceIDs|
    ensures Lookup(records, Verified(lens, cause, records, cited).value.evidenceIDs[i]).Some?
  {
    Citations.ProvedCauseIsJustified(lens, cause, records, cited);
    LookupFinds(records, Picks(lens, cause, records, cited)[i].value);
  }

  // The evidence of a verified cause, looked up: each of its records, once, in citation order.
  lemma {:induction false} OwnRecords(lens: Lens, cause: Cause, records: seq<Record>, cited: seq<string>)
    requires Verified(lens, cause, records, cited).Some?
    ensures var own := Verified(lens, cause, records, cited).value.evidenceIDs; var looked := Looked(records, own);
      && |looked| == |own| && IDsOf(looked) == own
      && forall i :: 0 <= i < |looked| ==> looked[i] in records
  {
    var own := Verified(lens, cause, records, cited).value.evidenceIDs;
    forall i | 0 <= i < |own| ensures Lookup(records, own[i]).Some? { OwnIsCollected(lens, cause, records, cited, i); }
    LookedIsExact(records, own);
  }

  lemma {:induction false} OwnRecordsAreThoseNamed(records: seq<Record>, own: seq<string>, looked: seq<Record>)
    requires DistinctIDs(records) && NoDuplicates(own) && IDsOf(looked) == own
    requires forall i :: 0 <= i < |looked| ==> looked[i] in records
    ensures multiset(looked) == multiset(Among(records, own, true))
  {
    AmongNoDuplicates(records, own, true);
    forall i, j | 0 <= i < j < |looked| ensures looked[i] != looked[j] { assert own[i] != own[j]; }
    forall r ensures r in looked <==> r in Among(records, own, true) {
      AmongMembers(records, own, true, r);
      if r in looked {
        var i :| 0 <= i < |looked| && looked[i] == r;
        assert own[i] in own;
      }
      if r in records && r.id in own {
        var i :| 0 <= i < |own| && own[i] == r.id;
        Citations.SameRecord(records, r, looked[i]);
      }
    }
    SameElementsSameBag(looked, Among(records, own, true));
  }

  // a is b with some elements left out.
  predicate Subsequence<T(==)>(a: seq<T>, b: seq<T>) {
    a == [] || (b != [] && (if a[0] == b[0] then Subsequence(a[1..], b[1..]) else Subsequence(a, b[1..])))
  }

  lemma {:induction false} SubsequenceOfMore<T>(a: seq<T>, b: seq<T>, x: T)
    requires Subsequence(a, b)
    ensures Subsequence(a, b + [x]) && Subsequence(a + [x], b + [x])
  {
    if b == [] {
      assert a == [] && (a + [x])[1..] == [] && b + [x] == [x] && a + [x] == [x];
    } else {
      assert (b + [x])[1..] == b[1..] + [x];
      if a == [] {
        SubsequenceOfMore(a, b[1..], x);
        if b[0] == x { assert ([x])[1..] == [] && a + [x] == [x]; }
      } else {
        assert (a + [x])[1..] == a[1..] + [x];
        if a[0] == b[0] { SubsequenceOfMore(a[1..], b[1..], x); } else { SubsequenceOfMore(a, b[1..], x); }
      }
    }
  }

  lemma {:induction false} AmongIsSubsequence(records: seq<Record>, ids: seq<string>, inside: bool)
    ensures Subsequence(Among(records, ids, inside), records)
  {
    if records != [] {
      var n := |records| - 1;
      assert records == records[..n] + [records[n]];
      var before := Among(records[..n], ids, inside);
      AmongIsSubsequence(records[..n], ids, inside);
      SubsequenceOfMore(before, records[..n], records[n]);
      assert Among(records, ids, inside) == before || Among(records, ids, inside) == before + [records[n]];
    }
  }

  // Priority only reorders: the supported cause's records first, in the order the cause cites them,
  // then all others in their own order; without such a cause nothing moves.
  lemma {:induction false} PriorityIsAPermutation(lens: Lens, records: seq<Record>)
    requires DistinctIDs(records)
    ensures multiset(Prioritized(lens, records)) == multiset(records)
    ensures var cause := SupportedCause(lens, records, IDsOf(records));
      if cause.None? then Prioritized(lens, records) == records
      else
        var own, r := cause.value.evidenceIDs, Prioritized(lens, records);
        && |own| <= |r| && IDsOf(r[..|own|]) == own
        && Subsequence(r[|own|..], records) && forall i :: |own| <= i < |r| ==> r[i].id !in own
  {
    var found := SupportedCause(lens, records, IDsOf(records));
    if found.Some? {
      var cause := SupportedIsVerified(lens, records, IDsOf(records));
      var own := found.value.evidenceIDs;
      var looked, rest := Looked(records, own), Among(records, own, false);
      OwnRecords(lens, cause, records, IDsOf(records));
      OwnIDsAreDistinct(lens, cause, records, IDsOf(records));
      OwnRecordsAreThoseNamed(records, own, looked);
      AmongSplits(records, own);
      assert Prioritized(lens, records) == looked + rest;
      assert (looked + rest)[..|own|] == looked && (looked + rest)[|own|..] == rest;
      AmongIsSubsequence(records, own, false);
      forall i | 0 <= i < |rest| ensures rest[i].id !in own { AmongMembers(records, own, false, rest[i]); }
    }
  }

  // --- the greedy packer

  // The records whose cards are written, given what is already written.
  function Chosen(card: Record -> string, used: nat, records: seq<Record>): seq<Record>
    decreases |records|
  {
    if records == [] then []
    else if used + |card(records[0])| > MAX_BRIEF then Chosen(card, used, records[1..])
    else [records[0]] + Chosen(card, used + |card(records[0])|, records[1..])
  }

  function Cards(card: Record -> string, records: seq<Record>): string {
    if records == [] then "" else card(records[0]) + Cards(card, records[1..])
  }

  // One record more or less before the rest.
  lemma ChosenStep(card: Record -> string, brief: string, records: seq<Record>, i: nat)
    requires i < |records|
    ensures var text := card(records[i]); var fits := |brief| + |text| <= MAX_BRIEF;
      var now := if fits then brief + text else brief;
      brief + Cards(card, Chosen(card, |brief|, records[i..]))
        == now + Cards(card, Chosen(card, |now|, records[i + 1..]))
  {
    assert records[i..][1..] == records[i + 1..];
    var text := card(records[i]);
    if |brief| + |text| <= MAX_BRIEF {
      var rest := Chosen(card, |brief| + |text|, records[i + 1..]);
      assert ([records[i]] + rest)[1..] == rest;
      assert brief + (text + Cards(card, rest)) == (brief + text) + Cards(card, rest);
    }
  }

  method EvidenceBrief(lens: Lens, header: string, card: Record -> string, records: seq<Record>) returns (brief: string)
    ensures brief == header + Cards(card, Chosen(card, |header|, Prioritized(lens, records)))
  {
    brief := header;
    var ordered := PrioritizeEvidence(lens, records);
    assert ordered[0..] == ordered;
    for i := 0 to |ordered|
      invariant brief + Cards(card, Chosen(card, |brief|, ordered[i..]))
        == header + Cards(card, Chosen(card, |header|, ordered))
    {
      ChosenStep(card, brief, ordered, i);
      var text := card(ordered[i]);
      if |brief| + |text| > MAX_BRIEF { continue; }
      brief := brief + text;
    }
  }

  lemma {:induction false} SubsequenceTail<T>(a: seq<T>, b: seq<T>)
    requires a != [] && Subsequence(a, b)
    ensures Subsequence(a[1..], b)
  {
    if a[0] == b[0] {
      if a[1..] != [] {
        if a[1] == b[0] { SubsequenceTail(a[1..], b[1..]); }
      }
    } else {
      SubsequenceTail(a, b[1..]);
      if a[1..] != [] && a[1] == b[0] { SubsequenceTail(a[1..], b[1..]); }
    }
  }

  lemma {:induction false} SubsequenceSkip<T>(a: seq<T>, b: seq<T>)
    requires b != [] && Subsequence(a, b[1..])
    ensures Subsequence(a, b)
  {
    if a != [] && a[0] == b[0] { SubsequenceTail(a, b[1..]); }
  }

  // The brief keeps the order, stays within its bound when the header does, and is packed: no card
  // that was left out would fit into what remains.
  lemma {:induction false} BriefIsPacked(card: Record -> string, used: nat, records: seq<Record>)
    ensures var chosen := Chosen(card, used, records);
      && Subsequence(chosen, records)
      && (used <= 10240 ==> used + |Cards(card, chosen)| <= 10240)
      && forall r :: r in records && r !in chosen ==> used + |Cards(card, chosen)| + |card(r)| > 10240
    decreases |records|
  {
    if records != [] {
      var text := card(records[0]);
      if used + |text| > MAX_BRIEF {
        BriefIsPacked(card, used, records[1..]);
        SubsequenceSkip(Chosen(card, used, records), records);
      } else {
        BriefIsPacked(card, used + |text|, records[1..]);
        var rest := Chosen(card, used + |text|, records[1..]);
        assert ([records[0]] + rest)[1..] == rest;
      }
    }
  }

  // Card by card in order: each is chosen exactly when it still fits after those chosen before it.
  lemma {:induction false} ChosenInOrder(card: Record -> string, used: nat, records: seq<Record>, r: Record)
    ensures var before := Chosen(card, used, records);
      Chosen(card, used, records + [r]) ==
        if used + |Cards(card, before)| + |card(r)| <= 10240 then before + [r] else before
    decreases |records|
  {
    if records == [] {
      assert [] + [r] == [r] && [r][1..] == [];
    } else {
      assert (records + [r])[1..] == records[1..] + [r];
      var text := card(records[0]);
      if used + |text| > MAX_BRIEF {
        ChosenInOrder(card, used, records[1..], r);
      } else {
        ChosenInOrder(card, used + |text|, records[1..], r);
        var rest := Chosen(card, used + |text|, records[1..]);
        assert ([records[0]] + rest)[1..] == rest;
      }
    }
  }

  lemma {:induction false} FittingPrefixIsChosen(
    card: Record -> string, used: nat, first: seq<Record>, rest: seq<Record>)
    requires used + |Cards(card, first)| <= MAX_BRIEF
    ensures first <= Chosen(card, used, first + rest)
    decreases |first|
  {
    if first != [] {
      FittingPrefixIsChosen(card, used + |card(first[0])|, first[1..], rest);
      assert (first + rest)[1..] == first[1..] + rest;
      assert first == [first[0]] + first[1..];
    }
  }

  lemma {:induction false} PrioritizedIs(lens: Lens, records: seq<Record>)
    requires SupportedCause(lens, records, IDsOf(records)).Some?
    ensures var own := SupportedCause(lens, records, IDsOf(records)).value.evidenceIDs;
      Prioritized(lens, records) == Looked(records, own) + Among(records, own, false)
  {
  }

  lemma {:induction false} ShownFirst(
    header: string, card: Record -> string, own: seq<string>, first: seq<Record>, rest: seq<Record>)
    requires IDsOf(first) == own && |header| + |Cards(card, first)| <= MAX_BRIEF
    ensures var chosen := Chosen(card, |header|, first + rest); |own| <= |chosen| && IDsOf(chosen[..|own|]) == own
  {
    FittingPrefixIsChosen(card, |header|, first, rest);
    assert Chosen(card, |header|, first + rest)[..|own|] == first;
  }

  // When the header and the supported cause's cards fit together, the model is shown all of them,
  // and first, in citation order.
  lemma {:induction false} CauseIsShown(lens: Lens, header: string, card: Record -> string, records: seq<Record>)
    requires SupportedCause(lens, records, IDsOf(records)).Some?
    requires var own := SupportedCause(lens, records, IDsOf(records)).value.evidenceIDs;
      |header| + |Cards(card, Looked(records, own))| <= MAX_BRIEF
    ensures var own := SupportedCause(lens, records, IDsOf(records)).value.evidenceIDs;
      var chosen := Chosen(card, |header|, Prioritized(lens, records));
      |own| <= |chosen| && IDsOf(chosen[..|own|]) == own
  {
    var cause := SupportedIsVerified(lens, records, IDsOf(records));
    var own := SupportedCause(lens, records, IDsOf(records)).value.evidenceIDs;
    OwnRecords(lens, cause, records, IDsOf(records));
    PrioritizedIs(lens, records);
    ShownFirst(header, card, own, Looked(records, own), Among(records, own, false));
  }
}
