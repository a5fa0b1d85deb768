/** What the verifiers' answers mean, and how little of the citation they depend on. */
module Citations {
  import opened Wrappers
  import opened Records
  import opened Verify

  predicate Candidate(lens: Lens, role: Role, r: Record, cited: seq<string>) {
    r.id in cited && Plays(lens, role, r)
  }

  // Overwriting in a loop finds a record exactly when some cited record plays the role.
  lemma {:induction false} LastIffSome(lens: Lens, role: Role, records: seq<Record>, cited: seq<string>)
    ensures Last(lens, role, records, cited).Some? <==> exists r :: r in records && Candidate(lens, role, r, cited)
    ensures Last(lens, role, records, cited).Some? ==>
      Last(lens, role, records, cited).value in records
        && Candidate(lens, role, Last(lens, role, records, cited).value, cited)
  {
    if records != [] {
      var n := |records| - 1;
      LastIffSome(lens, role, records[..n], cited);
      assert forall r :: r in records <==> r in records[..n] || r == records[n];
      assert Candidate(lens, role, records[n], cited) <==> records[n].id in cited && Plays(lens, role, records[n]);
    }
  }

  lemma {:induction false} FirstIsSome(lens: Lens, role: Role, records: seq<Record>, cited: seq<string>)
    ensures First(lens, role, records, cited).Some? ==>
      First(lens, role, records, cited).value in records
        && Candidate(lens, role, First(lens, role, records, cited).value, cited)
  {
    if records != [] { FirstIsSome(lens, role, records[1..], cited); }
  }

  // The same record is still the last one under any smaller citation that keeps it.
  lemma {:induction false} LastStable(
    lens: Lens, role: Role, records: seq<Record>, cited: seq<string>, fewer: seq<string>)
    requires forall id :: id in fewer ==> id in cited
    requires Last(lens, role, records, cited).Some? && Last(lens, role, records, cited).value.id in fewer
    ensures Last(lens, role, records, fewer) == Last(lens, role, records, cited)
  {
    var n := |records| - 1;
    if !Candidate(lens, role, records[n], cited) { LastStable(lens, role, records[..n], cited, fewer); }
  }

  lemma {:induction false} FirstStable(
    lens: Lens, role: Role, records: seq<Record>, cited: seq<string>, fewer: seq<string>)
    requires forall id :: id in fewer ==> id in cited
    requires First(lens, role, records, cited).Some? && First(lens, role, records, cited).value.id in fewer
    ensures First(lens, role, records, fewer) == First(lens, role, records, cited)
  {
    if !Candidate(lens, role, records[0], cited) { FirstStable(lens, role, records[1..], cited, fewer); }
  }

  // Two citations of the same records are one citation.
  ghost predicate SameCitation(records: seq<Record>, cited: seq<string>, cited': seq<string>) {
    forall r :: r in records ==> (r.id in cited <==> r.id in cited')
  }

  lemma {:induction false} LastSame(
    lens: Lens, role: Role, records: seq<Record>, cited: seq<string>, cited': seq<string>)
    requires SameCitation(records, cited, cited')
    ensures Last(lens, role, records, cited) == Last(lens, role, records, cited')
  {
    if records != [] {
      assert records[|records| - 1] in records;
      LastSame(lens, role, records[..|records| - 1], cited, cited');
    }
  }

  lemma {:induction false} FirstSame(
    lens: Lens, role: Role, records: seq<Record>, cited: seq<string>, cited': seq<string>)
    requires SameCitation(records, cited, cited')
    ensures First(lens, role, records, cited) == First(lens, role, records, cited')
  {
    if records != [] {
      assert records[0] in records;
      FirstSame(lens, role, records[1..], cited, cited');
    }
  }

  lemma PicksSame(lens: Lens, cause: Cause, records: seq<Record>, cited: seq<string>, cited': seq<string>)
    requires SameCitation(records, cited, cited')
    ensures Picks(lens, cause, records, cited) == Picks(lens, cause, records, cited')
  {
    var roles := Roles(cause);
    var picks, picks' := LastOfEach(lens, roles, records, cited), LastOfEach(lens, roles, records, cited');
    forall i | 0 <= i < |roles| ensures picks[i] == picks'[i] {
      LastSame(lens, roles[i], records, cited, cited');
    }
    if cause.InvalidOrderMode? && picks[2].Some? {
      FirstSame(lens, CrashLog(lens.crashLoopPod(picks[2].value.payload)), records, cited, cited');
    }
  }

  // Order, repetition and invented IDs in a citation change nothing, for any of the six causes.
  lemma VerdictDependsOnCitedSet(
    lens: Lens, cause: Cause, records: seq<Record>, cited: seq<string>, cited': seq<string>)
    requires SameCitation(records, cited, cited')
    ensures Verified(lens, cause, records, cited) == Verified(lens, cause, records, cited')
  {
    PicksSame(lens, cause, records, cited, cited');
  }

  // The causes whose roles are independent of each other.
  predicate Independent(cause: Cause) {
    !cause.UnpullableImage? && !cause.InvalidOrderMode?
  }

  ghost predicate Filled(lens: Lens, role: Role, records: seq<Record>, cited: seq<string>) {
    exists r :: r in records && Candidate(lens, role, r, cited)
  }

  // Their loops are existential: proved exactly when every role has some cited record.
  lemma VerifiedIffRolesFilled(lens: Lens, cause: Cause, records: seq<Record>, cited: seq<string>)
    requires NamedIDs(records) && Independent(cause)
    ensures Verified(lens, cause, records, cited).Some? <==>
      forall i :: 0 <= i < |Roles(cause)| ==> Filled(lens, Roles(cause)[i], records, cited)
  {
    var roles, picks := Roles(cause), Picks(lens, cause, records, cited);
    forall i | 0 <= i < |roles|
      ensures picks[i].Some? <==> Filled(lens, roles[i], records, cited)
      ensures picks[i].Some? ==> picks[i].value.id != ""
    {
      LastIffSome(lens, roles[i], records, cited);
    }
  }

  // So their verdict survives any reordering and any growth of the records and of the citation.
  lemma VerdictIsMonotone(
    lens: Lens, cause: Cause, records: seq<Record>, cited: seq<string>, more: seq<Record>, moreCited: seq<string>)
    requires NamedIDs(records) && NamedIDs(more) && Independent(cause)
    requires (forall r :: r in records ==> r in more) && (forall id :: id in cited ==> id in moreCited)
    requires Verified(lens, cause, records, cited).Some?
    ensures Verified(lens, cause, more, moreCited).Some?
  {
    VerifiedIffRolesFilled(lens, cause, records, cited);
    VerifiedIffRolesFilled(lens, cause, more, moreCited);
    forall i | 0 <= i < |Roles(cause)| ensures Filled(lens, Roles(cause)[i], more, moreCited) {
      assert Filled(lens, Roles(cause)[i], records, cited);
      var r :| r in records && Candidate(lens, Roles(cause)[i], r, cited);
      assert r in more && Candidate(lens, Roles(cause)[i], r, moreCited);
    }
  }

  lemma {:induction false} LastAppend(lens: Lens, role: Role, records: seq<Record>, cited: seq<string>, r: Record)
    ensures Last(lens, role, records + [r], cited) ==
      if Candidate(lens, role, r, cited) then Some(r) else Last(lens, role, records, cited)
  {
    assert (records + [r])[..|records|] == records;
  }

  // The three records of the image cause fit together.
  predicate ImageAgrees(lens: Lens, pod: Record, deployment: Record, events: Record) {
    var waiting, configured := lens.podWaitingForImage(pod.payload), lens.ordersDeploymentImage(deployment.payload);
    && waiting.Some? && configured.Some?
    && waiting.value.image == configured.value.image && configured.value.pullPolicy == "Always"
    && lens.imageReference(configured.value.image)
    && lens.failedPull(events.payload, waiting.value.name, configured.value.image)
  }

  ghost predicate ImageProvedBy(lens: Lens, pod: Option<Record>, deployment: Option<Record>, events: Option<Record>) {
    && pod.Some? && deployment.Some? && events.Some?
    && pod.value.id != "" && deployment.value.id != "" && events.value.id != ""
    && ImageAgrees(lens, pod.value, deployment.value, events.value)
  }

  // The image verdict is about the last cited record of each role, and about nothing else.
  lemma {:induction false} ImageVerdictIff(lens: Lens, records: seq<Record>, cited: seq<string>)
    ensures Verified(lens, UnpullableImage, records, cited).Some? <==>
      ImageProvedBy(lens, Last(lens, ImagePod, records, cited), Last(lens, ImageDeployment, records, cited),
                    Last(lens, ImageEvents, records, cited))
  {
    var picks := Picks(lens, UnpullableImage, records, cited);
    assert picks[0] == Last(lens, ImagePod, records, cited);
    assert picks[1] == Last(lens, ImageDeployment, records, cited);
    assert picks[2] == Last(lens, ImageEvents, records, cited);
  }

  lemma {:induction false} OneMoreImagePick(lens: Lens, pod: Option<Record>, deployment: Option<Record>,
                                            events: Option<Record>, cited: seq<string>, r: Record)
    requires r.id != "" && ImageProvedBy(lens, pod, deployment, events)
    ensures var isPod, isDeployment, isEvents := Candidate(lens, ImagePod, r, cited),
        Candidate(lens, ImageDeployment, r, cited), Candidate(lens, ImageEvents, r, cited);
      ImageProvedBy(lens, if isPod then Some(r) else pod, if isDeployment then Some(r) else deployment,
                    if isEvents then Some(r) else events) <==>
        && (isPod ==> ImageAgrees(lens, r, deployment.value, events.value))
        && (isDeployment ==> ImageAgrees(lens, pod.value, r, events.value))
        && (isEvents ==> ImageAgrees(lens, pod.value, deployment.value, r))
  {
    assert ToolOf(ImagePod) != ToolOf(ImageDeployment) && ToolOf(ImagePod) != ToolOf(ImageEvents);
  }

  // So it is not monotone.  One more cited record of one of its roles keeps a proved verdict exactly
  // when it fits the two other records as the one it replaces did.
  lemma {:induction false} OneMoreImageRecord(lens: Lens, records: seq<Record>, cited: seq<string>, r: Record)
    requires r.id != ""
    requires Verified(lens, UnpullableImage, records, cited).Some?
    ensures var pod, deployment, events := Last(lens, ImagePod, records, cited),
        Last(lens, ImageDeployment, records, cited), Last(lens, ImageEvents, records, cited);
      && pod.Some? && deployment.Some? && events.Some?
      && (Verified(lens, UnpullableImage, records + [r], cited).Some? <==>
            && (Candidate(lens, ImagePod, r, cited) ==> ImageAgrees(lens, r, deployment.value, events.value))
            && (Candidate(lens, ImageDeployment, r, cited) ==> ImageAgrees(lens, pod.value, r, events.value))
            && (Candidate(lens, ImageEvents, r, cited) ==> ImageAgrees(lens, pod.value, deployment.value, r)))
  {
    ImageVerdictIff(lens, records, cited);
    ImageVerdictIff(lens, records + [r], cited);
    LastAppend(lens, ImagePod, records, cited, r);
    LastAppend(lens, ImageDeployment, records, cited, r);
    LastAppend(lens, ImageEvents, records, cited, r);
    OneMoreImagePick(lens, Last(lens, ImagePod, records, cited), Last(lens, ImageDeployment, records, cited),
                     Last(lens, ImageEvents, records, cited), cited, r);
  }

  // The first log of one pod among more records.
  lemma {:induction false} FirstAppend(lens: Lens, role: Role, records: seq<Record>, cited: seq<string>, r: Record)
    ensures First(lens, role, records + [r], cited) ==
      if First(lens, role, records, cited).Some? then First(lens, role, records, cited)
      else if Candidate(lens, role, r, cited) then Some(r) else None
  {
    if records == [] {
      assert [] + [r] == [r] && [r][1..] == [];
    } else {
      assert (records + [r])[1..] == records[1..] + [r];
      FirstAppend(lens, role, records[1..], cited, r);
    }
  }

  ghost predicate HasLog(lens: Lens, pod: Record, records: seq<Record>, cited: seq<string>) {
    var log := First(lens, CrashLog(lens.crashLoopPod(pod.payload)), records, cited);
    log.Some? && log.value.id != ""
  }

  // A log once found stays; a record of another tool adds none.
  lemma {:induction false} HasLogAppend(lens: Lens, pod: Record, records: seq<Record>, cited: seq<string>, r: Record)
    ensures HasLog(lens, pod, records, cited) ==> HasLog(lens, pod, records + [r], cited)
    ensures r.tool != GetPodLogs ==> (HasLog(lens, pod, records + [r], cited) <==> HasLog(lens, pod, records, cited))
  {
    FirstAppend(lens, CrashLog(lens.crashLoopPod(pod.payload)), records, cited, r);
  }

  ghost predicate ConfigProvedBy(lens: Lens, config: Option<Record>, deployment: Option<Record>, pod: Option<Record>,
                                 records: seq<Record>, cited: seq<string>) {
    && config.Some? && deployment.Some? && pod.Some?
    && config.value.id != "" && deployment.value.id != "" && pod.value.id != ""
    && HasLog(lens, pod.value, records, cited)
  }

  lemma {:induction false} ConfigVerdictIff(lens: Lens, records: seq<Record>, cited: seq<string>)
    ensures Verified(lens, InvalidOrderMode, records, cited).Some? <==>
      ConfigProvedBy(lens, Last(lens, OrdersConfig, records, cited), Last(lens, ConfigDeployment, records, cited),
                     Last(lens, CrashPod, records, cited), records, cited)
  {
    var picks := Picks(lens, InvalidOrderMode, records, cited);
    assert picks[0] == Last(lens, OrdersConfig, records, cited);
    assert picks[1] == Last(lens, ConfigDeployment, records, cited);
    assert picks[2] == Last(lens, CrashPod, records, cited);
    if picks[2].Some? {
      assert picks[3] == First(lens, CrashLog(lens.crashLoopPod(picks[2].value.payload)), records, cited);
    }
  }

  lemma {:induction false} OneMoreConfigPick(lens: Lens, config: Option<Record>, deployment: Option<Record>,
                                             pod: Option<Record>, records: seq<Record>, cited: seq<string>, r: Record)
    requires r.id != "" && ConfigProvedBy(lens, config, deployment, pod, records, cited)
    ensures var isConfig, isDeployment, isPod := Candidate(lens, OrdersConfig, r, cited),
        Candidate(lens, ConfigDeployment, r, cited), Candidate(lens, CrashPod, r, cited);
      ConfigProvedBy(lens, if isConfig then Some(r) else config, if isDeployment then Some(r) else deployment,
                     if isPod then Some(r) else pod, records + [r], cited) <==>
        (isPod ==> HasLog(lens, r, records, cited))
  {
    if Candidate(lens, CrashPod, r, cited) {
      HasLogAppend(lens, r, records, cited, r);
    } else {
      HasLogAppend(lens, pod.value, records, cited, r);
    }
  }

  // Nor is the configuration cause monotone.  One more cited record keeps a proved verdict exactly
  // when it is not a crashing pod, or its own log is already among the cited records.
  lemma {:induction false} OneMoreConfigRecord(lens: Lens, records: seq<Record>, cited: seq<string>, r: Record)
    requires r.id != ""
    requires Verified(lens, InvalidOrderMode, records, cited).Some?
    ensures Verified(lens, InvalidOrderMode, records + [r], cited).Some? <==>
      (Candidate(lens, CrashPod, r, cited) ==> HasLog(lens, r, records, cited))
  {
    ConfigVerdictIff(lens, records, cited);
    ConfigVerdictIff(lens, records + [r], cited);
    LastAppend(lens, OrdersConfig, records, cited, r);
    LastAppend(lens, ConfigDeployment, records, cited, r);
    LastAppend(lens, CrashPod, records, cited, r);
    OneMoreConfigPick(lens, Last(lens, OrdersConfig, records, cited), Last(lens, ConfigDeployment, records, cited),
                      Last(lens, CrashPod, records, cited), records, cited, r);
  }

  // The full list of roles behind a proved cause, the log of the crashing pod included.
  function ProvedRoles(lens: Lens, cause: Cause, picks: seq<Option<Record>>): (roles: seq<Role>)
    requires |picks| >= |Roles(cause)| && forall i :: 0 <= i < |picks| ==> picks[i].Some?
  {
    Roles(cause) + if cause.InvalidOrderMode? then [CrashLog(lens.crashLoopPod(picks[2].value.payload))] else []
  }

  // A proved cause cites, role by role, a collected and cited record that shows what the role asks.
  lemma ProvedCauseIsJustified(lens: Lens, cause: Cause, records: seq<Record>, cited: seq<string>)
    requires Verified(lens, cause, records, cited).Some?
    ensures var picks, found := Picks(lens, cause, records, cited), Verified(lens, cause, records, cited).value;
      && found.cause == cause && AllNamed(picks)
      && |found.evidenceIDs| == |picks| == |ProvedRoles(lens, cause, picks)|
      && forall i :: 0 <= i < |picks| ==>
           && found.evidenceIDs[i] == picks[i].value.id
           && picks[i].value in records
           && Candidate(lens, ProvedRoles(lens, cause, picks)[i], picks[i].value, cited)
  {
    var picks := Picks(lens, cause, records, cited);
    forall i | 0 <= i < |Roles(cause)|
      ensures picks[i].value in records && Candidate(lens, Roles(cause)[i], picks[i].value, cited)
    {
      LastIffSome(lens, Roles(cause)[i], records, cited);
    }
    if cause.InvalidOrderMode? {
      FirstIsSome(lens, CrashLog(lens.crashLoopPod(picks[2].value.payload)), records, cited);
    }
  }

  lemma OwnPicks(lens: Lens, cause: Cause, records: seq<Record>, cited: seq<string>, own: seq<string>)
    requires Verified(lens, cause, records, cited).Some?
      && own == Verified(lens, cause, records, cited).value.evidenceIDs
    ensures var picks := Picks(lens, cause, records, cited);
      && AllNamed(picks) && |own| == |picks|
      && (forall id :: id in own ==> id in cited) && forall i :: 0 <= i < |picks| ==> picks[i].value.id in own
  {
    ProvedCauseIsJustified(lens, cause, records, cited);
    var picks := Picks(lens, cause, records, cited);
    forall i | 0 <= i < |picks| ensures picks[i].value.id in own { assert own[i] in own; }
  }

  lemma PicksOnOwnEvidence(lens: Lens, cause: Cause, records: seq<Record>, cited: seq<string>, own: seq<string>)
    requires var picks := Picks(lens, cause, records, cited);
      AllNamed(picks) && (forall id :: id in own ==> id in cited)
        && forall i :: 0 <= i < |picks| ==> picks[i].value.id in own
    ensures Picks(lens, cause, records, own) == Picks(lens, cause, records, cited)
  {
    var roles, picks := Roles(cause), Picks(lens, cause, records, cited);
    var once, again := LastOfEach(lens, roles, records, cited), LastOfEach(lens, roles, records, own);
    forall i | 0 <= i < |roles| ensures again[i] == once[i] {
      assert picks[i] == once[i];
      LastStable(lens, roles[i], records, cited, own);
    }
    assert again == once;
    if cause.InvalidOrderMode? {
      assert picks[3].value.id in own;
      FirstStable(lens, CrashLog(lens.crashLoopPod(picks[2].value.payload)), records, cited, own);
    }
  }

  // Verifying again on the cause's own evidence gives the same cause.
  lemma VerifiedOnOwnEvidence(lens: Lens, cause: Cause, records: seq<Record>, cited: seq<string>)
    requires Verified(lens, cause, records, cited).Some?
    ensures var own := Verified(lens, cause, records, cited).value.evidenceIDs;
      Verified(lens, cause, records, own) == Verified(lens, cause, records, cited)
  {
    var own := Verified(lens, cause, records, cited).value.evidenceIDs;
    OwnPicks(lens, cause, records, cited, own);
    PicksOnOwnEvidence(lens, cause, records, cited, own);
  }

  ghost predicate FirstAt<T>(answers: seq<Option<T>>, i: nat) {
    i < |answers| && answers[i].Some? && forall j :: 0 <= j < i ==> answers[j].None?
  }

  lemma {:induction false} FirstSomeFinds<T>(answers: seq<Option<T>>) returns (i: nat)
    requires FirstSome(answers).Some?
    ensures FirstAt(answers, i) && answers[i] == FirstSome(answers)
  {
    i := 0;
    if answers[0].None? {
      var k := FirstSomeFinds(answers[1..]);
      i := k + 1;
    }
  }

  lemma {:induction false} FirstIsFound<T>(answers: seq<Option<T>>, i: nat)
    requires FirstAt(answers, i)
    ensures FirstSome(answers) == answers[i]
  {
    if i > 0 { FirstIsFound(answers[1..], i - 1); }
  }

  lemma SameRecord(records: seq<Record>, r: Record, r': Record)
    requires DistinctIDs(records) && r in records && r' in records && r.id == r'.id
    ensures r == r'
  {
  }

  // A proved cause's own evidence holds no record of a tool that none of its roles uses.
  lemma OwnEvidenceTools(lens: Lens, cause: Cause, records: seq<Record>, cited: seq<string>, r: Record)
    requires DistinctIDs(records) && Verified(lens, cause, records, cited).Some?
    requires r in records && r.id in Verified(lens, cause, records, cited).value.evidenceIDs
    ensures var roles := ProvedRoles(lens, cause, Picks(lens, cause, records, cited));
      exists i :: 0 <= i < |roles| && r.tool == ToolOf(roles[i])
  {
    ProvedCauseIsJustified(lens, cause, records, cited);
    var picks, own := Picks(lens, cause, records, cited), Verified(lens, cause, records, cited).value.evidenceIDs;
    var i :| 0 <= i < |own| && own[i] == r.id;
    SameRecord(records, r, picks[i].value);
  }

  lemma OwnEvidenceIsCited(lens: Lens, cause: Cause, records: seq<Record>, cited: seq<string>, id: string)
    requires Verified(lens, cause, records, cited).Some?
      && id in Verified(lens, cause, records, cited).value.evidenceIDs
    ensures id in cited
  {
    ProvedCauseIsJustified(lens, cause, records, cited);
    var own := Verified(lens, cause, records, cited).value.evidenceIDs;
    var i :| 0 <= i < |own| && own[i] == id;
  }

  // The role that only the causes with dependent roles have.
  function OwnRole(cause: Cause): Role
    requires !Independent(cause)
  {
    if cause.UnpullableImage? then ImageEvents else OrdersConfig
  }

  lemma SilentWithoutOwnRole(lens: Lens, earlier: Cause, records: seq<Record>, cited: seq<string>)
    requires !Independent(earlier) && forall r :: r in records && r.id in cited ==> r.tool != ToolOf(OwnRole(earlier))
    ensures Verified(lens, earlier, records, cited).None?
  {
    LastIffSome(lens, OwnRole(earlier), records, cited);
    var i := if earlier.UnpullableImage? then 2 else 0;
    assert Picks(lens, earlier, records, cited)[i].None?;
  }

  lemma OwnRoleIsOwn(lens: Lens, earlier: Cause, cause: Cause, picks: seq<Option<Record>>)
    requires !Independent(earlier) && earlier != cause && (earlier.InvalidOrderMode? ==> !cause.UnpullableImage?)
    requires |picks| >= |Roles(cause)| && forall i :: 0 <= i < |picks| ==> picks[i].Some?
    ensures forall i ::
      0 <= i < |ProvedRoles(lens, cause, picks)| ==>
        ToolOf(ProvedRoles(lens, cause, picks)[i]) != ToolOf(OwnRole(earlier))
  {
  }

  // An earlier verifier that found nothing in the citation finds nothing in the smaller evidence.
  lemma EarlierStaysSilent(lens: Lens, earlier: Cause, cause: Cause, records: seq<Record>, cited: seq<string>)
    requires NamedIDs(records) && DistinctIDs(records)
    requires Verified(lens, cause, records, cited).Some? && Verified(lens, earlier, records, cited).None?
    requires earlier.InvalidOrderMode? ==> !cause.UnpullableImage?
    ensures Verified(lens, earlier, records, Verified(lens, cause, records, cited).value.evidenceIDs).None?
  {
    var own := Verified(lens, cause, records, cited).value.evidenceIDs;
    if Independent(earlier) {
      forall id | id in own ensures id in cited { OwnEvidenceIsCited(lens, cause, records, cited, id); }
      if Verified(lens, earlier, records, own).Some? {
        VerdictIsMonotone(lens, earlier, records, own, records, cited);
      }
    } else {
      ProvedCauseIsJustified(lens, cause, records, cited);
      OwnRoleIsOwn(lens, earlier, cause, Picks(lens, cause, records, cited));
      forall r | r in records && r.id in own ensures r.tool != ToolOf(OwnRole(earlier)) {
        OwnEvidenceTools(lens, cause, records, cited, r);
      }
      SilentWithoutOwnRole(lens, earlier, records, own);
    }
  }

  lemma {:induction false} SilentAgain(
    lens: Lens, records: seq<Record>, cited: seq<string>, i: nat, j: nat, own: seq<string>)
    requires NamedIDs(records) && DistinctIDs(records) && j < i < |ORDER|
    requires Verified(lens, ORDER[i], records, cited).Some?
      && own == Verified(lens, ORDER[i], records, cited).value.evidenceIDs
    requires Verified(lens, ORDER[j], records, cited).None?
    ensures Verified(lens, ORDER[j], records, own).None?
  {
    EarlierStaysSilent(lens, ORDER[j], ORDER[i], records, cited);
  }

  lemma {:induction false} StillFirst(lens: Lens, records: seq<Record>, cited: seq<string>, i: nat, own: seq<string>)
    requires NamedIDs(records) && DistinctIDs(records)
    requires FirstAt(Answers(lens, records, cited), i) && own == Answers(lens, records, cited)[i].value.evidenceIDs
    ensures FirstAt(Answers(lens, records, own), i)
    ensures Answers(lens, records, own)[i] == Answers(lens, records, cited)[i]
  {
    VerifiedOnOwnEvidence(lens, ORDER[i], records, cited);
    forall j | 0 <= j < i ensures Answers(lens, records, own)[j].None? {
      assert Answers(lens, records, cited)[j].None?;
      SilentAgain(lens, records, cited, i, j, own);
    }
  }

  // Re-running the whole search on the evidence of the cause it found finds the same cause.
  lemma {:induction false} SupportedOnOwnEvidence(lens: Lens, records: seq<Record>, cited: seq<string>)
    requires NamedIDs(records) && DistinctIDs(records) && SupportedCause(lens, records, cited).Some?
    ensures SupportedCause(lens, records, SupportedCause(lens, records, cited).value.evidenceIDs)
      == SupportedCause(lens, records, cited)
  {
    var i := FirstSomeFinds(Answers(lens, records, cited));
    var own := SupportedCause(lens, records, cited).value.evidenceIDs;
    StillFirst(lens, records, cited, i, own);
    FirstIsFound(Answers(lens, records, own), i);
  }
}
