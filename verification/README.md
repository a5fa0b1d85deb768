# Verified model of the incident pilot

The incident pilot takes alerts, collects evidence, asks a language model for a cause, checks that
claim with its own verifiers, and, for one kind of cause, opens a pull request that raises a memory
limit.  This project models the parts on which the safety of that chain rests and proves what they
keep, for every input, every answer of the outside and every run.

## What is modelled

**The remediation protocol** (`GitHub`, `Attempts`, `Runs`, `Safety`, `Recovery`, `Stranding`, `Faults`,
`Client`, `Service`, `Evaluations`, `Store`, `EndToEnd`, `Recorded`, `Requests`, `Replicas`, `Spelling`,
`Investigations`).  GitHub is a shared state: branches, the file each commit holds, and pull requests.
An attempt is a program counter with locals; one step is one API call, which is delivered, refused
before it takes effect, or lost after it took effect.  Any number of attempts interleave with each
other and with everybody else, and any of them may stop anywhere.  `GitHubClient.CreatePullRequest`
is proved to be exactly such an attempt, and `RemediationService.Request` to be one step of the relation
`Service.Serves` between states of GitHub and of the store; the theorems of `Requests` and
`Investigations` are about all sequences of such steps, and those of `Replicas` about requests that are
served at the same time, interleaved call by call and save by save.  `Witness` and `PassingRequest` show with
concrete values that the hypotheses can be met together.

**The patch** (`Lines`, `Patch`, `Selection`, `Reparse`, `Layouts`, `Meaning`).  The byte patch is one splice,
local to one line and undone by the opposite edit; and the patched file parses to the same documents
with one scalar changed, so that patching it again is refused.  This last fact is what makes the
protocol's compare-and-swap safe.  `Selection` says which scalar is edited without the search: by paths of
keys, from the document down to the limit of the one named container.

**The policy and the gate** (`Memory`, `Policy`, `Evaluation`, `Remediation`).

**Root-cause verification** (`Payloads`, `Reading`, `Records`, `Verify`, `Verifiers`, `Verdicts`,
`Citations`), **the investigation** (`Briefs`, `Agent`, `Budget`), **alert ingestion** (`Ingest`) and
**evidence collection** (`Summaries`, `Collection`, `Calls`, `Windows`, `History`, `Cleaning`, `Readers`,
`Redaction`).

### Assumptions, stated in the model

- GitHub: creating an existing reference fails; a content update needs the blob the branch holds now;
  equal blobs are equal contents (the model passes the content where the API passes its SHA); a second
  open pull request for one head and base fails; a call is atomic.
- The YAML parser is an argument.  `Meaning.Faithful` says what is asked of it: it reads the manifests of some
  grammar, reports each scalar at the line and column where its text starts (a plain scalar is its
  text; the text of any other scalar does not begin with its value), and the
  grammar allows one plain value to be written for another.
- Payload readers that are search loops over JSON with no bearing on the properties are fields of
  `Verify.Lens`; the four that remediation and routing rest on are written out, and `Concrete` ties a
  lens to them.  Patterns and library calls on texts are fields of `Shapes` and `Patterns`.
- Three kinds of file lie outside of that, and nothing is claimed of them: a line with a multi-byte
  character before the scalar, because the real parser counts columns in code points and the patch slices
  bytes; a double-quoted scalar made of escapes that are shorter than what they stand for, such as `\L`,
  whose text is shorter than its value; and a lone carriage return, which YAML counts as a line break.
- UUID parsing and the database's cast accept 32 digits, the dashed form and the dashed form in braces, in
  either case of the letters; the libraries themselves are not part of this model.
- Characters stand for bytes.  Times are integers in nanoseconds.  A commit ID is its position.
- Each tool of a collection answers as a function of the tool; since no tool is called twice
  (`Collection.CallsAscend`), that is no restriction.
- Fresh UUIDs are taken to be fresh and distinct where a lemma asks for it.

### What the proofs found in the code

- One investigation can open two pull requests for the same change.  The report is found under every
  spelling of the investigation's ID, but the head branch is made from the text as sent, and braces stay
  in it.  `Investigations.OnePullPerInvestigationIff` gives the exact condition, and
  `PassingRequest.TwoPullsForOneInvestigation` the run, request and all.
- The pull request of an ID in braces is opened and recorded as failed, because its branch name fails the
  service's own pattern (`Investigations.RecordedAsCreatedUnlessBraced`).
- Recovery holds if and only if the patched file can be read back.  A replacement that makes the file
  larger than 256 KiB commits, but every later read of the branch fails
  (`Recovery.RecoveryExactlyIfEditReadable`, `EndToEnd.PatchRecoversIff` in terms of the three lengths, and
  `Witness.LongEditsStrandTheirBranch` for a file of exactly 256 KiB).
- The base reference is read before the base file.  If the base branch moves in between, the new head
  branch sits on the older file, and a next attempt reports it as diverged although nobody else touched
  it (`Stranding.MovedBaseStrandsTheBranch`).  As long as the base branch shows neither that file again nor
  one whose edit it is, every attempt fails and nothing changes (`Stranding.StrandedStaysStranded`); the
  branch is repaired exactly when it does (`Stranding.StrandedIsRepairedIff`).
- Nothing checks that the head branch differs from the base branch; were they equal, the edit would be
  committed to the base branch (`Safety.EqualBranchesWouldWriteTheBase`).
- `Window` takes two minutes off after its 24-hour check, so the backend refuses the windows of the
  oldest incidents it admits (`Windows.OldestIncidentsAreRefused`, exactly those by
  `Windows.BackendRefusesOnlyTheOldest`).
- Three summaries copy texts or numbers of their payload without shortening them.  One above 512 bytes
  makes the store refuse the whole collection: an application whose sync status is longer than 469 bytes,
  for one (`Collection.CollectionFitsTheTable`, `Collection.LongStatusLosesTheCollection`).
- The second half of the patch's final check, that the result contains the new value, can never fire
  (`Patch.SpliceChanges`).

## Model

| member | source | states |
|---|---|---|
| `GitHub.OpenNumbersAre` | internal/github/client.go:234-249 | the listing returns exactly the open pull requests with this head and base |
| `Attempts.Step` | internal/github/client.go:59-130 | every API call moves an attempt strictly towards its end |
| `Attempts.Finish` | internal/github/client.go:59-130 | from any point, under any faults and other writers, an attempt ends within the calls left to it, at most eight in all |
| `Runs.EditedNeverRecommits` | internal/github/client.go:113-118 | the content compare-and-swap cannot succeed on a branch that already holds an edited file |
| `Runs.OthersKeepInv` | internal/github/client.go:71-128 | everybody else moving the base branch and closing pull requests keeps the protocol invariant |
| `Runs.AdvanceKeepsInv` | internal/github/client.go:71-128 | one API call of any attempt, delivered, refused or lost, keeps the invariant of all attempts and of the remote |
| `Runs.RunsKeepInv` | internal/github/client.go:71-128 | the invariant holds after every run of any number of interleaved attempts |
| `Safety.AtMostOneCommitAndPull` | internal/github/client.go:71-128 | over all runs at most one commit lands and one pull request is open; the head file is a past base file or the edit of one, and the edit whenever a pull request is open |
| `Safety.AttemptsWriteOnlyTheHead` | internal/github/client.go:95-122 | no call touches another branch, rewrites history, or adds anything but a pull request for this head and base |
| `Safety.EqualBranchesWouldWriteTheBase` | internal/github/client.go:60-60 | with equal branch names a fault-free attempt commits its edit to the base branch |
| `Safety.HostileRunsKeepComputed` | internal/github/client.go:85-116 | even when others push to the head branch, an attempt's edit is always the edit of the file it will compare against |
| `Safety.NoClobbering` | internal/github/client.go:93-118 | even then, a call changes a branch's file only on the head branch, only from content the edit applies to, and only to that edit |
| `Safety.FinishIsARun` | internal/github/client.go:59-130 | the client's whole call, with others moving between its steps, is one of the runs above |
| `Recovery.AloneRepairsExactlyReady` | internal/github/client.go:59-130 | an attempt running alone succeeds exactly from the described states, and what it leaves behind |
| `Recovery.ReachableIsReady` | internal/github/client.go:71-128 | every state any run leaves behind is such a state while the base file stays and its edit is readable |
| `Recovery.RecoveryExactlyIfEditReadable` | internal/github/client.go:144-159 | recovery from every reachable state holds if and only if the edited file passes the size limits of the content read |
| `Recovery.CrashLeaves` | internal/github/client.go:95-118 | the state left by a crash between the commit and the pull request |
| `Recovery.Recovery` | internal/github/client.go:59-130 | the recovered state: pull request open, head file the edit, commit named the head commit, Reused exactly when one was open, at most seven calls |
| `Stranding.MovedBaseStrandsTheBranch` | internal/github/client.go:77-110 | a base branch that moves between the reads of its reference and its file leaves a head branch on the older file, which the next attempt reports as diverged without changing anything |
| `Stranding.StrandedIsDiverged` | internal/github/client.go:101-110 | an attempt running alone that finds other content on the head branch reports it as diverged after five calls and changes nothing |
| `Stranding.StrandedStaysStranded` | internal/github/client.go:93-110 | however many attempts are made, the stranded file stays, no pull request opens and every attempt fails, while the base branch shows neither that file nor one whose edit it is |
| `Stranding.StrandedIsRepairedIff` | internal/github/client.go:101-110 | an attempt repairs a stranded branch if and only if the base branch shows such a file |
| `Recovery.RetryReusesOpenPull` | internal/github/client.go:71-76 | once a pull request is open, a retry makes one call, changes nothing and returns it as reused |
| `Faults.SecondLookDecides` | internal/github/client.go:119-127 | after a creation that failed the second lookup decides: failure is reported only if that lookup fails too or does not find exactly one pull request; found, it is returned as reused with the head commit |
| `Faults.CreationFailureIsReal` | internal/github/client.go:71-127 | of any attempt, under any faults and other writers: when it says that the pull request could not be created and its last call got through, there was not exactly one |
| `Faults.FirstAttempt` | internal/github/client.go:71-129 | a first attempt without a fault makes seven calls and leaves exactly one branch, one commit and one pull request more |
| `Faults.ReadFails` | internal/github/client.go:71-92 | a failed reading call ends a first attempt with the code of that call and leaves GitHub as it was |
| `Faults.BranchCreationFails` | internal/github/client.go:95-98 | a failed branch creation ends it; the branch is there exactly when only the response was lost |
| `Faults.CommitFails` | internal/github/client.go:112-116 | a failed commit ends it; the commit is there exactly when only the response was lost |
| `Faults.LostCreationIsFound` | internal/github/client.go:119-127 | of a first attempt only the creation of the pull request is made good: with its response lost the pull request is returned, reused and with the new commit; refused, it is reported as failed |
| `Faults.FailedReadEnds` | internal/github/client.go:71-104 | at any point of an attempt, a reading call that fails ends it with its own code and leaves GitHub as it was |
| `Faults.FailedWriteEnds` | internal/github/client.go:96-116 | so does the creation of the branch or the commit, but for its effect when only the response was lost |
| `Faults.FailureNamesItsCause` | internal/github/client.go:71-110 | an attempt running alone that cannot succeed changes nothing and reports what is in its way |
| `Client.Remote.FindOpenPull` | internal/github/client.go:234-249 | the lookup's answer, and that it changes nothing |
| `Client.Remote.FindRef` | internal/github/client.go:172-193 | the branch's commit or its absence, or an error |
| `Client.Remote.GetContent` | internal/github/client.go:144-159 | the file of the branch unless it is empty, above 256 KiB or the call fails |
| `Client.Remote.MakeRef` | internal/github/client.go:195-198 | the branch is created unless it exists, also when the response is lost |
| `Client.Remote.PutContent` | internal/github/client.go:200-219 | the compare-and-swap, its effect also when the response is lost |
| `Client.Remote.OpenPull` | internal/github/client.go:251-269 | a pull request is added unless one is open, also when the response is lost |
| `Client.GitHubClient.CreatePullRequest` | internal/github/client.go:59-130 | without an allowed, versioned decision for the configured repository and path no call is made; with it the client leaves the world, the call count and the result of one attempt of the protocol |
| `Client.GitHubClient.FromHeadFile` | internal/github/client.go:101-114 | the branch on existing head content: reuse, diverge or commit, as the attempt's step says |
| `Client.GitHubClient.FromCommit` | internal/github/client.go:113-119 | the commit and what follows it are the rest of the attempt |
| `Client.GitHubClient.FromOpen` | internal/github/client.go:120-129 | the creation of the pull request with the second lookup on error is the end of the attempt |
| `Lines.JoinOfSplit` | internal/github/client.go:420-427 | joining the lines of a text gives the text |
| `Lines.SplitOfJoin` | internal/github/client.go:420-427 | splitting joined lines gives the lines |
| `Lines.PieceAt` | internal/github/client.go:420-422 | the line at an index, and the summed length of the lines before it |
| `Patch.FindCandidates` | internal/github/client.go:385-416 | the scan finds exactly the memory scalars of the named container, or the Helm value when there are none |
| `Patch.PlaceByLines` | internal/github/client.go:420-424 | the check on one line and the check at one offset of the whole text agree |
| `Patch.SpliceByPieces` | internal/github/client.go:425-427 | replacing a stretch of one line is one splice of the text, at the lengths before it plus the column |
| `Patch.SpliceChanges` | internal/github/client.go:428-430 | the result equals the input exactly when nothing was to change, and always contains the new value |
| `Patch.EditIsLocalAndUndone` | internal/github/client.go:420-431 | every other line is unchanged, and the opposite edit at that place restores the file |
| `Patch.ReplaceScalar` | internal/github/client.go:420-431 | succeeds exactly when the text at the position is the old value and differs from the new one, and returns the splice |
| `Patch.GenerateMemoryLimitPatch` | internal/github/client.go:381-432 | succeeds exactly when one candidate holds the old value at its position, and returns that splice |
| `Selection.UnderIff` | internal/github/client.go:454-464 | a key leads to the value of the first entry with that key |
| `Selection.InContainersIff` | internal/github/client.go:404-412 | the scalars found among containers are the memory limits of those named payments-api |
| `Selection.TargetDocumentIff` | internal/github/client.go:396-403 | a document counts exactly if it is a Deployment named payments-api with a list of containers at the path of its pod template |
| `Selection.OneFoundIff` | internal/github/client.go:385-419 | the search finds exactly one scalar if and only if one container of one such document has a limit |
| `Selection.CandidateIff` | internal/github/client.go:414-416 | the one candidate is that limit, or the Helm value that reads the old value when no document has a limit |
| `Selection.PatchedIff` | internal/github/client.go:381-432 | on a manifest that offers a scalar the patch succeeds exactly for the right kind of change and file size, if the text reads the old value where the scalar stands, and writes only that anew |
| `Selection.PatchedIsOffered` | internal/github/client.go:417-419 | and on no other manifest |
| `Selection.SidecarIsLeftAlone` | internal/github/client.go:404-412 | beside a sidecar with a limit of its own, the limit of the named container is the one that is edited, in either order |
| `Selection.SidecarAloneIsRefused` | internal/github/client.go:404-419 | a limit of the sidecar alone is not touched |
| `Reparse.EditedFileSelects` | internal/github/client.go:385-419 | a tree with that one scalar changed no longer offers the old value for patching |
| `Layouts.PositionIsOffset` | internal/github/client.go:421-424 | a reported line and column lead back to the offset they were taken at |
| `Layouts.RenderOfReplaceAll` | internal/github/client.go:425-427 | writing another plain scalar into a manifest is one splice of its text |
| `Layouts.ReadOfReplaceAll` | internal/github/client.go:385-419 | and its tree is the old tree with that scalar changed, whatever moved on the line |
| `Meaning.CandidateIsPlain` | internal/github/client.go:417-424 | a candidate whose value the text reads at its position is a plain scalar of the manifest |
| `Meaning.PatchedFileMeansTheSame` | internal/github/client.go:381-432 | the patched file parses to the same documents with exactly the selected scalar changed |
| `Meaning.PatchNeverReapplies` | internal/github/client.go:381-432 | patching a patched file again is refused |
| `Meaning.PatchIsSound` | internal/github/client.go:85-110 | the patch meets what the protocol theorems ask of an edit |
| `Memory.MemoryMiBIsInjective` | internal/remediation/remediation.go:387-394 | equal amounts in the accepted form are equal texts |
| `Memory.MemoryMiBIff` | internal/remediation/remediation.go:387-394 | the accepted texts are the decimal forms of 1 to 9999 followed by Mi, and mean that number |
| `Policy.DeniedNothingIff` | policies/remediation.rego:5-29 | the rules deny nothing if and only if the request is the one repair: development, the configured target, the observed limit as text, and a raise to at most 512Mi and fourfold |
| `Evaluation.CheckAnswer` | internal/policy/evaluator.go:45-69 | an answer is believed exactly when every reason is a short text and `allow` agrees with there being none |
| `Evaluation.SortedNames` | policies/remediation.rego:31-34 | the reasons are the names of the denials, each once, in order |
| `Evaluation.Evaluate` | internal/policy/evaluator.go:32-70 | the policy's own answer always passes the check, allows exactly when nothing is denied, and gives the names of what is denied, each once and in order |
| `Evaluation.DenialsAreExplained` | policies/remediation.rego:5-29 | the reasons of a decision: each of the policy's texts is given exactly when the request, the configuration or the evidence deserves it, once and in order, and there are no others |
| `Strings.SortStrings` | internal/remediation/remediation.go:401-402 | a sorted permutation |
| `Strings.SortedBagsEqual` | internal/remediation/remediation.go:401-408 | sorted lists with the same elements are the same list |
| `Strings.SameIDs` | internal/remediation/remediation.go:396-409 | true exactly for permutations of each other |
| `Strings.LeqIff` | internal/remediation/remediation.go:401-402 | the order of texts is that of the first bytes in which they differ, a prefix first |
| `Remediation.ValidateRequest` | internal/remediation/remediation.go:354-385 | exactly the well-formed requests with one to eight distinct evidence IDs |
| `Remediation.OneFlawIsRefused` | internal/remediation/remediation.go:354-376 | every part of a request is checked: a valid one with one part spoilt is refused |
| `Remediation.FlawedEvidenceIsRefused` | internal/remediation/remediation.go:376-384 | so is one without evidence, with more than eight pieces, with one that is no ID or with one cited twice |
| `Remediation.DeploymentLimit` | internal/remediation/remediation.go:323-352 | the limit of the first stored Deployment record that has the container |
| `Remediation.FirstLimitCounts` | internal/remediation/remediation.go:324-351 | the first stored record that shows a limit decides, and without one there is none |
| `Remediation.ReloadedLimitAgrees` | internal/remediation/remediation.go:212-222 | reloaded in any order, the records of an OOM conclusion give the very limit it names |
| `Service.CheckRequest` | internal/remediation/remediation.go:196-222 | passes exactly the well-formed requests under a valid trusted configuration, with a verified cause, exactly its evidence, and all of it stored |
| `Service.RemediationService.Execute` | internal/remediation/remediation.go:236-265 | the action recorded for what the executor did; a failure code exactly when it failed |
| `Store.RemediationStore.SaveRemediationEvaluation` | internal/storage/remediation.go:71-94 | four inserts and a commit that may break off anywhere: afterwards the join reads back the whole evaluation or what it read before, and no other proposal has changed |
| `Store.RemediationStore.GetRemediation` | internal/storage/remediation.go:96-113 | finds exactly the stored proposals |
| `Service.RemediationService.Request` | internal/remediation/remediation.go:192-291 | one step of the relation: no call unless the gate passes, else exactly one attempt; the store gains the whole evaluation, agreeing in proposal, decision, pull request and audit, or nothing; the decision has the policy's reasons; an answer exactly when the save is acknowledged; the same without an executor |
| `Service.RemediationService.CarryOut` | internal/remediation/remediation.go:233-290 | a pull-request record exists exactly when the decision allowed, and it is kept whole or not at all wherever the save breaks off |
| `Service.RemediationService.Act` | internal/remediation/remediation.go:233-276 | the executor is called exactly when the decision allows, and proposal, action and audit event say what came of it |
| `Recorded.ReturnedTells` | internal/remediation/remediation.go:233-281 | what is returned is what is stored: field by field the request with its reason trimmed, the policy's decision on it with its reasons, and the status that action and audit event agree on |
| `Recorded.StoredTells` | internal/storage/remediation.go:90-93 | the same of what is stored when only the acknowledgement of the save was lost |
| `Recorded.UnfoundedIsRefused` | internal/remediation/remediation.go:196-220 | an invalid request, or one without a matching report, a root cause, exactly its evidence and all of it stored, is refused without a call or a row |
| `Recorded.FailureIsRecorded` | internal/remediation/remediation.go:239-256 | a failed attempt is recorded with the branches and the failure code that pass the patterns |
| `Recorded.OpenedIsRecorded` | internal/remediation/remediation.go:257-301 | a pull request is recorded with all its fields when they are in order, and otherwise as an invalid result without branches |
| `Recorded.LostCreationIsRecorded` | internal/remediation/remediation.go:237-281 | a first request of which only the response to the creation is lost is stored as created and reused, with the new commit |
| `EndToEnd.PermittedIsExecutable` | internal/remediation/remediation.go:303-321 | every guard of the executor and of the patch passes for what the policy permits |
| `EndToEnd.PermittedConfigIsSound` | internal/github/client.go:65-85 | the protocol theorems apply to every permitted request |
| `EndToEnd.PullRequestContent` | internal/github/client.go:71-128 | an open pull request shows one past base file with one stretch reading the old limit replaced |
| `EndToEnd.RecordedAsCreatedIff` | internal/remediation/remediation.go:240-301 | an opened pull request is recorded as created exactly when its number, its address and its branch names pass the service's tests |
| `EndToEnd.PatchedIsReadableIff` | internal/github/client.go:154-157 | a patched file can be read back exactly when the lengths of file, old and new value say so |
| `EndToEnd.PatchRecoversIff` | internal/github/client.go:59-130 | for the patch, recovery from every reachable state holds if and only if the replacement keeps the file within that size |
| `Requests.AlikeFinish` | internal/github/client.go:59-130 | an attempt depends on the proposal only through its two branches and the edit of each file |
| `Requests.PassingIsCanonical` | internal/remediation/remediation.go:233-240 | the attempts of passing requests for one change and one branch are alike, whatever their reasons and evidence order |
| `Requests.ForeignFinishIsARun` | internal/github/client.go:59-130 | seen from one head branch, an attempt for another one is only somebody else moving |
| `Requests.RequestsAreARun` | internal/remediation/remediation.go:192-291 | any sequence of requests, for any investigations, is one run of the protocol of any one head branch |
| `Requests.RequestsOpenAtMostOnePull` | internal/remediation/remediation.go:192-291 | over any sequence of requests that ask for one change on one head branch, with any failing calls and saves, at most one pull request is open there, and it shows the edit |
| `Requests.NoPullWithoutPassing` | internal/remediation/remediation.go:236-240 | without a request that passes the gate no pull request appears |
| `Requests.StoredStaysConsistent` | internal/storage/remediation.go:71-93 | over any such sequence everything stored agrees in proposal, decision, pull request and audit, and stays as it was stored |
| `Requests.OpenedIsOpen` | internal/github/client.go:120-129 | an attempt that reports a pull request leaves exactly that one open |
| `Requests.OpenPullIsRecordedAgain` | internal/remediation/remediation.go:239-281 | with a pull request open, the next request changes nothing on GitHub and stores it as created and reused |
| `Requests.LostSaveIsMadeGood` | internal/remediation/remediation.go:277-279 | after a request that opened a pull request and whose save broke off anywhere, the next one stores that very pull request, created and reused, and leaves GitHub as it was |
| `Replicas.InterleavingIsARun` | internal/remediation/remediation.go:192-291 | requests served at the same time, interleaved call by call, are one run of the protocol of any one head branch |
| `Replicas.ReplicasOpenAtMostOnePull` | internal/github/client.go:71-128 | however they interleave, fail or never end, at most one pull request is open for one head branch and one change, and it shows the edit |
| `Replicas.ReplicasKeepTheStore` | internal/storage/remediation.go:71-93 | however they interleave, everything stored agrees in its four parts and stays as stored |
| `Spelling.BranchesAgreeIff` | internal/github/client.go:331-337 | two spellings of IDs share a head branch if and only if both or neither have braces and their first digits agree |
| `Spelling.SpellingsShareABranchIff` | internal/github/client.go:331-337 | two spellings of one ID share a head branch if and only if both or neither have braces |
| `Spelling.BranchOfSpelling` | internal/github/client.go:331-337 | the branch of an ID: the fixed prefix and the first twelve characters of the ID without dashes in lower case, an opening brace among them |
| `Spelling.BranchIsNamedIff` | internal/remediation/remediation.go:293-296 | a head branch passes the service's branch pattern exactly when its ID has no braces |
| `Investigations.TwoRequestsOpen` | internal/github/client.go:71-129 | a second request reuses the first one's pull request if it is for the same head branch and opens another one if it is not |
| `Investigations.InvestigationOpensAtMost` | internal/remediation/remediation.go:192-291 | over any sequence of requests for one investigation and one change at most two pull requests are open, and at most one unless spellings with and without braces are mixed |
| `Investigations.BracesOpenASecondPull` | internal/storage/investigation.go:33-49 | with one request of each spelling, both past the gate, both stored and no call failing, two pull requests are open |
| `Investigations.OnePullPerInvestigationIff` | internal/remediation/remediation.go:205-211 | one investigation and one change keep to one pull request if and only if the spellings are not mixed |
| `Investigations.RecordedAsCreatedUnlessBraced` | internal/remediation/remediation.go:257-263 | a first request that meets no fault opens a pull request under every spelling and stores it as created exactly when the ID has no braces |
| `Witness.PatchAppliesSomewhere` | internal/github/client.go:434-445 | a faithful parser exists together with Helm values, of any greater length, that the patch applies to |
| `Witness.LongEditsStrandTheirBranch` | internal/github/client.go:144-159 | a file of the greatest length that is read, and whose edit is longer, strands its branch |
| `PassingRequest.RequestPasses` | internal/remediation/remediation.go:34-43 | under the service's own patterns a concrete request passes the gate, for every UUID |
| `PassingRequest.TwoPullsForOneInvestigation` | internal/remediation/remediation.go:205-211 | sent under two spellings, with every save succeeding, it ends with two pull requests open for one investigation |
| `EndToEnd.ExecutedRepairMatchesConclusion` | internal/remediation/remediation.go:209-224 | the text that an executed repair replaces is the limit the conclusion names |
| `Verifiers.VerifyOOM` | internal/agent/verify.go:257-288 | the loop's answer is the specified verdict of the roles' last cited records |
| `Verifiers.VerifyImagePull` | internal/agent/verify.go:298-335 | the same, with the agreement of the three records on image and pod |
| `Verifiers.VerifyInvalidOrderConfig` | internal/agent/verify.go:436-480 | the same, with the first log of the crashing pod |
| `Verifiers.VerifyBrokenServiceSelector` | internal/agent/verify.go:559-597 | the same for service routing |
| `Verifiers.VerifyExcessiveCPU` | internal/agent/verify.go:94-131 | the same for latency |
| `Verifiers.VerifyPaymentFailure` | internal/agent/verify.go:133-164 | the same for payment failures |
| `Verdicts.OOMVerdict` | internal/agent/verify.go:257-288 | in terms of the records: component, cause, conclusion and cited IDs of the last cited records of OOM-killed pods and of a limited Deployment, each by tool, source and resource |
| `Verdicts.OOMProvedIff` | internal/agent/verify.go:265-282 | an OOM is proved exactly by a cited record of payments-api pods that shows an OOM kill together with a cited record of its Deployment that shows a limit |
| `Verdicts.ImageVerdict` | internal/agent/verify.go:298-335 | the same for the image cause, with the agreement of the three records |
| `Verdicts.ConfigVerdict` | internal/agent/verify.go:436-480 | the same for the configuration cause, with the first log of the crashing pod |
| `Verdicts.RoutingVerdict` | internal/agent/verify.go:559-597 | the same for service routing |
| `Verdicts.LatencyVerdict` | internal/agent/verify.go:94-131 | the same for latency, with its two thresholds |
| `Verdicts.PaymentVerdict` | internal/agent/verify.go:133-164 | the same for payment failures |
| `Reading.PodsShowOOMIff` | internal/agent/verify.go:696-727 | the pods that show an OOM kill: of the declared type, and with a payments-api container whose last or present state was ended by one |
| `Reading.LimitIs` | internal/agent/verify.go:729-753 | the limit is the text that the first container with the name declares, in an object of the declared type |
| `Reading.NoLimitWithoutContainer` | internal/agent/verify.go:747-752 | without such a container there is no limit |
| `Reading.SelectorIs` | internal/agent/verify.go:599-609 | the selector is the text of its application label, in an object of the declared type |
| `Reading.SlicesAreEmptyIff` | internal/agent/verify.go:611-636 | empty endpoint slices: at least one, all of the payments service, and no endpoint with an address |
| `Verifiers.FindSupportedCause` | internal/agent/verify.go:78-92 | the first cause in the fixed order that is verified |
| `Verdicts.FirstProvedCause` | internal/agent/verify.go:78-92 | the order is OOM, image, configuration, selector, CPU, payment failure, and the first proved cause counts |
| `Verifiers.VerifyClaim` | internal/agent/verify.go:27-72 | a claim is verified by the verifier of the cause that its two texts name, and by no other; a refusal comes with the reason for that claim, or for an unknown cause or component |
| `Verifiers.ReasonIs` | internal/agent/verify.go:32-66 | each of the six claims is refused for its own reason |
| `Citations.LastIffSome` | internal/agent/verify.go:257-288 | overwriting in a loop finds a record exactly when some cited record plays the role |
| `Citations.VerdictDependsOnCitedSet` | internal/agent/verify.go:166-172 | order, repetition and invented IDs of a citation change no verdict, for all six causes |
| `Citations.VerifiedIffRolesFilled` | internal/agent/verify.go:94-164 | four causes are proved exactly when every role has some cited record |
| `Citations.VerdictIsMonotone` | internal/agent/verify.go:257-288 | their verdict survives reordering and growth of records and citation |
| `Citations.ImageVerdictIff` | internal/agent/verify.go:298-335 | the image cause is proved exactly when the last cited pod, Deployment and events records exist and fit together |
| `Citations.OneMoreImageRecord` | internal/agent/verify.go:298-335 | one more cited record keeps a proved image cause if and only if it fits the two records of the other roles |
| `Citations.OneMoreConfigRecord` | internal/agent/verify.go:436-480 | one more cited record keeps a proved configuration cause if and only if it is no crashing pod or its own log is already cited |
| `Citations.ProvedCauseIsJustified` | internal/agent/verify.go:257-335 | a proved cause cites, role by role, a collected and cited record that shows what the role asks |
| `Citations.VerifiedOnOwnEvidence` | internal/agent/verify.go:436-480 | verifying again on the cause's own evidence gives the same cause |
| `Citations.EarlierStaysSilent` | internal/agent/verify.go:78-92 | an earlier verifier that found nothing finds nothing in the smaller evidence |
| `Citations.SupportedOnOwnEvidence` | internal/agent/verify.go:78-92 | the whole search, repeated on the evidence of the cause it found, finds that cause |
| `Briefs.PrioritizeEvidence` | internal/agent/agent.go:319-344 | the two loops compute the specified order |
| `Briefs.PriorityIsAPermutation` | internal/agent/agent.go:319-344 | a permutation: the cause's records first in citation order, the others in their own, and everything in its own order without a cause |
| `Briefs.OwnIDsAreDistinct` | internal/agent/agent.go:330-337 | a cause never cites one record for two roles |
| `Briefs.EvidenceBrief` | internal/agent/agent.go:301-317 | the brief is the header and the cards of the greedy choice |
| `Briefs.BriefIsPacked` | internal/agent/agent.go:304-316 | a subsequence within the bound whenever the header is, and no omitted card would still fit |
| `Briefs.ChosenInOrder` | internal/agent/agent.go:304-315 | card by card in order, each is chosen exactly when it still fits after those chosen before it |
| `Briefs.FittingPrefixIsChosen` | internal/agent/agent.go:311-314 | cards that fit together at the front are all chosen |
| `Briefs.CauseIsShown` | internal/agent/agent.go:301-344 | if header and cause cards fit, all cause cards are in the brief, first and in citation order |
| `Agent.DownstreamUnvisited` | internal/agent/agent.go:221-240 | the workloads strictly below the service that were not seen, in graph order |
| `Agent.Gather` | internal/agent/agent.go:132-174 | at most two targeted collections, along the graph, each only while nothing collected proves a cause; it ends exactly for a proved cause, both rounds over, no workload left, the deadline check of that round, or the next workload failing |
| `Agent.CollectsBelow` | internal/agent/agent.go:132-160 | the targeted collections are of the workloads below the service in the graph, at most two, each with the metric for the alert and the workload |
| `Agent.CollectsAllBelow` | internal/agent/agent.go:132-160 | and of all of them while nothing is proved, the deadline has not passed and every workload answers |
| `Agent.Chat` | internal/agent/agent.go:254-285 | every call is counted, with at most one retry and two calls; the answer is that of the first call, or of the second after one short rate limit, and is lost exactly to a deadline check that is met |
| `Agent.RateLimitIsRetried` | internal/agent/agent.go:271-283 | the provider is asked once more exactly after a rate limit of at most 20 seconds for which there is time, and the reply to the last call counts |
| `Agent.ValidIDs` | internal/agent/agent.go:287-297 | the cited IDs that were collected, each once, by first appearance |
| `Agent.KeepHypotheses` | internal/agent/agent.go:199-211 | the model's hypotheses up to five and up to the first ill-stated one, each with its collected citations, and supported or rejected only if it said so and has any |
| `Agent.Conclude` | internal/agent/agent.go:192-218 | root cause, status and reason agree, the cause is the one its two texts claim, if the cited records prove it, and the hypotheses are the model's without invented IDs |
| `Agent.Investigate` | internal/agent/agent.go:128-219 | every investigation: status, cause and reason agree; IDs and tool calls are those of the collections; calls and retries are counted; the reason is that of the first stop met, and after an answer the report is the judgement of it |
| `Agent.Run` | internal/agent/agent.go:86-127 | every investigation that starts is saved as it ended, and is returned exactly when the save is acknowledged |
| `Agent.InventedIDsChangeNothing` | internal/agent/agent.go:195-212 | the verdict takes nothing from the model but the claim and the set of collected IDs it cites |
| `Agent.ConcludedMeansShown` | internal/agent/agent.go:212-215 | for all six causes, what is reported cites, role by role, records that were collected and cited, that show what the role asks and that fit together |
| `Agent.HonestModelIsBelieved` | internal/agent/agent.go:195-215 | a model that gives the two texts of the supported cause and its evidence is believed |
| `Agent.SupportedCauseIsReported` | internal/agent/agent.go:128-219 | in time and with room in the brief, a model that repeats the supported cause and cites the cards it is shown first gets that very cause reported |
| `Ingest.DecodeWebhook` | internal/httpapi/handler.go:350-398 | a webhook of one to fifty alerts is accepted exactly when every alert is, label by label, and gives one validated signal per alert with its four labels |
| `Ingest.IncidentStore.Upsert` | internal/storage/postgres.go:103-127 | the merge of a signal into the table, column by column, also when its acknowledgement is lost |
| `Ingest.OneRowIff` | internal/storage/postgres.go:110-112 | two signals are about one row exactly when they have one fingerprint and started in one microsecond |
| `Ingest.IncidentStore.Ingest` | internal/httpapi/handler.go:118-133 | one delivery applies the whole batch when it is accepted, and otherwise exactly what came before its first failing upsert, and that one when only its response was lost |
| `Ingest.RedeliveryAddsNothing` | internal/storage/postgres.go:110-120 | whatever was delivered before adds nothing, in any order and number |
| `Ingest.DuplicatesVanish` | internal/storage/postgres.go:110-120 | any log of deliveries is worth its first occurrences |
| `Ingest.AtLeastOnceConverges` | internal/httpapi/handler.go:118-133 | after any broken-off deliveries, one whole delivery leaves the rows of one clean delivery |
| `Ingest.RunsKeepRows` | internal/storage/postgres.go:110-120 | RESOLVED exactly with an end time not before the start; RESOLVED, its time and the labels never change again; no row vanishes |
| `Ingest.ResolvedIff` | internal/storage/postgres.go:114-115 | a row is resolved exactly when it was or a resolved signal for it came |
| `Ingest.RowsAreThoseExpected` | internal/storage/postgres.go:110-120 | merging gives exactly the rows whose labels are those of the first signal, whose end is that of the first resolved one, and whose three trace columns are each the first value sent |
| `Ingest.OrderIrrelevantIff` | internal/storage/postgres.go:110-120 | the order of two signals is irrelevant if and only if they are about different rows or agree on labels and end |
| `Windows.Window` | internal/evidence/evidence.go:70-87 | exactly which incidents get a window; it lasts 90 seconds to one hour and ends by now |
| `Windows.WindowIs` | internal/evidence/evidence.go:70-87 | the window in nanoseconds: from two minutes before the incident, or one hour before the end if that is later, to its end or now |
| `Windows.ValidWindowIff` | internal/investigation/backend.go:374-379 | the backend accepts exactly the windows that are neither empty nor longer than an hour, begin within its last day and end at most half a minute ahead |
| `Windows.BackendAcceptsIff` | internal/investigation/backend.go:374-379 | after truncation to seconds only the two clock conditions can fail |
| `Windows.BackendAcceptsRecentIncidents` | internal/investigation/backend.go:374-379 | a server clock at most 30 seconds behind accepts incidents 2 minutes and 1 second inside its day |
| `Windows.OldestIncidentsAreRefused` | internal/evidence/evidence.go:76-82 | a window that the collector computes and the backend refuses by the same clock |
| `Windows.BackendRefusesOnlyTheOldest` | internal/investigation/backend.go:374-379 | for every pair of clocks, exactly which windows the backend accepts, in terms of the incident's times |
| `History.SortNewestFirst` | internal/investigation/change.go:183-183 | a permutation, newest first |
| `History.ProjectArgoHistory` | internal/investigation/change.go:161-188 | the newest twenty of the deployments in scope: none dropped is more recent than one kept |
| `History.InScopeIff` | internal/investigation/change.go:176-181 | in scope are revisions of 7 to 64 hexadecimal digits deployed at most an hour before the window and half a minute after it |
| `History.OneForEachItem` | internal/investigation/change.go:175-182 | every item in scope counts once |
| `History.NewestRevision` | internal/evidence/collector.go:309-328 | the first revision when it is well formed |
| `History.HistoryContainsRevision` | internal/investigation/change.go:239-255 | true exactly when some deployment has the revision in lower case |
| `History.NewestRevisionIsFollowable` | internal/investigation/change.go:161-255 | of a non-empty selection the revision followed is well formed, a most recent one in scope, and found by the backend |
| `Collection.BuildPlan` | internal/evidence/collector.go:72-90 | the tools of the plan, by mode and workload |
| `Collection.Collecting.RunPlan` | internal/evidence/collector.go:91-134 | the calls made are the plan with its follow-ups, each leaving one record or one failure |
| `Collection.Collecting.CollectChanges` | internal/evidence/collector.go:264-292 | the change calls stop at the first missing link of the chain |
| `Collection.Collecting.Collect` | internal/evidence/collector.go:72-137 | the calls, records and failures of one collection |
| `Collection.Collector.Run` | internal/evidence/collector.go:48-146 | the records are returned exactly when there are any and the table takes them, and only then is anything stored |
| `Collection.CallsAscend` | internal/evidence/collector.go:72-137 | the calls follow one fixed order of the tools, so none is made twice |
| `Calls.CalledIff` | internal/evidence/collector.go:72-137 | tool by tool, it is called exactly when the mode, the workload and what was collected before ask for it |
| `Calls.CalledInOrder` | internal/evidence/collector.go:72-137 | the calls come in this order of the fifteen tools |
| `Calls.EvidenceIs` | internal/evidence/collector.go:159-195 | the evidence is what the called tools gave, with tool and incident, if it has a time and its two lengths pass, in the order of the calls |
| `Calls.FailuresAre` | internal/evidence/collector.go:91-101 | the failures are the other calls, in their order |
| `Collection.EachCallOneOutcome` | internal/evidence/collector.go:294-307 | every call leaves exactly one record or one failure, and nothing else does |
| `Collection.CollectionIsBounded` | internal/evidence/collector.go:72-137 | at most 15 calls, 11 without the change sources, and records of different tools |
| `Collection.NextFitsIff` | internal/storage/migrations/002_evidence.sql:18-18 | the growing table refuses a row exactly when the batch cannot fit |
| `Collection.EvidenceTable.SaveBatch` | internal/storage/evidence.go:16-48 | all rows or none; accepted exactly when the size of the batch, the checks of each record, its incident, the primary key and the unique key allow |
| `Summaries.SummaryIsTooLongIff` | internal/evidence/collector.go:411-489 | a summary is above 512 bytes exactly for the Deployment, application and commit payloads whose copied texts make it so |
| `Summaries.DeploymentSays` | internal/evidence/collector.go:411-489 | a Deployment is summarised by its desired and its available replicas |
| `Summaries.ApplicationSays` | internal/evidence/collector.go:469-470 | an application by its sync status, its health and twelve characters of its revision |
| `Collection.CollectionFitsTheTable` | internal/storage/evidence.go:14-48 | with fresh IDs no collection breaks the batch limit or a unique key; it is refused exactly when it is empty or one payload makes its summary too long |
| `Collection.LongStatusLosesTheCollection` | internal/evidence/collector.go:469-470 | an application whose sync status is longer than 469 bytes makes the store refuse the whole collection |
| `Budget.AtMost35ToolCalls` | internal/agent/agent.go:128-174 | with this collector, no investigation makes more than 35 tool calls |
| `Cleaning.Scrub` | internal/investigation/backend.go:245-263 | the recursive cleaning computes the specified tree |
| `Cleaning.ScrubbedIsClean` | internal/investigation/backend.go:245-263 | no blocked key is left at any depth |
| `Cleaning.ScrubChangesExactlyTheUnclean` | internal/investigation/backend.go:245-263 | what is clean is unchanged and nothing else is, so scrubbing is idempotent |
| `Cleaning.PathsThroughScrub` | internal/investigation/backend.go:245-263 | a path survives exactly when it uses no blocked key, and leads to the same value, scrubbed |
| `Cleaning.DroppedPaths` | internal/investigation/backend.go:251-253 | what the backend hands out: everything behind paths that name none of its twelve blocked keys, and nothing behind one that does |
| `Readers.PodsKept` | internal/agent/verify.go:696-727 | the OOM reading of pods is the same before and after scrubbing |
| `Readers.DeploymentKept` | internal/agent/verify.go:729-753 | so is the memory limit of a Deployment that decodes |
| `Readers.ServiceKept` | internal/agent/verify.go:599-609 | so is the selector of a Service that decodes |
| `Readers.SlicesKept` | internal/agent/verify.go:611-636 | so is the emptiness of endpoint slices that decode |
| `Readers.ScrubbingKeepsTheAnswers` | internal/investigation/backend.go:245-263 | all four, for the keys the backend really blocks |
| `Redaction.RedactValue` | internal/evidence/collector.go:366-388 | the recursive redaction computes the specified tree |
| `Redaction.SafeIffFixed` | internal/evidence/collector.go:366-388 | redaction changes exactly what is not safe |
| `Redaction.RedactionIsIdempotent` | internal/evidence/collector.go:366-388 | and makes it safe, given a rewriting of texts that is idempotent |
| `Redaction.PathsThroughRedaction` | internal/evidence/collector.go:366-388 | every path without a sensitive key leads to the same value, redacted |
| `Redaction.SensitiveFieldsAreMarked` | internal/evidence/collector.go:370-375 | whatever stood under a sensitive key is replaced by the mark |
| `Redaction.CredentialsAreMarked` | internal/evidence/collector.go:370-375 | the six names, in any case of the letters, are those behind which the mark stands; every other text is rewritten in place |

## Left out

- HTTP, TLS, authentication, URL parsing, base64, MCP sessions and the decoding of JSON text: values arrive decoded, with exact key names; Go's case-insensitive matching of keys is not modelled.
- YAML syntax: the parser is an argument, and `Faithful` is assumed of it.  Whether the parser used meets it is not part of this model.
- Regular expressions other than the memory limit, the revision and the branch pattern; the rewriting of texts in redaction is an argument.
- Other reasons for GitHub to refuse a call: they are refused calls of the model, with nothing changed.
- Requests with different new values for one head branch: the theorems are about one change per branch.
- `Client.GitHubClient.CreatePullRequest`: the reported commit is claimed to be the head commit only for an attempt running alone, because the reference is read before the content.  The pull request's address is a function of its number, and the client's own check of it is a refused call; the text of title and body is not modelled.
- `Store.RemediationStore.SaveRemediationEvaluation`: the policy input's own column, timestamps, the encoding and size limit of a stored record and the references to incident and investigation are left out.
- `Service.RemediationService.Request`: the check that the service has its parts is left out.
- `Evaluation.Evaluate`: the policy engine's own errors are left out; the check of its answer is `Evaluation.CheckAnswer`.
- `Agent.Run`: demo mode only; the external profile's verifiers are a smaller variant of the same loops.  Token counts, the validity checks of the report's own save, telemetry and the text of the prompt besides the evidence brief are left out.  The deadline is an arbitrary answer at each place where the code looks at it.
- `Citations.VerifiedIffRolesFilled`: not stated for the image-pull and configuration causes, whose roles depend on each other; `Citations.ImageVerdictIff`, `Citations.OneMoreImageRecord` and `Citations.OneMoreConfigRecord` say what holds of those instead.
- `Verifiers.VerifyOOM`: the fixed sentences of the conclusions are represented by the parts that vary.
- `Collection.Collecting.Collect`: the arguments of the calls and the checks of one record's provenance and size are one answer, refused or not; follow-ups are read by functions given as arguments.
- `Summaries.Summary`: numbers of a payload are whole, and their printed text and a deployment's age are given as arguments.
- `Collection.EvidenceTable.SaveBatch`: two lengths and the date of a record are measured by functions given as arguments; the window columns, and the refusal of a payload that holds the character zero, are left out.
- `Ingest.IncidentStore.Upsert`: generated IDs, the detection and update times and the format checks of the trace columns are left out; text and time types beyond microsecond truncation are not modelled.
- `Cleaning.Scrub`: the original overwrites list elements in place and shares them with its input; the model works on values.
- `Redaction.RedactValue`: the same, and letters outside ASCII have no lower case.
- `History.SortNewestFirst`: which of several deployments of one instant comes first is left open, as it is in the original.
- Language-model wire adapters, prompts, the projections of single payloads for the brief, the demo service, deployment and configuration: plumbing or plain validation.
