# Verification of the form builder

This project models the parts of the multi-tenant form builder that are hardest to get right, and proves
what they guarantee. `dafny verify dfyconfig.toml` checks all of it. Code that changes state is written as
classes and loops and proved against functions; the laws are lemmas about those functions, for every input,
every reachable state or every run.

**Sessions.** `RefreshTokens` is a state machine of the token store: each database call of each request is
one step, and requests interleave freely. `SessionFamilies` and `AccessTokens` hold what it guarantees about
refresh families and token versions, `RequestOutcomes` what each kind of request comes to on any run, `AuthBackend`
the service methods that refine it. `RefreshGate` is the
slot through which the browser refreshes, `PageSession` composes the page with the server, and `LostReplies`
adds what a lost answer costs.

**Deployment.** `Deployments` interleaves the calls of any number of deploys, re-activations and draft edits.
A form document carries its version key, so a save of a stale document fails. `VersionAllocation` and
`PublicRuntime` hold the guarantees; `FormsBackend` has the service methods that refine it, `DeployLoop` the
retry loop, and `DeployRaces` says which of several deploys goes live.

**Editor.** `FormTree` has the form tree and the duplicate check, `ReferenceDedup` the renaming pass,
`CanvasMoves` the drag moves, `EditorHistory` undo and redo, and `FormEditor` adding, deleting, and runs of
the editor.

**Submissions.** `Submission`, `SubmissionsService` and `PublicFormPage` follow a submission from the page
to storage, with the guarded test of patterns in `SafeRegex`; `DataColumns`, `ColumnFaces` and `DataView` are the
data view over all versions, and `CsvExport` its export.

**Tools.** `ScopeCss` is the style sheet compiler, `StyleSheets` the rule trees that it is proved against, and
`ScopedOutput` what its output is, read by braces and commas alone;
`JobQueue` is the queue with its workers, `QueueWorker` one worker's loop. `JsText` and `JsValues` hold the
string operations and values of the host language.

What the model takes for granted: each call of the database or of Redis is atomic and succeeds; random
identifiers are fresh, hashes injective, signatures not forged; a database identifier is a non-empty
hexadecimal string. `generateReference`, the style sheet sanitiser, the regular expression engine (what it
compiles, what it matches), `String(v)`, `toLowerCase` and comparisons of `Number(v)` are parameters, so the
results hold for any such functions; of the sanitiser it is required that it never lengthens its input and, for
the theorem about the output, that it leaves the text and its parts alone.

## Where the code differs from its description

- `SECURITY.md` and `ARCHITECTURE.md` say that a reuse revokes the whole family. A rotation that has consumed
  its token and not yet stored the next one survives (`SessionFamilies.ReuseEndsFamilyIff`,
  `SessionFamilies.ReuseMissesRotation`, `SessionFamilies.ReuseMissesEarlyRotation`).
- A lost answer to a rotation makes the page's next refresh look like a reuse
  (`LostReplies.LostReplyFiresReuseIff`, `LostReplies.LostReplyFires`).
- Fields that link two existing columns of the data view rewire the index: two columns can get one id, and a
  submitted value can then disappear from its row (`DataView.ViewLosesNothingIff`, `DataView.ClashLosesValue`).
- Pushing a snapshot equal to the present one leaves the history but advances the index
  (`EditorHistory.PushRefinesIff`).
- A section cannot be dropped behind the last one, though the canvas offers that place
  (`CanvasMoves.SectionLandingsIff`).
- Adding an element with no zone selected, while the first section has no zone, discards all sections
  (`FormEditor.AddKeepsElementsIff`, `FormEditor.AddDropsSections`).
- Adding a field in front of one with the same reference renames the old field, under whose reference data may
  have been collected (`FormEditor.AddRenamesNoneIff`, `FormEditor.SecondFieldRenamesFirst`).
- The public page demands required fields that conditions hide; the service does not
  (`PublicFormPage.ServiceAcceptsIff`, `PublicFormPage.HiddenRequiredBlocks`).
- The public page passes a malformed pattern over and tests any other; the service refuses every value of a
  field whose pattern is malformed, over 250 characters or nested in its repetitions, and, where there is a
  pattern, every value over 5000 characters. What the page sends is then refused, and a required field with such
  a pattern can never be filled in
  (`PublicFormPage.SentIsAcceptedIff`, `PublicFormPage.PatternsSentAndRefused`,
  `Submission.InvalidPatternShutsField`). The page knows none of the limits on the body either.
- `README.md` and `ARCHITECTURE.md` call concurrent deploys safe. With at most three none gives up on its number,
  but of those that read the form at one revision only the first to save goes live; the others fail and leave
  their versions behind (`VersionAllocation.ThreeConcurrentDeploysDoNotGiveUp`, `DeployRaces.DeployGoesLiveIff`,
  `DeployRaces.SecondSaveFails`).
- The queue's comment promises a delay before a retry; the code pushes the job back at once, and the model
  follows the code.

## Model

| member | source | states |
|---|---|---|
| RefreshTokens.StepKeepsChains | apps/api/src/auth/auth.service.ts:36-365 | one database call of any request, interleaved with any others, keeps the chain invariant: linked chains, live rows only at the newest token, at most one rotation per family and only with no live token |
| RefreshTokens.RunKeepsChains | apps/api/src/auth/auth.service.ts:166-365 | the chain invariant holds along every run of interleaved calls |
| RefreshTokens.ReachableOneMore | apps/api/src/auth/auth.service.ts:36-365 | reachable states are closed under any enabled call, so what is proved of them covers runs of any length |
| SessionFamilies.FamilyBudget | apps/api/src/auth/auth.service.ts:174-223 | in every reachable state a family has, live tokens and rotations between consuming and issuing taken together, at most one |
| SessionFamilies.ChainIsLinear | apps/api/src/auth/auth.service.ts:333-365 | all issued tokens are distinct, each names the one just before it in its family as its parent, and no token was exchanged twice |
| SessionFamilies.OnlyTheNewestIsLive | apps/api/src/auth/auth.service.ts:174-223 | every stored token stands in the chain of its family, and is the newest of it unless it is revoked |
| SessionFamilies.DeadForever | apps/api/src/auth/auth.service.ts:166-238 | a family with no live token and no rotation under way stays so on every run |
| SessionFamilies.DeadFamilyIsRefused | apps/api/src/auth/auth.service.ts:174-214 | at any later time a token of such a family only leads to the reuse lookup, and no row changes |
| SessionFamilies.ReuseEndsFamilyIff | apps/api/src/auth/auth.service.ts:187-211 | the revocation after a detected reuse ends the family exactly when no rotation of it is between its consuming and its issuing call |
| SessionFamilies.ReuseEndsSession | apps/api/src/auth/auth.service.ts:187-211 | in that case no token of the family is ever accepted again |
| SessionFamilies.ReuseMissesRotation | apps/api/src/auth/auth.service.ts:187-223 | a rotation that has read its user when the family is revoked still issues a token, and that token works after the revocation |
| SessionFamilies.ReuseMissesEarlyRotation | apps/api/src/auth/auth.service.ts:187-223 | the same for a rotation that has still to read its user, if the account is active |
| SessionFamilies.RaceStarts | apps/api/src/auth/auth.service.ts:174-223 | such a race starts from any live token that is presented twice, and its steps are all enabled |
| SessionFamilies.RaceContinues | apps/api/src/auth/auth.service.ts:187-223 | the second presentation of the race finds the token revoked while the first has only read its user |
| SessionFamilies.DetectionContinues | apps/api/src/auth/auth.service.ts:187-195 | the lookup of a revoked token leads to the revocation of its family |
| SessionFamilies.RotationContinues | apps/api/src/auth/auth.service.ts:216-223 | a rotation whose user is active goes on to issue |
| AccessTokens.VersionsOnlyGrow | apps/api/src/users/users.service.ts:77-102 | token versions never fall on any run |
| AccessTokens.ReachableVersions | apps/api/src/auth/auth.service.ts:333-345 | every signed or pending user read carries a version at most the stored one, and an equal one only if read since the last raise |
| AccessTokens.TestsAgreeIff | apps/api/src/realtime/realtime.gateway.ts:67-73 | for arbitrary versions the HTTP test and the socket test give the same answer exactly when the versions are equal or the presented one is positive and below the stored one |
| AccessTokens.TestsAgree | apps/api/src/auth/strategies/jwt.strategy.ts:34-43 | on every token signed in a reachable state both tests accept exactly the present version |
| AccessTokens.RaisingOutdates | apps/api/src/auth/auth.service.ts:262-267 | raising the version makes every access token signed from an earlier user read fail the HTTP test |
| AccessTokens.OutdatedForever | apps/api/src/auth/strategies/jwt.strategy.ts:40-43 | a token whose version is below the stored one is rejected on every later run |
| AccessTokens.RevocationIsFinal | apps/api/src/auth/auth.service.ts:262-331 | after a logout of all sessions or a change of password has raised the version, every access token signed from an earlier read, also one signed later by a request then in flight, is rejected for ever |
| AuthBackend.AuthService.FindOneAndRevoke | apps/api/src/auth/auth.service.ts:174-185 | finds an unrevoked, unexpired row and revokes it in one call |
| AuthBackend.AuthService.RevokeManyOfFamily | apps/api/src/auth/auth.service.ts:191-195 | afterwards exactly the tokens of the family have lost the power to refresh, and no other row has changed |
| AuthBackend.AuthService.RevokeManyOfUser | apps/api/src/auth/auth.service.ts:264-264 | afterwards exactly the tokens of the user have lost the power to refresh, and no other row has changed |
| AuthBackend.AuthService.IssueTokenPair | apps/api/src/auth/auth.service.ts:333-365 | signs from the given user read and stores exactly one new live row in the family |
| AuthBackend.AuthService.RegisterUser | apps/api/src/auth/auth.service.ts:36-51 | refines the lookup of a registration |
| AuthBackend.AuthService.ContinueRegistration | apps/api/src/auth/auth.service.ts:53-62 | refines the save of the new account, which the unique index over addresses may turn away |
| AuthBackend.AuthService.Login | apps/api/src/auth/auth.service.ts:87-164 | refines the login call of the protocol, suspended users and wrong passwords included |
| AuthBackend.AuthService.RefreshToken | apps/api/src/auth/auth.service.ts:166-187 | refines the consuming call of a refresh |
| AuthBackend.AuthService.ContinueRefresh | apps/api/src/auth/auth.service.ts:187-223 | refines reuse lookup, family revocation, user check and issue, whichever is next |
| AuthBackend.AuthService.ContinueLogin | apps/api/src/auth/auth.service.ts:333-365 | refines the issuing call of a login or registration |
| AuthBackend.AuthService.Logout | apps/api/src/auth/auth.service.ts:240-260 | refines the logout call: revokes the presented token whatever its state |
| AuthBackend.AuthService.LogoutAll | apps/api/src/auth/auth.service.ts:262-264 | refines the first call of a logout of all sessions |
| AuthBackend.AuthService.ChangePassword | apps/api/src/auth/auth.service.ts:283-311 | refines the check of a change of password |
| AuthBackend.AuthService.ContinueRevocation | apps/api/src/auth/auth.service.ts:266-315 | refines the later calls of a logout of all sessions and of a change of password |
| AuthBackend.AuthService.IncrementTokenVersion | apps/api/src/users/users.service.ts:77-87 | adds one to the version of the user and changes nothing else |
| RequestOutcomes.RegistrationOutcome | apps/api/src/auth/auth.service.ts:36-83 | a registration, on any run: refused at once if the address is taken; else it ends, if it is answered, in the first token of a new account, or it lost the address to another one |
| RequestOutcomes.LoginOutcome | apps/api/src/auth/auth.service.ts:85-164 | a login, on any run: with the right password for an active account it ends, if it is answered, in a token that starts a family and an access token with the version of that moment; in every other case it is refused at once and nothing else changes |
| RequestOutcomes.RefreshOutcome | apps/api/src/auth/auth.service.ts:166-238 | a refresh, on any run: unless the token is stored, unrevoked and unexpired it never gets one; if it is, it is spent for ever, and what an answer may give is a token of the same family, issued for it, for the same account; an active account is not refused, a suspended or absent one is |
| RequestOutcomes.BarredAccountGetsNothing | apps/api/src/auth/auth.service.ts:216-223 | as long as an account is suspended or absent, and no request has read it before: no access token is signed for it, no refresh token stored, no answer gives one, and every rotation for it that is answered is refused |
| RequestOutcomes.BarredRotation | apps/api/src/auth/auth.service.ts:216-220 | a rotation for an account that stays suspended or absent is refused if it is answered |
| RequestOutcomes.LogoutIsFinal | apps/api/src/auth/auth.service.ts:240-264 | a token presented to a logout never buys another pair, at any later presentation on any run, and every other row is as it was |
| RequestOutcomes.LogoutAllOutcome | apps/api/src/auth/auth.service.ts:266-281 | from the first call of a logout of all sessions on, no token that the user had can be exchanged, on any run; once it is done the version has risen, and it is not refused to an account that is there |
| RequestOutcomes.ChangePasswordOutcome | apps/api/src/auth/auth.service.ts:283-331 | a change of password is refused at once, with nothing changed, unless the account is there and the old password right; else it is never refused, and once it is done the version has risen and no token that the user had when it began can be exchanged |
| RequestOutcomes.IssuedForSevenDays | apps/api/src/auth/auth.service.ts:333-365 | an issued token can be exchanged at once and, unless it is revoked or removed, for exactly seven days |
| RequestOutcomes.OthersLeave | apps/api/src/auth/auth.service.ts:36-365 | nobody else moves a request, or changes its answer |
| RequestOutcomes.StepGrows | apps/api/src/auth/auth.service.ts:36-365 | no call moves a token or rewrites a chain; rows of tokens that are out are revoked or removed and not otherwise changed |
| RefreshGate.ApiClient.SetToken | apps/web/src/services/api.ts:47-75 | a token whose expiry can be decoded arms the timer, any other clears it; the slot stays as it is |
| RefreshGate.ApiClient.PerformTokenRefresh | apps/web/src/services/api.ts:114-121 | from a free slot: the page with its promise in the slot is that of a started refresh, and keeps the invariant of the slot |
| RefreshGate.ApiClient.GetOrStartRefresh | apps/web/src/services/api.ts:162-167 | answers the promise of the request in flight, and starts a new one only from a free slot |
| RefreshGate.ApiClient.TimerFired | apps/web/src/services/api.ts:102-108 | starts a refresh only with a token held and a free slot |
| RefreshGate.ApiClient.RefreshSettles | apps/web/src/services/api.ts:123-151 | takes over or drops the token; the slot stays taken until the microtask |
| RefreshGate.ApiClient.RunMicrotask | apps/web/src/services/api.ts:148-150 | clears the slot, with no request in flight |
| PageSession.SingleFlight | apps/web/src/services/api.ts:102-167 | on every run of callers, timers and answers, lost ones included, at most one refresh is outstanding, its promise is the one in the slot, and the slot is never cleared while a request is in flight |
| PageSession.CookieNamesLiveToken | apps/web/src/services/api.ts:114-121 | with answers delivered and no outside revocation, when a refresh may start the cookie is empty or names a live token of the page, the newest of its family |
| PageSession.ReuseNeverFires | apps/web/src/services/auth.service.ts:21-31 | on every such run of page and server together the reuse branch of the server never fires for the page |
| LostReplies.IssuedMeansSpent | apps/api/src/auth/auth.service.ts:174-223 | on every run, when a refresh was answered with a new token, the token it carried is spent |
| LostReplies.NextFiresIff | apps/web/src/services/api.ts:141-144 | after a loss, the next refresh runs into the reuse branch exactly when the stored row of the cookie is revoked |
| LostReplies.LostReplyFiresReuseIff | apps/web/src/services/api.ts:141-144 | delivery is needed: on runs without another loss and without suspended accounts, the next refresh after a lost answer runs into the reuse branch exactly when that answer brought a new token and no login has replaced the cookie |
| LostReplies.LostReplyFires | apps/web/src/services/api.ts:141-144 | such a run from the start: a registration, one rotation, one lost answer, and the reuse branch fires |
| PageSession.ServeKeeps | apps/api/src/auth/auth.service.ts:166-365 | the invariant of page and server together survives every call of the server, whoever made the request |
| PageSession.EventKeeps | apps/web/src/services/api.ts:97-167 | and every event of the page, a lost answer excepted |
| PageSession.RunKeeps | apps/web/src/services/api.ts:97-167 | and so every run on which answers are delivered |
| PageSession.GateOnEveryRun | apps/web/src/services/api.ts:97-167 | the invariant of the slot holds on every run |
| FormTree.ExtractAllElements | packages/shared/src/types/form.ts:424-435 | collects the elements of all zones in reading order |
| FormTree.CheckDuplicateReferences | packages/shared/src/types/form.ts:441-457 | returns each trimmed non-blank key that occurs on at least two data fields, and no other, once |
| FormTree.ScanIsExact | packages/shared/src/types/form.ts:441-457 | the scan behind it is exact on every list |
| FormTree.FlattenSplit | packages/shared/src/types/form.ts:424-435 | reading order is what precedes a zone, the zone, and what follows it |
| FormTree.DataFieldTestsAgree | apps/api/src/submissions/submissions.service.ts:139-149 | the list of what the service excludes and the list of what the editor includes give the same data fields |
| Deployments.StepKeepsVersions | apps/api/src/forms/forms.service.ts:371-489 | every call of every interleaved request keeps: numbers dense, index and versions agree, failed attempts counted by rivals' inserts, one version per request |
| Deployments.ReachableVersions | apps/api/src/forms/forms.service.ts:371-489 | that invariant holds in every reachable state |
| Deployments.CollidedOk | apps/api/src/forms/forms.service.ts:427-433 | a collision proves one more version of the form than the request had counted, so its failure stays accounted for |
| VersionAllocation.NumbersContiguous | apps/api/src/forms/schemas/form-version.schema.ts:38 | in every reachable state the version numbers of a form are exactly 1 to n, each stored once |
| VersionAllocation.VersionsNeverChange | apps/api/src/forms/forms.service.ts:417-426 | no run changes or removes a stored version |
| VersionAllocation.GivingUpNeedsThreeRivals | apps/api/src/forms/forms.service.ts:403-438 | a deploy that gives up was overtaken by inserts of three different other requests on the form between its begin and its end |
| VersionAllocation.ThreeConcurrentDeploysDoNotGiveUp | apps/api/src/forms/forms.service.ts:403-438 | if at most three requests on a form begin while none was allocating, none of them gives up |
| VersionAllocation.GivesUpIff | apps/api/src/forms/forms.service.ts:402-438 | a deploy whose number is taken reads again, with what it has, after its first and second attempt, and gives up after its third |
| VersionAllocation.AttemptsCount | apps/api/src/forms/forms.service.ts:403-408 | attempts are counted from none, one for each read |
| DeployRaces.DeployGoesLiveIff | apps/api/src/forms/forms.service.ts:364-468 | a deploy that reaches its save, whatever calls come between, goes live exactly when the document was not saved since it was read; then the live version and the public form show, field by field, the draft as it was read, the history keeps all earlier entries, and other forms stay; otherwise no form changes and the stored version stays behind |
| DeployRaces.BlockedIff | apps/api/src/forms/forms.service.ts:386-394 | a deploy is blocked exactly when some key is that of two data fields of the sections of the draft, or of the default draft if there is none |
| DeployRaces.OnlyOneGoesLive | apps/api/src/forms/forms.service.ts:403-540 | of two deploys or re-activations that read a form at the same revision at most one goes live, on any run |
| DeployRaces.SecondSaveFails | apps/api/src/forms/forms.service.ts:440-468 | once one of them has gone live, the save of the other fails and changes no form, while its version stays behind |
| DeployRaces.StepCarries | apps/api/src/forms/forms.service.ts:364-468 | no call makes a deploy lose the content and the revision that it read |
| VersionAllocation.RivalBegan | apps/api/src/forms/forms.service.ts:407-434 | when no deploy of a form is allocating, every version stored later is by a request that begins later |
| FormsBackend.FormsService.UpdateDraft | apps/api/src/forms/forms.service.ts:330-369 | refines the draft edit: what the request leaves out keeps its value from the stored or default draft, and the style sheet is sanitised |
| FormsBackend.FormsService.CopyVersion | apps/api/src/forms/forms.service.ts:641-671 | copies a version into the draft under a new title, through the draft update |
| FormsBackend.FormsService.DeployDraft | apps/api/src/forms/forms.service.ts:371-405 | refines the begin of a deploy: the draft or its default, the gate, the elements to be stored |
| FormsBackend.FormsService.FindLatestVersion | apps/api/src/forms/forms.service.ts:409-412 | finds the highest number stored for the form |
| FormsBackend.FormsService.ReadLatestVersion | apps/api/src/forms/forms.service.ts:408-414 | refines the read of an attempt |
| FormsBackend.FormsService.InsertVersion | apps/api/src/forms/forms.service.ts:414-438 | refines the insert: stored, read again, or given up at the third attempt |
| FormsBackend.FormsService.ReactivateVersion | apps/api/src/forms/forms.service.ts:491-516 | refines the begin of a re-activation, or of a deploy of the draft when the version is absent or not one of the form; a malformed identifier changes nothing |
| FormsBackend.FormsService.SaveDocument | apps/api/src/forms/forms.service.ts:440-472 | refines the save: the version goes live at the head of the history, all others retired, and a default draft is stored, unless the document has moved on |
| DeployLoop.VersionNumbers.FindLatest | apps/api/src/forms/forms.service.ts:409-412 | finds the greatest stored number |
| DeployLoop.VersionNumbers.Create | apps/api/src/forms/forms.service.ts:416-433 | stores a number unless the unique index has it |
| DeployLoop.VersionNumbers.AllocateVersion | apps/api/src/forms/forms.service.ts:402-438 | the loop succeeds exactly when some attempt is not overtaken, at the first such one, with the number after all stored by then |
| PublicRuntime.LivePointerAndHistory | apps/api/src/forms/forms.service.ts:440-459 | in every reachable state the head of the history is the one current entry and names the live version, and all entries name existing versions of the form |
| PublicRuntime.DeployedKeysUnique | apps/api/src/forms/forms.service.ts:387-398 | every stored version with sections has no repeated field key and lists exactly its sections' elements |
| PublicRuntime.DraftsDoNotShow | apps/api/src/runtime/runtime.service.ts:47-89 | draft edits, copies into the draft, other forms' deploys and the unsaved part of a deploy leave the public view of a deployed form as it is |
| PublicRuntime.SameLiveSameView | apps/api/src/runtime/runtime.service.ts:47-89 | while the same version is live, body and tag are the same, whatever happened between |
| PublicRuntime.ReactivationRestores | apps/api/src/forms/forms.service.ts:500-550 | re-activating a version, whatever comes between its read and its save, restores exactly the body and tag served before, or fails and changes nothing; it fails exactly when the document was saved in between |
| Deployments.SaveIsPossible | apps/api/src/forms/forms.service.ts:440-472 | in every reachable state a request that has its version can save |
| PublicRuntime.TagNamesVersion | apps/api/src/runtime/runtime.service.ts:68-71 | the text hashed into a tag determines the version |
| PublicRuntime.TagIsStrongValidator | apps/api/src/runtime/runtime.service.ts:68-89 | over a whole run equal tags mean equal bodies, as section 8.8.1 of RFC 9110 demands of a strong validator, and the tag changes exactly when the live version does |
| ReferenceDedup.TakenBound | apps/web/src/features/forms/FormEditorPage.tsx:93-98 | pigeonhole: n taken candidates need n references |
| ReferenceDedup.FreeReference | apps/web/src/features/forms/FormEditorPage.tsx:93-98 | the renaming loop ends with the first free candidate, its counter at most one above the number of references seen |
| ReferenceDedup.DedupIsUnique | apps/web/src/features/forms/FormEditorPage.tsx:81-107 | the pass leaves data fields with pairwise distinct, trimmed, non-blank references |
| ReferenceDedup.DedupOnlyReferences | apps/web/src/features/forms/FormEditorPage.tsx:81-107 | it changes nothing but references of data fields |
| ReferenceDedup.DedupFixesIff | apps/web/src/features/forms/FormEditorPage.tsx:81-107 | it leaves a list alone exactly when the list has such references already |
| ReferenceDedup.FormUnchangedIff | apps/web/src/features/forms/FormEditorPage.tsx:81-107 | the same for whole forms, zones and sections included |
| ReferenceDedup.UniqueMeansNoDuplicates | packages/shared/src/types/form.ts:441-457 | unique references pass the duplicate check |
| ReferenceDedup.DedupTheorem | apps/web/src/features/forms/FormEditorPage.tsx:81-107 | for every form: unique references, no other change, no second effect, and no duplicate for the deploy gate |
| ReferenceDedup.DedupGivesForm | apps/web/src/features/forms/FormEditorPage.tsx:81-108 | on a whole form, every data field gets its own reference, trimmed, or else what its label or name suggests, or else "field": with the first number that no field before it has, if it is taken; every element stays in its zone |
| ReferenceDedup.DedupTwice | apps/web/src/features/forms/FormEditorPage.tsx:81-107 | the pass is idempotent |
| ReferenceDedup.DeduplicateReferences | apps/web/src/features/forms/FormEditorPage.tsx:81-107 | the pass as it runs, returning the old form when nothing was modified, computes that result |
| ReferenceDedup.DeduplicateZones | apps/web/src/features/forms/FormEditorPage.tsx:86-104 | its part for the zones of a section |
| ReferenceDedup.DeduplicateElements | apps/web/src/features/forms/FormEditorPage.tsx:88-103 | its part for the elements of a zone |
| CanvasMoves.HandleMoveElement | apps/web/src/features/forms/builder/FormCanvasHierarchical.tsx:130-174 | the handler with its splices does the specified drop or nothing |
| CanvasMoves.ElementDropIff | apps/web/src/features/forms/builder/FormCanvasHierarchical.tsx:130-176 | a drop moves something exactly when both zones are there and the first has such an element; it takes that element, and a drop past either end of the zone lands at that end |
| CanvasMoves.MoveElementFlat | apps/web/src/features/forms/builder/FormCanvasHierarchical.tsx:130-174 | a move relocates one element in reading order; all others keep theirs |
| CanvasMoves.ElementDropTheorem | apps/web/src/features/forms/builder/FormCanvasHierarchical.tsx:130-174 | a drop permutes the whole form, and with unique references renames nothing |
| CanvasMoves.ElementLandsBeforeTarget | apps/web/src/features/forms/builder/FormCanvasHierarchical.tsx:155-170 | the element lands immediately before the one it was dropped on |
| CanvasMoves.ElementDropUndone | apps/web/src/features/forms/builder/FormCanvasHierarchical.tsx:130-174 | dropping it back where it came from restores the form |
| CanvasMoves.RelocatedIsPermutation | apps/web/src/features/forms/builder/FormCanvasHierarchical.tsx:98-174 | a relocation is a permutation |
| CanvasMoves.HandleMoveZoneAcrossSections | apps/web/src/features/forms/builder/FormCanvasHierarchical.tsx:98-127 | the handler does the specified zone move or nothing |
| CanvasMoves.ZoneDropIff | apps/web/src/features/forms/builder/FormCanvasHierarchical.tsx:98-128 | a zone moves exactly when both sections are there and the first one has it, and a drop past the end lands at the end |
| CanvasMoves.MoveZoneFlat | apps/web/src/features/forms/builder/FormCanvasHierarchical.tsx:98-127 | a zone move relocates one zone, with all it holds, among all zones |
| CanvasMoves.MoveZoneTheorem | apps/web/src/features/forms/builder/FormCanvasHierarchical.tsx:98-127 | it permutes the elements of the form, renames nothing, and can be undone |
| CanvasMoves.HandleMoveSection | apps/web/src/features/forms/builder/FormCanvasHierarchical.tsx:88-95 | the handler moves a section or, past the last index, does nothing |
| CanvasMoves.SectionLandingsIff | apps/web/src/features/forms/builder/FormCanvasHierarchical.tsx:88-95 | a section can be dropped exactly at the places before the last: the drop behind the last section, which the canvas offers, is turned away |
| CanvasMoves.MoveThenDedup | apps/web/src/features/forms/FormEditorPage.tsx:110-121 | from unique references a permutation or a deletion leaves the pass nothing to do |
| FormEditor.HandleAddElementType | apps/web/src/features/forms/FormEditorPage.tsx:379-547 | the handler resolves its place, starts over without one, and inserts the element at the index or at the end |
| FormEditor.AddedInserts | apps/web/src/features/forms/FormEditorPage.tsx:534-547 | an addition at an existing place inserts one element in reading order and touches nothing else |
| FormEditor.AddedExactly | apps/web/src/features/forms/FormEditorPage.tsx:381-545 | the new element comes into the zone given, or else that of the selection, or else the first one, at the index if the zone has it and else at the end, and every other zone stays; without such a zone nothing happens |
| FormEditor.AddKeepsElementsIff | apps/web/src/features/forms/FormEditorPage.tsx:387-425 | an addition keeps the elements of the form exactly when it does not start over or has nothing to lose: with no zone named or selected and a first section without zones, all sections are dropped |
| FormEditor.AddDropsSections | apps/web/src/features/forms/FormEditorPage.tsx:387-425 | a form whose first section has no zone and whose second holds a field: an addition with nothing selected drops both |
| FormEditor.AddRenamesNoneIff | apps/web/src/features/forms/FormEditorPage.tsx:81-121 | adding a field to a form with unique references renames another field exactly when the reference it gets is that of a field behind it |
| FormEditor.SecondFieldRenamesFirst | apps/web/src/features/forms/FormEditorPage.tsx:81-106 | a second text field dropped in front of the first takes over its reference, and the first becomes `text_field_2` |
| FormEditor.DeletionRenamesNone | apps/web/src/features/forms/FormEditorPage.tsx:334-377 | deleting a section, a zone or an element adds nothing, and from unique references renames nothing |
| FormEditor.DeletedExactly | apps/web/src/features/forms/FormEditorPage.tsx:335-378 | a deletion takes what is named out of the place that is named, and leaves every other place as it is |
| FormEditor.ElementsGone | apps/web/src/features/forms/FormEditorPage.tsx:359-378 | the elements with the id are gone, and the others keep their order |
| FormEditor.ZonesGone | apps/web/src/features/forms/FormEditorPage.tsx:344-357 | so are zones |
| FormEditor.SectionsGone | apps/web/src/features/forms/FormEditorPage.tsx:335-342 | and sections |
| FormEditor.OneGone | apps/web/src/features/forms/FormEditorPage.tsx:335-378 | one item with the id is gone, one with another id stays |
| FormEditor.FewerElements | apps/web/src/features/forms/FormEditorPage.tsx:365-365 | deleting an element keeps exactly the elements with other ids |
| FormEditor.EditorStaysDeployable | apps/web/src/features/forms/FormEditorPage.tsx:110-152 | on every run of edits, undo and redo, repeated pushes included, the tree shown is the loaded one or passes the duplicate check |
| FormEditor.EditorUsesHistory | apps/web/src/features/forms/FormEditorPage.tsx:110-152 | with index and list in step, a change, an undo and a redo of the page are those of the bounded zipper, and show its present |
| EditorHistory.StepBackAndForward | apps/web/src/features/forms/builder/useFormBuilderHistory.ts:41-53 | undo then redo, and redo then undo, are the identity |
| EditorHistory.RecordThenUndo | apps/web/src/features/forms/builder/useFormBuilderHistory.ts:20-65 | a new snapshot becomes the present with nothing to redo; undo shows the one before, with the newest of the older ones behind it, fifty in all, and redo brings it back |
| EditorHistory.PushRefinesIff | apps/web/src/features/forms/builder/useFormBuilderHistory.ts:20-39 | a push does what the bounded zipper does exactly when the snapshot differs from the present one or the index is at the last of fifty entries: any other repeated push leaves the list and moves the index |
| EditorHistory.UndoRefines | apps/web/src/features/forms/builder/useFormBuilderHistory.ts:41-53 | undo and redo are the steps of the zipper and keep the index in the list |
| EditorHistory.RunRefines | apps/web/src/features/forms/builder/useFormBuilderHistory.ts:14-58 | on every run without repeated pushes the list is the zipper, and never longer than fifty |
| EditorHistory.FormBuilderHistory.Push | apps/web/src/features/forms/builder/useFormBuilderHistory.ts:20-39 | pushes as specified, and like the zipper on a snapshot that differs |
| EditorHistory.FormBuilderHistory.UndoLast | apps/web/src/features/forms/builder/useFormBuilderHistory.ts:41-46 | steps back in the zipper and returns its present |
| EditorHistory.FormBuilderHistory.RedoNext | apps/web/src/features/forms/builder/useFormBuilderHistory.ts:48-53 | steps forward in the zipper and returns its present |
| EditorHistory.FormBuilderHistory.ResetHistory | apps/web/src/features/forms/builder/useFormBuilderHistory.ts:55-58 | starts a history of one snapshot |
| Submission.ValidateSubmissionPayload | apps/api/src/submissions/submissions.service.ts:40-68 | accepts exactly the bodies within the four limits and without the three forbidden keys, and else reports the first bad key |
| Submission.ValidateFields | apps/api/src/submissions/submissions.service.ts:139-196 | accepts exactly the bodies on which every visible data field is present if required, passes the guarded test of its pattern and is one of its options, and else reports the first failure |
| Submission.BodyAcceptedIff | apps/api/src/submissions/submissions.service.ts:40-196 | the verdict on a body is acceptance exactly when it is within the limits and every field is valid |
| Submission.FieldRefused | apps/api/src/submissions/submissions.service.ts:139-196 | a refusal of the fields is for the first one that is not valid, and for its reason: missing, then format, then options |
| Submission.KeyRefused | apps/api/src/submissions/submissions.service.ts:40-68 | a refusal of the keys is for the first one that breaks a limit, and for that limit |
| Submission.RuleMeans | packages/shared/src/types/form.ts:739-762 | what each operator means: equality up to case and surrounding white space, containment up to case, order as numbers, and emptiness as unset, blank or an empty list |
| Submission.ConditionsMean | packages/shared/src/types/form.ts:728-769 | a field without rules shows; else all or any of its rules decide whether it is shown, or hidden |
| Submission.InvalidPatternShutsField | apps/api/src/common/utils/safe-regex.ts:13-50 | a field whose pattern is too long, dangerous or malformed is valid only where it is hidden, or optional and left empty: a required one can never be filled in |
| SafeRegex.StarOfPlusIsDangerous | apps/api/src/common/utils/safe-regex.ts:6-22 | the pattern check turns a group repeated inside and outside away |
| SafeRegex.RepeatedGroupIsDangerous | apps/api/src/common/utils/safe-regex.ts:6-10 | a group that ends in a repetition and is repeated is dangerous wherever it stands |
| SafeRegex.CountedGroupIsDangerous | apps/api/src/common/utils/safe-regex.ts:6-10 | so is one with an open count behind it |
| SafeRegex.CountedClassIsDangerous | apps/api/src/common/utils/safe-regex.ts:6-10 | and a repeated character class with an open count |
| SafeRegex.DangerousRepeats | apps/api/src/common/utils/safe-regex.ts:6-10 | only patterns with two repetitions, or one and a brace behind it, are dangerous |
| Submission.Canonicalize | apps/api/src/submissions/submissions.service.ts:202-219 | stores, field by field, the resolved values under the field keys |
| Submission.DistinctKeysKept | apps/api/src/submissions/submissions.service.ts:202-219 | with distinct keys every field's resolved value is stored under its key, and nothing for a field without one |
| Submission.NoClobberingIff | apps/api/src/submissions/submissions.service.ts:202-219 | with distinct ids, every submission keeps every field's value exactly when no two fields share a key |
| Submission.CanonicalKeys | apps/api/src/submissions/submissions.service.ts:202-219 | only keys of data fields are stored |
| Submission.GateMakesKeysDistinct | packages/shared/src/types/form.ts:441-457 | a form that the gate lets pass and that has no blank key has distinct keys as they are stored |
| Submission.HideIsShowOpposite | packages/shared/src/types/form.ts:728-769 | hiding on any match is showing when all the opposite rules hold, and the other way round |
| SubmissionsService.Service.Submit | apps/api/src/submissions/submissions.service.ts:70-266 | the checks in their order, the stored record, and the remembered reply |
| SubmissionsService.SubmitIff | apps/api/src/submissions/submissions.service.ts:75-266 | a request that is no repeat is accepted exactly when the form is there, deployed, accepting and below its limit, and the body is within the limits and valid field by field on the live version; then one record of that version is added; else it is refused and nothing changes |
| SubmissionsService.RepliesOfOthers | apps/api/src/submissions/submissions.service.ts:75-89 | a reply is remembered for the form and the key of the request alone, up to white space around the key |
| SubmissionsService.AcceptedSubmission | apps/api/src/submissions/submissions.service.ts:123-226 | in every reachable state of the deployment protocol an accepted submission to a version with sections and no blank keys is valid field by field and stored with exactly the resolved value of each field |
| SubmissionsService.LimitHolds | apps/api/src/submissions/submissions.service.ts:79-113 | any sequence of requests served one after another leaves a form within its limit, as long as the limit is not raised or lifted |
| SubmissionsService.RepeatStoresOnce | apps/api/src/submissions/submissions.service.ts:75-89 | an accepted request repeated under its key, after any other requests and whatever the forms have become, gets the same reply and stores nothing |
| PublicFormPage.HandleSubmit | apps/web/src/features/forms/PublicFormPage.tsx:70-172 | sends a body exactly when no field has a problem, and else shows real problems only |
| PublicFormPage.ProblemIff | apps/web/src/features/forms/PublicFormPage.tsx:84-143 | the page objects to a value exactly when it is missing though required, or set and out of bounds, or else not in form |
| PublicFormPage.PayloadIsExact | apps/web/src/features/forms/PublicFormPage.tsx:153-163 | with distinct keys the body holds each field's value or default, undefined and null left out |
| PublicFormPage.StoredAsSentIff | apps/web/src/features/forms/PublicFormPage.tsx:153-163 | the service stores the body as sent exactly when no field left out has as its id the key of a field sent |
| PublicFormPage.SentIsAcceptedIff | apps/web/src/features/forms/PublicFormPage.tsx:84-163 | a body that the page sends is accepted by the service exactly when it is within the limits and every value that shows and has a pattern is one that the service is ready to test: at most 5000 characters, the pattern valid; given that choices come from the options and no such stray id |
| PublicFormPage.FieldOkIff | apps/web/src/features/forms/PublicFormPage.tsx:84-143 | for the body sent, the service finds a field valid exactly when it is ready to test its value and the page has no objection, or the conditions hide it, or it is out of the bounds that only the page knows and meets its pattern |
| PublicFormPage.ServiceAcceptsIff | apps/web/src/features/forms/PublicFormPage.tsx:84-163 | for a whole form, the verdict on the body, limits included: acceptance exactly when it is within the limits, the service is ready to test its values, and all objections of the page are of those two kinds |
| PublicFormPage.SentAndRefused | apps/web/src/features/forms/PublicFormPage.tsx:127-143 | a pattern that the page passes over or finds met while the service does not let it through: the page sends the body and the service refuses it for its format |
| PublicFormPage.PatternsSentAndRefused | apps/api/src/common/utils/safe-regex.ts:13-50 | the same at a malformed pattern and at a group repeated inside and outside |
| PublicFormPage.HiddenRequiredBlocks | apps/web/src/features/forms/PublicFormPage.tsx:91-100 | a form of one hidden required field, left empty: the page refuses it, the service accepts it |
| DataColumns.AddElementOk | apps/api/src/submissions/submissions.service.ts:362-428 | with no hypothesis every mapped key is an alias of its column, ids and references included, and all keys of the field are mapped |
| DataColumns.ColumnsAreSound | apps/api/src/submissions/submissions.service.ts:357-428 | with no hypothesis keys that share a column are connected by id and reference links |
| DataColumns.StepIsCorrectIff | apps/api/src/submissions/submissions.service.ts:379-398 | one field keeps columns equal to components exactly when it does not take its reference out of a column with other keys |
| DataColumns.ComponentsIff | apps/api/src/submissions/submissions.service.ts:340-428 | columns are the connected components after every field exactly when no field of the run does that |
| DataColumns.AliasesIff | apps/api/src/submissions/submissions.service.ts:387-427 | the aliases of each column are exactly the keys it owns after every field exactly when no field links two columns and at most one has neither id nor reference |
| DataColumns.ColumnsAreComponents | apps/api/src/submissions/submissions.service.ts:340-428 | if no field links two columns: columns are components, with disjoint aliases and distinct ids |
| DataColumns.CorrectIff | apps/api/src/submissions/submissions.service.ts:340-428 | a sound table has the components exactly when it respects every single link |
| DataColumns.ExactMeansDisjoint | apps/api/src/submissions/submissions.service.ts:387-427 | exact aliases are disjoint, and column ids distinct |
| ColumnFaces.ViewShows | apps/api/src/submissions/submissions.service.ts:379-452 | on any versions and submissions: each column of fields is headed by the label, or else the name, of the last field that joined it and has one, or else by its first key; it has the kind of its last field, the last reference, and the keys of its fields in the order they came up; columns are numbered by their first fields, a key leads to the column of the last field that has it, and every other submitted key has a plain column of its own |
| ColumnFaces.HomeLaw | apps/api/src/submissions/submissions.service.ts:387-396 | a field joins the column of the last field with its id, or else of the last one with its reference, or else a new column behind all others |
| ColumnFaces.ColumnsShow | apps/api/src/submissions/submissions.service.ts:387-427 | the same for the fields alone, by induction over the list |
| DataView.ResolveCell | apps/api/src/submissions/submissions.service.ts:454-465 | the first value set under id, reference and aliases in order, or the empty string |
| DataView.ResolveIs | apps/api/src/submissions/submissions.service.ts:461-476 | a column shows the value under its id, or else under its reference, or else under the first alias that is set |
| DataView.BuildRow | apps/api/src/submissions/submissions.service.ts:451-466 | the row of a submission, later columns over earlier ones of the same id |
| DataView.ColumnShowsValue | apps/api/src/submissions/submissions.service.ts:451-466 | with no hypothesis a set value makes its column resolve to a set value of an alias, to itself if it is the only one |
| DataView.CellEmptyIff | apps/api/src/submissions/submissions.service.ts:451-466 | the cell of a key is empty exactly when no alias of the last column with that id is set |
| DataView.NeverLosesIff | apps/api/src/submissions/submissions.service.ts:451-466 | no submission ever loses what it has under a key exactly when the key is an alias of the last column with the id of its own column |
| DataView.ViewLosesNothingIff | apps/api/src/submissions/submissions.service.ts:340-466 | for all versions and submissions: no value ever disappears exactly when that holds for every key |
| DataView.DistinctIdsShowAll | apps/api/src/submissions/submissions.service.ts:430-466 | if the final column ids are distinct, every set value of every submission makes its cell show a set value of an alias, itself if it is the only one |
| DataView.NoValueLost | apps/api/src/submissions/submissions.service.ts:430-466 | the same if no field links two columns |
| DataView.ViewUnitesOnlyLinked | apps/api/src/submissions/submissions.service.ts:340-443 | with no hypothesis two keys in one column of the view are connected by links of the versions |
| DataView.ClashLosesValue | apps/api/src/submissions/submissions.service.ts:381-398 | it does fail: a form with three field versions where two columns get one id and a value vanishes |
| DataView.AddEntriesKeep | apps/api/src/submissions/submissions.service.ts:430-443 | columns for unknown submitted keys leave known ones alone, and every submitted key is mapped |
| DataView.LastColumnShows | apps/api/src/submissions/submissions.service.ts:465-465 | the last column of an id shows in the row |
| DataView.RowKeys | apps/api/src/submissions/submissions.service.ts:461-476 | a row has a cell for each column id, and no others |
| DataView.Accumulator.AddField | apps/api/src/submissions/submissions.service.ts:362-427 | the loop body on column objects refines the table |
| DataView.Accumulator.Merge | apps/api/src/submissions/submissions.service.ts:387-402 | joining a column updates it in place and leaves the others |
| DataView.Accumulator.Insert | apps/api/src/submissions/submissions.service.ts:403-426 | a new column is added for an unknown field |
| DataView.Accumulator.AddExtra | apps/api/src/submissions/submissions.service.ts:434-442 | and for an unknown submitted key |
| DataView.BuildColumns | apps/api/src/submissions/submissions.service.ts:340-443 | the whole accumulation over versions, draft and submissions computes the table |
| ScopeCss.ScopeCss | apps/web/src/features/forms/builder/scopeCss.ts:7-107 | the loops and the recursion end and compute the specified output |
| ScopeCss.FindBlockEnd | apps/web/src/features/forms/builder/scopeCss.ts:92-98 | the brace counter stops where the block ends |
| ScopeCss.RunRules | apps/web/src/features/forms/builder/scopeCss.ts:38-104 | the loop over rules |
| ScopeCss.RulesQuiet | apps/web/src/features/forms/builder/scopeCss.ts:44-58 | a comment at the cursor is skipped up to its end, an open one ends the output, and so does a rest without a block |
| ScopeCss.CloseIsFirst | apps/web/src/features/forms/builder/scopeCss.ts:47-50 | a comment ends at the first end mark |
| ScopeCss.EmitRule | apps/web/src/features/forms/builder/scopeCss.ts:58-103 | the text of one rule |
| StyleSheets.Parse | apps/web/src/features/forms/builder/scopeCss.ts:38-98 | every balanced text is the text of a well-formed rule tree |
| StyleSheets.ScopedPrints | apps/web/src/features/forms/builder/scopeCss.ts:7-107 | the text of any well-formed tree compiles to the printed form of the tree, at any nesting depth |
| StyleSheets.ScopeCssCorrect | apps/web/src/features/forms/builder/scopeCss.ts:7-107 | so on every balanced style sheet without comments that the sanitiser leaves alone the output is that of its rule tree |
| ScopedOutput.OutputIsScoped | apps/web/src/features/forms/builder/scopeCss.ts:7-107 | on every style sheet that is balanced and without comments once sanitised, read by braces and commas alone: the output has the frames, fonts and imports as they were, the groups with their insides under the scope, and each other rule that has a selector and declarations with its declarations and its selectors under the scope, in order; and no selector outside frames, fonts and imports lacks the scope |
| ScopedOutput.CompiledIsConfined | apps/web/src/features/forms/builder/scopeCss.ts:15-31 | any output that is the source under the scope in this sense confines its selectors, inside groups too |
| ScopedOutput.PrefixedAs | apps/web/src/features/forms/builder/scopeCss.ts:15-31 | what follows the scope: nothing exactly for the root, `&` and the scope itself, the rest behind a leading `&`, and else a space and the trimmed selector |
| ScopedOutput.SplitParts | apps/web/src/features/forms/builder/scopeCss.ts:17-18 | the selectors of a list are what stands between its commas |
| ScopedOutput.SanitisedFirst | apps/web/src/features/forms/builder/scopeCss.ts:8-10 | what is compiled is what the sanitiser makes of the style sheet |
| StyleSheets.SelectorsScoped | apps/web/src/features/forms/builder/scopeCss.ts:14-31 | every printed selector stems from one of the source and starts with the scope |
| StyleSheets.PrintBalanced | apps/web/src/features/forms/builder/scopeCss.ts:34-104 | the output is balanced again |
| StyleSheets.BlockSplits | apps/web/src/features/forms/builder/scopeCss.ts:61-69 | inside a block that is closed, the brace counter splits the text into a balanced body and a balanced rest |
| StyleSheets.RulesPrint | apps/web/src/features/forms/builder/scopeCss.ts:38-104 | from any position where the text of a tree starts the loop prints that tree |
| JobQueue.StepKeepsJobs | apps/api/src/infrastructure/queue/queue.service.ts:43-146 | every step of any worker keeps: each dispatched job in exactly one place, its attempts the starts of its handler |
| JobQueue.JobsConserved | apps/api/src/infrastructure/queue/queue.service.ts:43-146 | in every reachable state dispatched jobs are queued, in flight, done or dead, each once, and no handler was started more than three times for a job |
| JobQueue.FirstInFirstOut | apps/api/src/infrastructure/queue/queue.service.ts:85-131 | what was queued, followed by what was pushed, comes out in that order, for any number of workers |
| JobQueue.TakenInTurn | apps/api/src/infrastructure/queue/queue.service.ts:85-93 | a job with k ahead is the one taken by pop k + 1 |
| JobQueue.RunIsBounded | apps/api/src/infrastructure/queue/queue.service.ts:102-131 | without new jobs every run is finite, its handler starts within the attempts left |
| JobQueue.FreshJobsDrain | apps/api/src/infrastructure/queue/queue.service.ts:85-146 | n fresh jobs take at most 9n steps and 3n handler starts, and at rest every dispatched job is done or dead |
| JobQueue.StepWorks | apps/api/src/infrastructure/queue/queue.service.ts:102-131 | every step of a worker leaves less work |
| QueueWorker.QueueService.Dispatch | apps/api/src/infrastructure/queue/queue.service.ts:43-57 | the job comes out after all that are queued already |
| QueueWorker.QueueService.RegisterHandler | apps/api/src/infrastructure/queue/queue.service.ts:38-41 | from then on jobs of the kind are run, and jobs of other kinds fare as before |
| QueueWorker.HandledIff | apps/api/src/infrastructure/queue/queue.service.ts:102-146 | a handled job is in exactly one list: dead exactly without a handler or after its third failure, done exactly on success, else queued again |
| QueueWorker.QueueService.ProcessJobMessage | apps/api/src/infrastructure/queue/queue.service.ts:102-131 | no handler, success, retry below three attempts, dead letter: as specified |
| QueueWorker.QueueService.ProcessQueueLoop | apps/api/src/infrastructure/queue/queue.service.ts:85-100 | the loop does its rounds one after another |
| QueueWorker.RoundIsRun | apps/api/src/infrastructure/queue/queue.service.ts:85-131 | a round of an undisturbed worker is a run of the protocol with the same effect |
| QueueWorker.LoopDrains | apps/api/src/infrastructure/queue/queue.service.ts:85-131 | 3n rounds of one worker settle n fresh jobs whatever the handlers do |
| CsvExport.HandleExportCsv | apps/web/src/features/forms/detail/sections/DataSection.tsx:140-159 | the export writes header and numbered rows, and its text reads back as exactly that grid |
| CsvExport.GridReadsBack | apps/web/src/features/forms/detail/sections/DataSection.tsx:143-159 | a reader following section 2 of RFC 4180 recovers any grid of strings, quotes, commas and line breaks included |
| CsvExport.ExportIsLossless | apps/web/src/features/forms/detail/sections/DataSection.tsx:143-159 | it recovers every header and every cell of every export |
| CsvExport.GridAt | apps/web/src/features/forms/detail/sections/DataSection.tsx:143-155 | the grid is the header line and one line per row: its number from 1, its date, its version, its cells |
| CsvExport.HeaderAt | apps/web/src/features/forms/detail/sections/DataSection.tsx:143 | the header line: three fixed columns, then the caption of each column, or its id |
| CsvExport.DoubledReadsBack | apps/web/src/features/forms/detail/sections/DataSection.tsx:144-156 | doubling quotes is undone by the reader |
| JsText.TrimIff | apps/web/src/features/forms/FormEditorPage.tsx:92-92 | the trimmed text is the one text without white space at its ends that is left when white space is taken off both ends |
| JsText.DecimalInjective | apps/web/src/features/forms/FormEditorPage.tsx:97-97 | different counters have different numerals |

## Left out

- SessionFamilies.ReuseEndsSession: needs that no rotation is in flight, see `ReuseEndsFamilyIff`.
- PageSession.ReuseNeverFires: one page, answers delivered, no logout and no revocation of the page's family from outside; each hypothesis is needed for some run.
- AccessTokens.RevocationIsFinal: says nothing about refresh tokens, since a rotation in flight may still store one after a logout of all sessions.
- StyleSheets.ScopeCssCorrect: for texts that are balanced and free of comments; on others `ScopeCss.ScopeCss` still states the exact output. Selectors are split at every comma, also inside `:is(...)`, as in the code. The inner selectors are scoped in plain rules and in `@media` and `@supports`; any other at-rule but `@keyframes`, `@font-face` and `@import`, such as `@container` or `@layer`, and text after a `@charset ...;`, counts as a plain rule as in the code: its prelude gets the prefix and the selectors in it stay as they are.
- ScopedOutput.OutputIsScoped: for a scope that is one selector, not blank and without braces and commas, as the pages pass it, and for texts that are balanced and free of comments once sanitised.
- EditorHistory.RunRefines: pushes that repeat the present snapshot are excluded; `FormEditor.EditorStaysDeployable` covers them.
- FormsBackend.FormsService.UpdateDraft: reads the form and saves it in one call, in the code two; two overlapping updates, of which the later save wins with what it had read, are not modelled.
- FormsBackend.FormsService.CopyVersion: likewise one call for its reads and its save.
- Submission.ValidateFields: error texts are not modelled, only the reason and the field; lengths count characters, not UTF-16 units.
- SubmissionsService.Service.Submit: requests are served one after another, as the limit and the repeated key are both checked before they are acted on and do not hold under interleaving; expiry of remembered replies, activities and the webhook are not modelled.
- PublicFormPage.HandleSubmit: the network call is not modelled; lengths count characters, not UTF-16 units.
- CsvExport.HandleExportCsv: dates arrive formatted and values as strings; searching, filtering and sorting of the rows are not modelled.
- LostReplies.LostReplyFiresReuseIff: a suspended account also makes a refresh spend its token without a new one; `LostReplies.NextFiresIff` states the condition for every run. The row of the cookie must still be stored, as the database removes it a week after its expiry.
- QueueWorker.QueueService.ProcessQueueLoop: `rounds` stands for the number of turns until the service is stopped, and Redis calls do not fail.
- JobQueue.JobsConserved: every Redis call succeeds and no process dies with a job in hand; the in-process fallback without Redis is not modelled.
- FormEditor.HandleAddElementType: the default caption, options and validation of each element type come in with the new element.
- CanvasMoves.HandleMoveSection: the dragged index is that of a section; the code, given a stale index past the end, inserts an undefined section. Selection and drag events are not modelled.
- The callers of the refresh slot in the page's request helper, its retry after a 401 included: each is one call of `GetOrStartRefresh`.
- The rooms that the gateway joins on a connection, and `formatSubmissionData`.
- Versions and drafts that hold a flat list of elements and no sections are modelled in `Deployments`, `Submission` and `SubmissionsService`; the data view takes the list of elements of each version as given.
- The If-Modified-Since answer of the public controller, and the body of forms that are not deployed, whose date changes under a fixed tag.
- Saves of settings, version comparison, zone widths, audit log, guards, mail, storage and health checks: plumbing or easy members.
- Bcrypt, the format of tokens, address checks of webhooks and regular expression engines, as said above parameters.
