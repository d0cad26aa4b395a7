# bleeplab: a verified model of its protocols

This project models the stateful parts of bleeplab, the GitLab-compatible CI control plane, and
proves what they promise over every run. `dafny verify dfyconfig.toml` checks all of it.

**Scheduler** (`Scheduler`, `SchedulerRuns`, `SchedulerTheorems`, `SchedulerOutcomes`,
`SchedulerLaunch`, `SchedulerFate`, `SchedulerProgress`, `SchedulerDependencies`, `SchedulerReopen`,
`ControlPlane`). `Scheduler` has one function per critical section of the server.
`ControlPlane.Server` is the server object, whose methods loop and assign as the source does and are
proved equal to those functions. `SchedulerRuns` interleaves the sections in any order, by any
number of runners: a job taken from the queue is not yet running, and a written status is not yet
rolled up. The runner assumption is the predicate `Enabled`: a runner reports only on a job it was
handed, only running, success or failed, perhaps repeatedly, and never takes a final state back.
`Reachable` states are those at the end of any such run, and `Inv` holds in all of them.

**Shared logout store** (`LogoutStore`, `LogoutRefinement`, `LogoutReach`, `LogoutReplay`,
`LogoutAnswers`, `LogoutLimit`). Replicas share a directory of session and logout-claim files. With
atomic calls on one clock, the store that discards what has expired is compared, answer by answer,
with a ledger that never discards. Then the calls are taken apart into list, read, remove, create,
write, link and unlink steps over names and inodes, with crashes anywhere. Logout tokens carry whole
Unix seconds and pass the handler's own checks before they reach the store.

**Trace upload** (`JobTrace`), **object-store files and artifacts** (`S3File`, `Artifacts`), **CI
configuration** (`CIConfig`), **log rendering** (`LogViewer`, `LogStyles`) and **tokens**
(`Tokens`).

The laws that say what a specification function does are stated in the fields of its arguments and
results, not through the function.

## Where the code and its documentation differ

The model follows the code.

- `pipeline.go:96-98` says a failed job fails the whole pipeline. A sibling's later success re-opens
  it when its stage is done and a later stage waits. `SchedulerReopen.FailedPipelineMaySucceed` is a
  run that ends in success with a failed job. `SchedulerTheorems.SuccessReportFate` says exactly which
  report re-opens a failed pipeline, `SchedulerFate.ReopenIff` exactly when some run still can.
- The repository's own `README.md` says a back-channel logout revokes the matching sessions. A session
  created between a token's issue time and its receipt can outlive the claim:
  `LogoutRefinement.LateSessionReturns` is such a run, `LogoutRefinement.CollectionInvisibleIff` the
  exact condition. A lookup that lasts past the expiry of the claim can also miss it:
  `LogoutLimit.SlowLookupMisses` is such a run, `LogoutReplay.RevocationHolds` covers all others.
- `ciyaml.go:143` says nested sequences are flattened one level; they are flattened at every depth.
- `store.go:58-59` says an empty dependency list means the default; an explicit empty list means none.
- `pipeline.go:136-138` says the most recent pipeline is marked; the loop covers every pending
  pipeline of the project, and there never is one.

## Model

| member | source | states |
|---|---|---|
| SchedulerRuns.StepKeeps | runner_api.go:99-163 | every step of every interleaving keeps the server invariant: ids, queue, stage placement, current stage, wake-up, reports |
| SchedulerTheorems.ReachableInv | pipeline.go:9-147 | the invariant holds in every reachable state |
| SchedulerRuns.RefreshIsIdle | pipeline.go:136-147 | refreshing pending pipelines never changes anything, because no stored pipeline is pending |
| SchedulerTheorems.NoLostWakeUp | runner_api.go:157-163 | a running pipeline always has a queued, claimed or running job in its current stage, or a report still to be rolled up |
| SchedulerTheorems.StageBarrier | pipeline.go:114-130 | once a job has left created, every job of a stage that first occurs earlier is finished |
| SchedulerTheorems.ExactlyOnceFifo | pipeline.go:61-94 | jobs are handed out in enqueue order; no id is enqueued or handed out twice; the rest of the queue is pending |
| SchedulerTheorems.HistoryGrows | pipeline.go:69-94 | over a run, the lists of enqueued and handed-out jobs only grow at their ends |
| SchedulerTheorems.IdsNeverClash | server.go:52-58 | ids are unique across projects, runners, pipelines and jobs; a job token names one job; a new runner never overwrites one |
| SchedulerTheorems.EverythingResolves | pipeline.go:115-119 | listed, queued and reported ids resolve; no stage list is empty; no stored pipeline is pending |
| SchedulerTheorems.SuccessReportFate | pipeline.go:113-130 | a success report moves a pipeline out of failed if and only if the checked stage is done and a later listed stage still waits; then it runs |
| SchedulerTheorems.FailedStays | pipeline.go:109-112 | over any run without a success roll-up for it, a failed pipeline stays as it is and releases no job |
| SchedulerTheorems.FailurePermanent | pipeline.go:72-81 | a failure after every listed job was released is permanent, whatever is reported later |
| SchedulerOutcomes.ReleaseOutcome | pipeline.go:57-82 | a release takes exactly the waiting jobs of the next populated stage, marks them pending, queues them in pipeline order and runs the pipeline there; with no such stage it completes the pipeline unless it failed; nothing else changes |
| SchedulerOutcomes.FailureOutcome | pipeline.go:105-112 | in any reachable state, a rolled-up failure fails the pipeline at once and changes nothing else |
| SchedulerOutcomes.SuccessOutcome | pipeline.go:113-133 | a rolled-up success changes nothing while the stage has an unfinished job; otherwise it releases from the next position on |
| SchedulerOutcomes.FailedIff | pipeline.go:99-134 | over any run, a pipeline is failed at the end if and only if one of its failed reports was rolled up and no later success report found its stage done with a later stage waiting |
| SchedulerLaunch.LaunchOutcome | pipeline.go:9-55 | a new pipeline has the configured stages and jobs in order, starts at the first stage that has a job with that stage queued in order, and leaves everything else alone |
| SchedulerLaunch.CarriesConfiguration | pipeline.go:14-48 | over any run, each pipeline and each of its jobs carries the project, stages, spec and token it was created with |
| SchedulerFate.ReopenIff | pipeline.go:72-130 | in any reachable state, some continuation takes a failed pipeline out of failed if and only if a listed job is unreleased and some released job of the pipeline has not failed |
| SchedulerFate.StatusMoves | runner_api.go:120-163 | a start makes its pending job running, a report writes its state over running, a release may make a created job pending; no other step touches a status |
| SchedulerReopen.FailedPipelineMaySucceed | pipeline.go:96-130 | a reachable state in which a pipeline with a failed job has ended in success |
| SchedulerProgress.StepMeasure | runner_api.go:106-163 | claiming, starting, a first final report and a roll-up each decrease the work left; a duplicate report adds at most one roll-up; other steps but a creation add nothing |
| SchedulerProgress.ProgressBounded | pipeline.go:57-134 | over any run without new pipelines, progress steps are bounded by the work at the start plus the duplicate reports |
| SchedulerProgress.ProgressPossible | runner_api.go:106-119 | while any job or report is in flight and a runner is registered, a progress step that needs no failure is possible |
| SchedulerProgress.FailureFreeSuccess | pipeline.go:50-134 | a failure-free run at rest leaves every pipeline in success and every listed job successful and handed out once; unlisted jobs stay created |
| SchedulerProgress.MaximalRunSucceeds | pipeline.go:50-134 | a failure-free run that can make no further progress, with a runner registered, has brought every pipeline to success |
| SchedulerDependencies.DependenciesComplete | runner_api.go:231-282 | a released job is told, in pipeline order, of exactly the artifact-bearing jobs of earlier stages, only the named ones if its list is explicit, each with its own name, token, file name and size; each is finished and its size is the stored byte count unless an upload is in flight |
| SchedulerDependencies.DependencyMembers | runner_api.go:254-280 | the loop lists a job if and only if it is needed, with its own name, token, file name and size |
| SchedulerDependencies.ReachableSizes | artifacts.go:165-180 | with serialized uploads, a job's recorded size is its stored byte count, or zero without an upload |
| SchedulerDependencies.ExplicitEmptyList | ciyaml.go:120-121 | an explicit empty dependency list survives parsing and downloads nothing |
| ControlPlane.Server.CommitConfig | projects_api.go:48-69 | the commit's last action on the CI file, if any, replaces the configuration of an existing project |
| ControlPlane.CommittedLaw | projects_api.go:49-53 | the last action on the CI file decides, and without one the configuration stays |
| ControlPlane.Server.NewRunnerLocked | runner_api.go:83-89 | a runner gets the next id and the token minted from it |
| ControlPlane.Server.EnqueueStageLocked | pipeline.go:57-82 | the nested loops release exactly the first later stage with waiting jobs, in order, or complete the pipeline unless it failed |
| ControlPlane.Server.ReleaseStage | pipeline.go:59-71 | the stage's waiting jobs, and no others, become pending and are appended in pipeline order |
| ControlPlane.Server.CreatePipelineLocked | projects_api.go:101-123 | unknown project and unparsable configuration change nothing; otherwise the pipeline, its jobs and its first stage appear at once |
| ControlPlane.Server.AddPipelineLocked | pipeline.go:14-48 | the pipeline takes one fresh id and its jobs the following ones in order, all created |
| ControlPlane.Server.DequeueJobLocked | pipeline.go:85-94 | the first queued id that resolves, and the rest of the queue |
| ControlPlane.Server.OnJobTerminal | pipeline.go:99-134 | a failure fails the pipeline, a success advances it exactly when its checked stage is done, anything else does nothing |
| ControlPlane.Server.RefreshPipelines | pipeline.go:139-147 | in any map order, exactly the project's pending pipelines change |
| ControlPlane.Server.BuildDependenciesLocked | runner_api.go:231-282 | the loop with its five skips builds the dependency list, empty for a job of an unlisted stage |
| ControlPlane.Server.HandleJobRequest | runner_api.go:99-126 | unknown runner, empty queue and hand-out, each with the exact new state |
| ControlPlane.Server.HandleJobUpdate | runner_api.go:143-165 | unknown job and wrong token change nothing; otherwise a non-empty full trace replaces the stored one, and the status is written and rolled up |
| LogoutRefinement.VisitAgreesIff | shauth_state.go:68-97 | a session lookup answers as the never-discarding ledger if and only if the session has not outlived every claim that covered it |
| LogoutRefinement.LapsedIsLate | shauth.go:669-672 | claims lapse before a session only if it was created after a token's issue time and by its receipt |
| LogoutRefinement.CollectionInvisibleIff | shauth_state.go:68-212 | over any run, discarding expired sessions and claims changes no answer if and only if no visit is to a session that was covered, was not visited while a covering claim was live, and has outlived all of them |
| LogoutRefinement.LapsedIffOutlived | shauth_state.go:175-212 | the store still holds a session past its claims exactly if, by the events of the run, it outlived them unvisited |
| LogoutRefinement.CollectionInvisible | shauth_state.go:68-212 | over any run in which visited sessions' claims are timely, discarding expired sessions and claims changes no answer, of lookups or of logout tokens |
| LogoutRefinement.RunKeeps | shauth_state.go:115-212 | the simulation between store and ledger survives any run |
| LogoutRefinement.LateSessionReturns | shauth.go:662-681 | a run in which the handler accepts a logout token, and a session created inside its acceptance window is admitted again after the claim expires |
| LogoutRefinement.LaterSessionAdmitted | shauth_state.go:201-209 | over any run, a session created after all earlier claims were received is admitted until it expires, even if it reuses a sid, unless a later event ends it |
| LogoutReach.LogoutReaches | shauth_state.go:201-209 | over any run, after an accepted token no visit before its claim expires admits a session of its issuer and client that was created by the receipt and has its sid, or its subject if the token has no sid |
| LogoutReach.OthersUnreached | shauth_state.go:198-209 | a token changes no answer for a session that differs in issuer, client or the deciding sid or subject, or was created after its receipt |
| LogoutReach.ValidIDMeaning | shauth_state.go:214-217 | a session id without line breaks is valid exactly if it is 43 characters of the URL-safe alphabet |
| LogoutReach.LineBreaksIgnored | shauth_state.go:214-217 | a line break anywhere in an id does not affect its validity |
| LogoutStore.ScanMeaning | shauth_state.go:180-211 | in any listing order, revoked exactly if a listed live claim covers the session; only expired claims are removed |
| LogoutStore.Store.CreateSession | shauth_state.go:52-66 | of four candidates the first unused names the session; nothing is replaced; failure only if all exist |
| LogoutStore.Store.SessionRevoked | shauth_state.go:175-212 | the scan with its removals and early exit |
| LogoutStore.Store.Lookup | shauth_state.go:68-97 | invalid, missing, expired, revoked and admitted sessions, each with the exact new state |
| LogoutStore.Store.RemoveSessions | shauth_state.go:115-149 | exactly the sessions of the issuer and client with the sid, or with the subject if no sid is given, are removed |
| LogoutStore.Store.TryClaim | shauth_state.go:151-173 | a live claim of the same token refuses; an expired or missing one is replaced, stamped with the receipt time |
| LogoutStore.BackChannelLogout | shauth.go:646-690 | incomplete claims, stale and used tokens leave the store alone, each with its reply; otherwise the token's claim is stored with its receipt and retention times |
| LogoutStore.SignIn | shauth.go:409-416 | the stored session never lives longer than eight hours from its creation |
| LogoutReplay.AtomicVisibility | shauth_state.go:224-255 | at every step of any writers with crashes, every non-dot name holds one complete record of its own kind |
| LogoutReplay.NeverOverwritten | shauth_state.go:251-253 | over any run, a record that has had a visible name never changes afterwards, and keeps that name until a step removes that very name |
| LogoutReplay.CrashLeavesDotFile | shauth_state.go:226-237 | a writer that dies before its link leaves only its dot-file, however the run goes on |
| LogoutAnswers.AnsweredOnce | shauth_state.go:151-173 | over every interleaving with crashes, within the same limit, at most one step of the run makes a claiming call for a token answer true |
| LogoutAnswers.AnswerIff | shauth_state.go:224-255 | a finished claiming call or session write reports success if and only if during the call its name was free and its own link gave it to the call's complete record |
| LogoutAnswers.RefusedForCause | shauth_state.go:151-173 | a call is refused only if it read a live claim of the same token, found the name taken at its link, or failed to write |
| LogoutAnswers.DotFilesAccounted | shauth_state.go:226-237 | every dot-file is held by a running call or was left by one that crashed holding it |
| LogoutReplay.SingleWinner | shauth_state.go:151-199 | over every interleaving of claiming calls and lookups with crashes, one logout token is linked at most once, if every claiming call ends within 7 h 55 min of its clock reading |
| LogoutReplay.RevocationHolds | shauth_state.go:175-212 | whatever sweepers do meanwhile, a lookup that lists the directory after a covering claim was linked and decides before it expires refuses the session |
| LogoutReplay.RefusalJustified | shauth_state.go:201-209 | a session is refused only if during the lookup some file held an unexpired claim that covers it |
| LogoutLimit.LimitIsTight | shauth.go:662-672 | with one nanosecond more, a run in which one accepted token is claimed twice |
| LogoutLimit.SlowLookupMisses | shauth_state.go:192-199 | a run in which the claim is there and live when a lookup lists it, a sweeper drops it at its expiry, and the lookup then admits the session |
| JobTrace.Trace.HandlePatch | runner_api.go:184-221 | an unreadable body changes nothing; otherwise overlap, gap and append are handled and the range is the stored length |
| JobTrace.DeliverKeepsPrefix | runner_api.go:203-213 | one chunk of the log, wherever it starts, keeps the trace a prefix of the log, never shortens it, and extends it exactly to the chunk's end when it touches |
| JobTrace.TraceRefinesLog | runner_api.go:194-216 | over any lost, repeated, reordered or gapped chunks the trace stays a growing prefix, and resending from the last range reaches the whole log |
| S3File.File.Write | s3fs.go:341-355 | over a reused or regrown backing array, the bytes are laid over the file at the cursor and a gap reads as zeros |
| S3File.File.Read | s3fs.go:357-366 | the caller's buffer gets the next bytes and only those; end of file exactly at or past the end |
| S3File.File.ReadAt | s3fs.go:368-379 | reads at an offset without moving the cursor, end of file when the buffer is not filled |
| S3File.File.Seek | s3fs.go:381-400 | the three origins; a negative target or a bad origin changes nothing |
| S3File.File.Truncate | s3fs.go:439-450 | shrinks, or grows by zeros even over stale bytes |
| S3File.File.Close | s3fs.go:402-429 | the first close of a changed file stores its bytes under its name; nothing else changes |
| S3File.RunFile | s3fs.go:341-450 | any sequence of operations gives the outcomes and bytes of the ideal file |
| S3File.LastWriteWins | s3fs.go:341-450 | after any operations a byte is the last one written there since it was cut off, or zero |
| S3File.SizeLaw | s3fs.go:341-450 | after any operations the file ends where the last truncation or a farther later write ended |
| S3File.WriteThenRead | s3fs.go:341-400 | what was written reads back after seeking to where it was written |
| Artifacts.Put | artifacts.go:68-83 | stores exactly the data under the key and leaves other keys alone |
| Artifacts.Get | artifacts.go:85-99 | for any read sizes, the stored bytes, or absent |
| Artifacts.MemoryStore.Put | artifacts.go:107-114 | stores a fresh copy, so the caller's buffer can change later; other keys keep their arrays |
| Artifacts.MemoryStore.Get | artifacts.go:116-121 | the stored array itself, or absent |
| Artifacts.Upload | artifacts.go:126-183 | after an accepted upload the recorded size is the stored byte count; a refused or unreadable one changes nothing; one the store fails changes only the recorded name |
| Artifacts.ArtifactKeyInjective | artifacts.go:63 | two jobs never share an archive key |
| Artifacts.ArtifactKeyShape | artifacts.go:63 | the key is the id in decimal with the archive suffix |
| CIConfig.ParseCIConfig | ciyaml.go:43-130 | by entry positions: each top-level default is its last entry, decoded; the stages are build, test, deploy if none are given; one job for each unreserved, visible mapping, in order; each error exactly when it applies |
| CIConfig.ParseJob | ciyaml.go:92-123 | by entry positions: each job field is its key's last entry, decoded, or its own default if the key is absent; variables are the global ones followed by all entries' in order |
| CIConfig.ConfigMeetsLaw | ciyaml.go:61-128 | the specification function of the parser meets the same laws by position |
| CIConfig.ArtifactsLaw | ciyaml.go:219-243 | each artifact setting is its last entry or its default, and the whole is absent without paths or untracked files |
| CIConfig.ImageLaw | ciyaml.go:155-168 | the scalar itself, or the first name entry of a mapping, or nothing |
| CIConfig.VariablesLaw | ciyaml.go:245-254 | one variable for each entry of a mapping, by position |
| CIConfig.InterleavingIrrelevant | ciyaml.go:61-125 | documents with the same subsequences of configuration keys and of job keys parse alike |
| CIConfig.DecodeStringList | ciyaml.go:133-153 | the recursive loop gives the leaves in order; nil for empty text and mappings, an empty list for an empty sequence |
| CIConfig.SpliceNested | ciyaml.go:142-149 | replacing a nested sequence by its items, anywhere, changes nothing |
| CIConfig.FlatLeaves | ciyaml.go:142-149 | a list with no nested sequence decodes to its values |
| CIConfig.DecodeVariables | ciyaml.go:245-254 | one variable per entry, in order; a dangling key is dropped |
| CIConfig.DecodeArtifacts | ciyaml.go:219-243 | the last occurrence of each field; absent without paths or untracked files |
| CIConfig.VariablePrecedence | runner_api.go:333-347 | with the last definition winning, job variables override global ones, which override predefined ones |
| LogViewer.EscapeIsOnePass | web/core/src/components/LogViewer.tsx:14-20 | the four replacements are one character-wise substitution |
| LogViewer.EscapeSafeAndInvertible | web/core/src/components/LogViewer.tsx:14-20 | escaped text has no raw angle bracket or double quote, and unescaping restores the text |
| LogViewer.ReplaceSequence | web/core/src/components/LogViewer.tsx:27-50 | the callback's markup and open flag for any codes |
| LogViewer.RenderLine | web/core/src/components/LogViewer.tsx:22-53 | the scanning loop renders the line as specified |
| LogViewer.SequenceEscaped | web/core/src/components/LogViewer.tsx:23-26 | colour sequences start in the escaped text exactly where they did, unchanged |
| LogViewer.RenderedText | web/core/src/components/LogViewer.tsx:22-53 | the rendered line without its tags is the escape of the line without its colour sequences |
| LogViewer.LineBalanced | web/core/src/components/LogViewer.tsx:41-52 | the rendered text is balanced spans, never nested |
| LogStyles.StyledAsTerminal | web/core/src/components/LogViewer.tsx:22-53 | for every line, the characters a browser shows, each in the style of its span, are those a terminal shows that applies each sequence's codes in order, clears on a reset and ignores the rest |
| Tokens.NewTokenInjective | util.go:22-26 | tokens of different ids differ, for ids of any size |
| Tokens.TokenShape | util.go:22-26 | the prefix, a dash, and the id in at least eight decimal digits |

## Left out

- HTTP routing, headers, cookies, JSON, logging, templates: requests are decoded values.
- OpenID Connect discovery, signatures, digests, random ids: a verified token is a premise, the claim file's digest is injective on issuer, client and token id, random ids are unused names.
- I/O errors of the file system and the object store, and `syncDirectory`: a step happens or the process dies.
- Clock skew between replicas: one shared non-decreasing clock. In LogoutRefinement a call reads it when it runs.
- ControlPlane.Server: jobs and pipelines are records in the server's maps, reassigned there; sharing a job object between handlers is not modelled, and each section reads all job statuses at one instant.
- ControlPlane.Server.HandleJobRequest: runs its sections without interruption; the interleaved form is the steps Claim, Start and Refresh of SchedulerRuns.
- ControlPlane.Server.HandleJobUpdate: runs its sections without interruption, the interleaved form is the steps Report and Finish of SchedulerRuns and, for the trace, the Replace message of JobTrace.
- ControlPlane.Server.CommitConfig: the branch and the commit id, which pipelines only echo, and the seeding of the git repository.
- Artifacts.Upload: the object-store backend; a failed upload, which changes only the recorded name, is not a step of SchedulerRuns.
- JobTrace.TraceRefinesLog: requests on one job are serialized, a chunk holds the log's own bytes at its offset, and a final full trace is the whole log.
- LogoutReplay.SingleWinner: a token id is never reused with other times.
- LogoutReplay.RevocationHolds: a directory listing is one step; it may return names that are gone.
- S3File.File.Truncate: a negative size, on which the code panics, is not modelled.
- S3File.File.ReadAt: a negative offset, on which the code panics, is not modelled.
- Parsing of the `Content-Range` header and of YAML text: the offset and the node tree are inputs.
- `services:` entries and their aliases, the rest of the job response, `default:` and `include:`.
- `OpenFile` flags, `Rename`, `Stat`, `ReadDir`, path cleaning and `Chroot` of the object-store file system; git storage and smart-HTTP.
- The internal projections, the release revision and the rest of the dashboard.
