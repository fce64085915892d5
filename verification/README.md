# Desktop browser execution: a verified model

KORTEX lets an AI agent act on embedded browser surfaces only through signed, single-use grants. The desktop
side of that protocol is six Rust files that form one concurrent state machine. This project models them in
Dafny and proves what holds over every interleaving, with a backend that may answer anything.

Verify everything with `dafny verify dfyconfig.toml`.

## Files

| file | what it models |
|---|---|
| `RedeemProtocol.dfy` | `execute_granted_action` as a program of small steps, any number of calls interleaved with navigation events, surfaces and profiles coming and going |
| `RedeemSafety.dfy`, `NavigationWaiters.dfy` | what every step of it keeps |
| `RedeemRuns.dfy`, `NavigationRuns.dfy` | what therefore holds over whole runs |
| `RedeemSpec.dfy`, `RedeemReplies.dfy` | what each answer means, and that over whole runs each has its reason |
| `RedeemPossible.dfy` | runs: a valid grant is carried out, a timeout leaves its sender, one signature is redeemed twice |
| `RedeemProgress.dfy` | every call can return |
| `RedeemParts.dfy` | the tracker, the lock table and a surface's waiter slot as objects |
| `Json.dfy`, `GrantParameters.dfy`, `BackendEncoding.dfy` | the canonical parameter encoding on both sides and what its hash names |
| `GrantPayload.dfy` | the signed payload and when it can be read back |
| `NavigationPolicy.dfy` | the navigation policy and the address ranges |
| `ProfileKeys.dfy`, `ProfileSurfaces.dfy`, `ProfileLifecycle.dfy` | bindings, pending opens and the sharing of a profile's lock by its tabs |
| `ProfileLock.dfy` | the lock file, processes that crash, close and delete, and reused process ids |
| `ProfileNames.dfy`, `ProfileStore.dfy`, `ProfileStoreAnswers.dfy`, `ProfileStoreRuns.dfy` | the profile store on directories, what each call answers, and the map it refines |
| `UiaPool.dfy`, `UiaPoolRuns.dfy` | the UI Automation worker pool |
| `Bridge.dfy`, `BridgePermits.dfy` | one notification from claim to report, and the permit counter |
| `StringOrder.dfy`, `Ascii.dfy`, `Wrappers.dfy` | the order of strings; lower case; the optional value |

## How it is built

Each concurrent part is a state machine: a state, labels, `Enabled`, and `Next`. A run is a sequence of states
that starts in the initial one and takes enabled steps; main results speak of every state of every run. What
one mutex or one atomic operation covers is one step. Code that changes an object in place is a class. In
`ProfileStore`, `ProfileLock`, `ProfileSurfaces` and `UiaPool` its methods repeat the code's own order of operations and
failures and are proved equal to the functions the machines use. The three objects of `RedeemParts` state the code's own
updates; `Reflects` relates each to the world of `RedeemProtocol`, and every method keeps it through the machine's own
operation.

`RedeemProtocol.Local` is the program of one call. From the moment it has taken it until its return a call holds its
surface's lock (`InSection`). `World.log` is the shared log of audit entries and of the three calls that reach outside:
`runtime.navigate`, `runtime.capture_screenshot`, `pool.submit`. Who marked a grant, the history of events, and the
history of jobs are kept for the proofs and read by no step.

## Assumptions

- Ed25519 is an arbitrary predicate on payload and signature, the RFC 3339 parser an arbitrary partial function, and
  SHA-256 an arbitrary function; where a result needs it, no two texts have the same digest (`CollisionFree`).
- The clock, the platform and the backend may answer anything at any step.
- A file operation of the profile store or the lock either happens at once or fails and changes nothing; `create_new`
  followed by the write may leave a malformed file, and removing a directory may take a part of it. Acquiring the lock is
  one step between processes, and so is a delete with its look at the lock.
- The adapter runs on Windows: the file system takes names that differ only in the case of ASCII letters, the only letters
  `sanitize_path_component` keeps, for one (`DirectoryName`). That some names, such as `con`, are devices there is ignored.
- The test whether a process is alive is exact. The code's own reads a process it may not query as dead, and one that has
  exited but still has an open handle as alive.
- A program start that finds the pre-tenant directory moves it away; the model does not show where to, and no tenant lists
  it there.
- Tabs and their locks (`ProfileLifecycle`) are those of one process, whose profiles nobody deletes meanwhile; other
  processes are in `ProfileLock`, deletes in `ProfileStoreRuns`.
- Surface ids are never reused (`browser_runtime.rs:145-152` makes them from a counter).
- The final audit entry of a call, its return and the release of its lock are one step.

## Where the code and its own description disagree

- `browser_grant.rs:240-253` promises the backend's hash byte for byte. Python's `json.dumps` escapes every character
  outside printable ASCII and serde_json does not, so a grant whose request holds such a character is refused, whatever
  parameters come with it (`DesktopHashIsMintedHash`, `MintedOutsideAsciiIsRefused`, `MintedOutsideAsciiNeverPerforms`,
  `AnAccentedLetterBreaksTheHash`).
- `browser_runtime.rs:516-518` says the redeem command clears the waiter slot on timeout. It leaves
  the slot alone: on a live surface the sender is gone exactly when an event had already taken it
  (`ATimeoutLeavesTheSlotIff`, `ATimeoutLeavesTheSender`). No other claim here depends on clearing.
- `browser_uia.rs:269-275` says that once the lifetime budget is spent every `submit` is refused, however many workers
  are healthy. The code still hands out a free slot whose worker lives (`SpentBudgetAcceptsIff`,
  `ASpentBudgetStillAccepts`); but it looks at one slot only, so with a dead worker in the first free slot it refuses
  although another worker is idle (`RefusedIff`, `RefusedDespiteIdleIff`, `AnIdleWorkerIsOverlooked`).
- `browser_profile_store.rs:552-556` says the acquire flag tells a recovery. A process that got the dead holder's pid sees
  its own lock, and a lock file that cannot be read counts as stale even if its holder, or the caller, lives
  (`FlagMeansRecoveryIff`, `AReusedPidMisleads`, `HolderReenters`).
- `browser_profile_store.rs:541-549` says that two processes can believe they hold a lock only when both find it stale in
  the same instant. They also can when an acquisition or a delete fails to read it (`AnUnreadableLockIsTakenOver`,
  `ADeleteLetsTwoIn`), and, though nothing fails, when a process closes a profile whose lock it no longer holds
  (`ASecondCloseLetsTwoIn`, `StepKeepsExclusiveIff`). A process whose profiles share no directory and are not opened
  again during teardown never does the last (`ProfilesApartCloseTheirOwn`).
- `browser_profile_store.rs:1245-1249` says that closing one of a profile's tabs never releases the lock while another is
  alive. Tabs are told apart by the ids as given, the lock by the directory, which drops characters and ignores case, so
  two spellings of one id share a lock that closing either removes (`StepKeepsLocksIff`, `SharedDirectoryLosesALock`,
  `TwoSpellingsLoseALock`, `TwoCasesLoseALock`, `OneDirectoryOneLock`). It holds for ids that share no directory, as
  generated ids under lower-case tenant ids (`ProfilesApartKeepTheirLocks`, `CanonicalPairsAreApart`).
- `browser_profile_store.rs:1301-1302` says that a failed open acquired nothing. It may have failed on its last step, with
  the lock taken (`AnOpenThatFailsLateLeaks`), or overlap the close of the last tab (`AFailedOpenOverTheLastCloseLeaks`);
  `cancel_open` never releases, and the lock stays held. So it does when the lock file cannot be removed
  (`StepKeepsTightIff`, `AFailedRemovalLeaks`).
- `browser_profile_store.rs:1106-1111` says that a deleted profile is never listed as active again. When neither the mark
  nor the move succeeds, delete reports success and the profile may stay listed (`DeleteHidesIff`, `ADeleteThatDidNothing`).
  The same comment says that an unreadable `profile.json` keeps a profile off the list; the code lists it as corrupted,
  also after a delete that reported success (`UnreadableStaysListedIff`, `ADeletedProfileStaysListed`).

## Model

| member | source | states |
|---|---|---|
| RedeemRuns.OneEffectPerGrant | apps/desktop/src-tauri/src/browser_grant.rs:904-920 | In every run of any number of interleaved calls, whatever grants the backend issues and re-issues: two effects in the log for one grant id are the same effect, and each was performed by the call that marked that id. |
| RedeemRuns.OneEffectPerPayload | apps/desktop/src-tauri/src/browser_grant.rs:198-217 | In every run: two effects for grants with the same signed bytes are the same effect, when neither grant id holds a colon. |
| RedeemPossible.OneSignatureTwoEffects | apps/desktop/src-tauri/src/browser_grant.rs:198-217 | Every valid grant with a colon in its id has a run in which its signature is redeemed twice, by two calls that each perform an effect, for grants with the same signed bytes. |
| RedeemRuns.EffectsAreMinted | backend/src/kortex/engines/browser/grant.py:76-78 | With a collision-free digest: if the grant behind an effect in the log carries the hash the backend makes of a request, its signature covers its payload, that request has the grant's own profile, surface, generation and capability and is the call's own, the effect is the one it asks for on the grant's surface (the url; the role and accessible name of each selector; the text), and it holds no character above U+007E. |
| RedeemRuns.EffectsArePlanned | apps/desktop/src-tauri/src/browser_grant.rs:1379-1440 | Every effect in the log is of the kind its call's own parameters ask for, on the grant's surface, with their url, their text, and for each selector its role and accessible name under its own key; the grant is signed and carries the hash of these parameters. |
| RedeemReplies.EffectsWereInTime | apps/desktop/src-tauri/src/browser_grant.rs:408-431 | Every effect belongs to a call that made its expiry check in an earlier step of its own, at a time not before the grant's issue and before its expiry. |
| RedeemReplies.ExpiryIsChecked | apps/desktop/src-tauri/src/browser_grant.rs:412-431 | In every run a call at the expiry check goes on if and only if both timestamps parse and the time is not before issue and before expiry; with one that does not parse it returns GrantInvalid, and otherwise GrantExpired. |
| RedeemReplies.RepliesHaveReasons | apps/desktop/src-tauri/src/browser_grant.rs:894-1031 | Every returned call returned its reply in a step of its own, for one of that reply's reasons: for each error, result kind and NotYetEnabled, what the call found, what the clock and the platform said, and where it stood. |
| RedeemReplies.StepHasReason | apps/desktop/src-tauri/src/browser_grant.rs:894-1593 | A step of a call in a run returns a given reply if and only if one of that reply's reasons holds, and writes exactly the audit entries and the effect that go with where it came from and where it led. |
| RedeemReplies.WaitsAnswerAsTold | apps/desktop/src-tauri/src/browser_grant.rs:1052-1079 | In every run the end of the wait for a UI operation or a capture is told: a result exactly for an outcome of the kind asked for, UiaFailed and ScreenshotFailed for the worker's and the capture's failure, Timeout when time ran out, InternalError for a closed channel or another shape; Succeeded is audited for a result and Failed otherwise. |
| RedeemReplies.PerformedInAStep | apps/desktop/src-tauri/src/browser_grant.rs:1415-1593 | Every effect in the log was performed in one step of its call, at its place. |
| RedeemReplies.DestroyedIsNotFound | apps/desktop/src-tauri/src/browser_grant.rs:920-924 | Once a surface is destroyed, every later call that looks for it is refused as SurfaceNotFound. |
| RedeemReplies.UnboundIsNotFound | apps/desktop/src-tauri/src/browser_grant.rs:926-947 | While a surface is released and not bound again, every call that checks its binding is refused as ProfileNotFound. |
| RedeemSpec.EffectIsAsked | apps/desktop/src-tauri/src/browser_grant.rs:1404-1593 | The effect planned for usable parameters is the one they ask for, and its result is of their kind. |
| RedeemSpec.AskedOnce | apps/desktop/src-tauri/src/browser_grant.rs:1404-1593 | Parameters ask for one effect only. |
| RedeemRuns.MintedOutsideAsciiIsRefused | apps/desktop/src-tauri/src/browser_grant.rs:1373-1401 | A grant the backend minted for a request with a character above U+007E never passes the checks on its parameters: an unknown capability, missing parameters, those of another variant and a full page are refused with their own errors, everything else as GrantInvalid. |
| RedeemRuns.MintedOutsideAsciiNeverPerforms | apps/desktop/src-tauri/src/browser_grant.rs:1388-1401 | No run performs an effect for such a grant or reports it carried out. |
| RedeemRuns.OneCallInside | apps/desktop/src-tauri/src/browser_grant.rs:917-918 | In every run at most one call is inside the section of a surface. |
| RedeemRuns.ArmingInRunAbandonsNobody | apps/desktop/src-tauri/src/browser_runtime.rs:1217-1231 | In every run, when a call arms its surface's waiter, no call waits on the sender it overwrites. |
| RedeemRuns.EffectsWereChecked | apps/desktop/src-tauri/src/browser_grant.rs:917-967 | For each of the four checks: at the step that performs an effect, the same call has itself made that check at an earlier step, which saw the surface live, bound to the grant's tenant and profile, that profile declared active, or the claimed generation equal to the live one, and passed; and it has held its surface's lock from then on. |
| RedeemRuns.CheckedEarlier | apps/desktop/src-tauri/src/browser_grant.rs:920-967 | A call anywhere past one of the four checks made and passed it in an earlier step of its own and has held its surface's lock from then on. |
| RedeemRuns.NoCheckPassesWhileCleared | apps/desktop/src-tauri/src/browser_profile_store.rs:1330-1345 | From a `take_all` or a clear until a profile is declared again, every call that reaches the active-profile check is refused as ProfileNotFound. |
| RedeemRuns.EffectsWhileClearedWereCheckedBefore | apps/desktop/src-tauri/src/browser_profile_store.rs:1395-1398 | An effect performed in that time belongs to a call that had made and passed its active-profile check before the clearing. |
| RedeemRuns.AuditTrailOfACall | apps/desktop/src-tauri/src/browser_grant.rs:894-1031 | The audit log projected on one returned call is one of: nothing, Rejected, Redeemed, Redeemed Rejected, Redeemed Started, Redeemed Started Failed, Redeemed Started Succeeded, with the errors each goes with; the last exactly when an execution result is returned; and every effect comes directly after Redeemed and Started. |
| RedeemRuns.SilentCallLostItsSurface | apps/desktop/src-tauri/src/browser_grant.rs:959-962 | A returned call that left nothing in the audit log returned at the generation read of a grant that claims one, when its surface was gone. |
| RedeemPossible.AValidGrantCanBeCarriedOut | apps/desktop/src-tauri/src/browser_grant.rs:883-1032 | For every grant of any of the six capabilities, signed, at a time not before its issue and before its expiry, whatever 64-bit generation it claims, with its own usable parameters, there is a run, in which the platform succeeds, that carries it out: the effect its parameters ask for is performed, a result of their kind is returned, and its log is Redeemed, Started, the effect, Succeeded. |
| RedeemPossible.AMintedPlainRequestIsValid | backend/src/kortex/engines/browser/grant.py:76-78 | With the backend's hash of its own request such a grant is valid if and only if the request holds no character above U+007E. |
| NavigationRuns.NavigationReplyIsFirstEvent | apps/desktop/src-tauri/src/browser_grant.rs:1415-1475 | A navigate call that reports success, a policy denial or a load failure armed its waiter in an earlier step of its own, still has that channel, and reports the outcome of the first denied start or completion on its surface since that step. |
| NavigationRuns.ArmedEarlier | apps/desktop/src-tauri/src/browser_runtime.rs:1217-1231 | A call that waits for its navigation or has reported what came of it has the channel it put in its surface's slot in an earlier step of its own. |
| NavigationRuns.EventsReachTheWaiter | apps/desktop/src-tauri/src/browser_runtime.rs:520-531 | In every run a denied start or a completion on a surface whose slot holds a call's sender goes through that sender: the call has that outcome from then on, and the slot is empty. |
| NavigationRuns.ATimeoutLeavesTheSlotIff | apps/desktop/src-tauri/src/browser_runtime.rs:516-518 | In every run a navigate call whose wait times out returns Timeout, and its own sender stays in the slot if and only if it was neither used nor dropped: on a live surface, if and only if no denied start and no completion has come in since the call armed its waiter. |
| RedeemPossible.ATimeoutLeavesTheSender | apps/desktop/src-tauri/src/browser_runtime.rs:516-518 | For every valid grant to navigate a run in which the call has returned Timeout and its unused sender is still in the slot. |
| RedeemProgress.EveryCallCanReturn | apps/desktop/src-tauri/src/browser_grant.rs:917-918 | From every point of every run each call can be brought to its return by steps of calls on its surface alone, whatever the clock and the platform answer, as long as waits may run out. |
| RedeemProgress.NoCallIsStuck | apps/desktop/src-tauri/src/browser_grant.rs:917-918 | A running call can move, or waits for a lock whose holder, a call on the same surface, can. |
| RedeemProgress.StepsAreBounded | apps/desktop/src-tauri/src/browser_grant.rs:883-1032 | In every run the steps a call has made and the most it has left add up to at most fifteen. |
| RedeemRuns.GenerationCountsStarts | apps/desktop/src-tauri/src/browser_runtime.rs:571-626 | Between any two points of a run a surface's generation grows by its allowed navigation starts, modulo 2^64, whatever denied starts, completions, calls and other surfaces do. |
| RedeemRuns.PassingMeansNoNavigation | apps/desktop/src-tauri/src/browser_grant.rs:959-967 | With fewer than 2^64 starts in between, a claim of the generation read at an earlier point passes the check if and only if no allowed navigation started on that surface since. |
| RedeemRuns.FetchAddIsModular | apps/desktop/src-tauri/src/browser_runtime.rs:584-584 | Repeated `fetch_add(1)` on an AtomicU64 is addition modulo 2^64. |
| RedeemRuns.GenerationsAreSmall | apps/desktop/src-tauri/src/browser_runtime.rs:1196-1207 | A live surface's generation always fits in 64 bits. |
| RedeemRuns.RunsAreSound | apps/desktop/src-tauri/src/browser_grant.rs:883-1032 | The conjunction of the step invariants (log, marks, locks, channels, replies) holds in every world of every run. |
| RedeemSafety.StepKeepsMarks | apps/desktop/src-tauri/src/browser_grant.rs:456-463 | A step of a call keeps: every running call past its mark is the one in the tracker, every logged effect is by such a call, and no call has two effects. |
| RedeemSafety.StepKeepsLocks | apps/desktop/src-tauri/src/browser_grant.rs:578-584 | A step of a call keeps: no two surfaces share a lock, a call past `lock_for` has its surface's lock, and a lock is held exactly by the one call inside its section. |
| RedeemSafety.EnvironmentKeepsLocks | apps/desktop/src-tauri/src/browser_grant.rs:578-584 | So does every surface, profile and navigation event. |
| RedeemSafety.OneCallPerSurface | apps/desktop/src-tauri/src/browser_grant.rs:917-918 | Two calls inside the section of one surface are the same call. |
| RedeemSafety.LockTableOnlyGrows | apps/desktop/src-tauri/src/browser_grant.rs:578-584 | The lock of a surface, once made, is never replaced. |
| RedeemSafety.StepExplained | apps/desktop/src-tauri/src/browser_grant.rs:1373-1593 | For every phase and every answer of clock and platform, one step extends the call's log by what explains its new phase: which entries, in which order, with which planned effect. |
| RedeemSafety.StepKeepsLogExplained | apps/desktop/src-tauri/src/browser_grant.rs:894-1031 | A step of one call keeps every call's projection of the shared log explained by its phase. |
| RedeemSafety.VetExplained | apps/desktop/src-tauri/src/browser_grant.rs:1373-1401 | The parameter, full-page, hash and selector checks each leave the log of their error, or a plan that is the effect the call's own parameters ask for. |
| RedeemSafety.WaitsEnd | apps/desktop/src-tauri/src/browser_grant.rs:1336-1371 | However a capture or a UI operation ends, it ends with Succeeded and its own result kind, exactly when the capture is done or the outcome is of that kind, or with Failed and a late error. |
| RedeemSafety.NavigationEnds | apps/desktop/src-tauri/src/browser_grant.rs:1443-1497 | However the wait for a navigation ends, it ends with Succeeded or with Failed and a late error. |
| NavigationWaiters.ArmingAbandonsNobody | apps/desktop/src-tauri/src/browser_runtime.rs:1217-1231 | When a call arms its surface's waiter, the sender it overwrites is one no waiting call depends on: no other call of that surface waits at all. |
| NavigationWaiters.OutcomesAreFinal | apps/desktop/src-tauri/src/browser_runtime.rs:520-531 | A channel gets at most one outcome: once sent, no step of anything changes it. |
| NavigationWaiters.StepKeepsChannels | apps/desktop/src-tauri/src/browser_runtime.rs:1217-1231 | Steps of calls keep: a slot's sender belongs to that surface and nothing has happened since it was armed; a sent outcome is that of the first event after arming; a waiting call's sender, while its surface lives, is in the slot or was used. |
| NavigationWaiters.EnvironmentKeepsChannels | apps/desktop/src-tauri/src/browser_runtime.rs:571-650 | Starts, completions, creations, destructions and dropped handlers keep the same. |
| NavigationWaiters.ResolveKeepsWaiters | apps/desktop/src-tauri/src/browser_runtime.rs:520-531 | Resolving a slot gives its receiver the outcome of the first event since it was armed, and no other receiver anything. |
| NavigationWaiters.NavigationRepliesComeFromWaiting | apps/desktop/src-tauri/src/browser_grant.rs:1443-1497 | Only a call waiting for its navigation returns a navigation reply, and it returns the one for the outcome in its own channel. |
| RedeemParts.RedeemedGrantTracker.TryMarkRedeemed | apps/desktop/src-tauri/src/browser_grant.rs:456-463 | Marks an id once: true exactly for an id not marked before, and the set grows by it; so it stays the set of ids marked in the machine's world. |
| RedeemParts.SurfaceRedeemLocks.LockFor | apps/desktop/src-tauri/src/browser_grant.rs:578-584 | Returns the surface's one lock, made on first use; every other entry keeps its lock object and no two surfaces share one. |
| RedeemParts.SurfaceEntry.ArmNavigationWaiter | apps/desktop/src-tauri/src/browser_runtime.rs:1217-1231 | Puts a fresh channel in the slot; a sender left there is dropped with its channel otherwise untouched; so slot and generation stay those of the machine's world. |
| RedeemParts.SurfaceEntry.ResolveNavigationWaiter | apps/desktop/src-tauri/src/browser_runtime.rs:520-531 | Empties the slot and sends the outcome to the channel that was in it, as in the machine's world. |
| RedeemParts.SurfaceEntry.OnNavigationStarting | apps/desktop/src-tauri/src/browser_runtime.rs:571-626 | An allowed start sets loading and bumps the generation and leaves the waiter; a denied one resolves the waiter and leaves loading and generation. |
| RedeemParts.SurfaceEntry.OnNavigationCompleted | apps/desktop/src-tauri/src/browser_runtime.rs:630-653 | Clears loading and leaves the generation; an event with an outcome resolves the waiter, one without arguments leaves it armed. |
| GrantParameters.RequestTextIsInjective | apps/desktop/src-tauri/src/browser_grant.rs:254-264 | The canonical texts of two requests are equal if and only if target, capability and parameters are equal. |
| GrantParameters.CollectSchemaFields | apps/desktop/src-tauri/src/browser_grant.rs:330-346 | Whatever order the hash map of `schema_fields` is iterated in, the same sorted object is built. |
| GrantParameters.RequestTextParses | apps/desktop/src-tauri/src/browser_grant.rs:254-264 | A parser reads the canonical text back to the request object, with nothing left over, and the capability and the parameters are found in it. |
| GrantParameters.HashNamesOneRequest | apps/desktop/src-tauri/src/browser_grant.rs:254-264 | With a collision-free digest a hash names one target, capability and parameter set. |
| GrantParameters.ParametersValueIsInjective | apps/desktop/src-tauri/src/browser_grant.rs:274-376 | The six `*_parameters_value` builders: within a capability, equal values come from equal targets and parameters. |
| GrantParameters.CapabilityTellsVariant | apps/desktop/src-tauri/src/browser_grant.rs:70-75 | The capability name determines which variant of parameters is meant. |
| Json.EncodeIsInjective | apps/desktop/src-tauri/src/browser_grant.rs:259-260 | The compact encoding with sorted keys of two JSON values is equal if and only if the values are. |
| Json.ParseEncoded | apps/desktop/src-tauri/src/browser_grant.rs:259-260 | The parser reads an encoded value back, whatever text follows that cannot extend a number. |
| Json.SortedIsCanonical | apps/desktop/src-tauri/src/browser_grant.rs:240-247 | Two sorted field lists with the same lookups are the same list: a BTreeMap has one iteration order. |
| Json.InsertKeepsSorted | apps/desktop/src-tauri/src/browser_grant.rs:240-247 | Inserting into a sorted map keeps it sorted. |
| Json.LookupInsert | apps/desktop/src-tauri/src/browser_grant.rs:240-247 | Inserting a key binds it and leaves every other lookup alone. |
| Json.ParseEscapedText | apps/desktop/src-tauri/src/browser_grant.rs:259-260 | String escaping as in section 7 of RFC 8259 is undone by reading the string. |
| BackendEncoding.EncodersAgree | backend/src/kortex/engines/browser/grant.py:76-78 | Python's `json.dumps` and serde_json write the same text for a value if and only if it holds no character above U+007E. |
| BackendEncoding.DesktopHashIsMintedHash | backend/src/kortex/engines/browser/grant.py:76-78 | With a collision-free digest the desktop's hash of one request is the backend's hash of another if and only if they are the same request and it holds no character above U+007E. |
| BackendEncoding.TextsCoincide | backend/src/kortex/engines/browser/grant.py:76-78 | serde_json's text of one value is Python's text of another if and only if they are the same value and its strings hold no character above U+007E. |
| BackendEncoding.ReadPythonValue | backend/src/kortex/engines/browser/grant.py:76-78 | Read as JSON without surrogate pairs, Python's text is the value it was made of or is rejected; it is never another value. |
| BackendEncoding.DesktopAndBackendHashesAgree | backend/src/kortex/engines/browser/grant.py:76-78 | The desktop recomputes the backend's hash for the very request it minted if and only if the request's strings hold no character above U+007E. |
| BackendEncoding.AnAccentedLetterBreaksTheHash | apps/desktop/src-tauri/src/browser_grant.rs:240-253 | The byte-for-byte match the comment promises fails for a request to type one accented letter. |
| GrantPayload.PayloadReadsBack | apps/desktop/src-tauri/src/browser_grant.rs:198-217 | The ten signed fields can be read back from the colon-joined payload if and only if the six id and name fields and the hash hold no colon and `issued_at` has the form of section 5.6 of RFC 3339; nothing is asked of `expires_at`, the last field. |
| GrantPayload.SignedBytesIdentifyTheGrant | apps/desktop/src-tauri/src/browser_grant.rs:198-217 | Such grants sign the same bytes if and only if they are equal; in particular an absent generation and every decimal one stay apart. |
| GrantPayload.AColonMovesBetweenFields | apps/desktop/src-tauri/src/browser_grant.rs:198-217 | Without the condition two different grants sign the same bytes. |
| GrantPayload.FieldsOfJoin | apps/desktop/src-tauri/src/browser_grant.rs:203-215 | Cutting a join of colon-free fields at its colons gives the fields back. |
| NavigationPolicy.AllowedExactly | apps/desktop/src-tauri/src/browser_policy.rs:135-203 | A request is allowed exactly when it parsed, is http or https, and has a host outside every listed range that is not a case variant of "localhost" followed by dots; the two trigger flags play no part. |
| NavigationPolicy.DenialsHaveReasons | apps/desktop/src-tauri/src/browser_policy.rs:135-203 | Each denial has its reason: Malformed exactly without a parse or, for http and https, without a host; SchemeNotAllowed with exactly another scheme; PrivateNetworkAccess with exactly the class of a block that contains the address, or LocalHostname for a name of this machine. |
| NavigationPolicy.Ipv4ClassIsBlockMembership | apps/desktop/src-tauri/src/browser_policy.rs:212-236 | For every 32-bit address and every class: the octet tests give that class if and only if a standard block of that class contains the address. |
| NavigationPolicy.BlocksAreDisjoint | apps/desktop/src-tauri/src/browser_policy.rs:212-236 | No address is in two of the IPv4 blocks, so the order of the tests is irrelevant. |
| NavigationPolicy.BitsDecideRanges | apps/desktop/src-tauri/src/browser_policy.rs:238-258 | For every 128-bit address the mask tests on segments decide the numeric prefix ranges. |
| NavigationPolicy.Ipv6ClassIsBlockMembership | apps/desktop/src-tauri/src/browser_policy.rs:238-258 | Every address that is not IPv4-mapped is classified by membership in ::1, fc00::/7 and fe80::/10. |
| NavigationPolicy.MappedClassifiesAsEmbedded | apps/desktop/src-tauri/src/browser_policy.rs:238-258 | An IPv4-mapped address is classified exactly as the address it embeds. |
| NavigationPolicy.LocalNamesAreRecognized | apps/desktop/src-tauri/src/browser_policy.rs:177-203 | A name is taken for this machine if and only if it is a case variant of "localhost" followed by any number of dots. |
| NavigationPolicy.UnclassifiedIsPublic | apps/desktop/src-tauri/src/browser_policy.rs:177-258 | A host gets no class if and only if it is in no listed range and does not name this machine. |
| ProfileLifecycle.LocksFollowUse | apps/desktop/src-tauri/src/browser_runtime.rs:1416-1444 | In every interleaving of creations and destructions whose teardown finds no creation in flight and whose steps sever no lock, the pending count of each profile is its number of in-flight creations, and every profile with a bound surface or an opened creation has its directory's lock held. |
| ProfileLifecycle.StepKeepsLocksIff | apps/desktop/src-tauri/src/browser_profile_store.rs:1310-1375 | A step keeps the lock of every profile relied on if and only if it does not remove the lock of a directory that another profile relied on shares, or, in a teardown, of a profile that was opened again. |
| ProfileLifecycle.ProfilesApartKeepTheirLocks | apps/desktop/src-tauri/src/browser_profile_store.rs:1265-1375 | When no two of the pairs asked for share a directory, and no profile is opened again before its teardown close, every step of the run is orderly: no lock relied on is ever lost. |
| ProfileLifecycle.ProfilesApartCloseTheirOwn | apps/desktop/src-tauri/src/browser_profile_store.rs:1364-1405 | In such runs every profile the process closes has its directory's lock held by it, so it removes no lock another process took. |
| ProfileLifecycle.CanonicalPairsAreApart | apps/desktop/src-tauri/src/browser_profile_store.rs:60-68 | Pairs of ids that are their own directory names, lower case included, share no directory, and generated ids are such. |
| ProfileLifecycle.CleanNeverSevers | apps/desktop/src-tauri/src/browser_profile_store.rs:1265-1375 | With only pairs around that share no directory and none in use that is about to be closed, no step severs a lock. |
| ProfileLifecycle.SharedDirectoryLosesALock | apps/desktop/src-tauri/src/browser_profile_store.rs:1266-1284 | For any two pairs that share a directory, a run, with no teardown and no failed open, in which closing the tab of one removes the lock of the tab still bound to the other. |
| ProfileLifecycle.TwoSpellingsLoseALock | apps/desktop/src-tauri/src/browser_profile_store.rs:1266-1284 | Such a run for every clean id and the same id with a dot added. |
| ProfileLifecycle.TwoCasesLoseALock | apps/desktop/src-tauri/src/browser_profile_store.rs:351-380 | Such a run for two ids that differ only in case. |
| ProfileLifecycle.NoLockHeldForNothing | apps/desktop/src-tauri/src/browser_profile_store.rs:1265-1375 | When moreover no step leaks, every held lock is of a directory in use or about to be closed by the teardown. |
| ProfileLifecycle.ReleasedWithLastUse | apps/desktop/src-tauri/src/browser_runtime.rs:1510-1523 | In such runs a step that lets a directory's lock go closes a profile of that directory, in its own last release or abandoned open, after which it is not in use, or at teardown; and no profile of that directory is relied on afterwards. |
| ProfileLifecycle.StepKeepsTightIff | apps/desktop/src-tauri/src/browser_profile_store.rs:1303-1308 | A step other than `take_all` keeps held locks accounted for if and only if it does not forget one: it is no cancel of the last in-flight creation of an unbound profile and no close that fails to remove the file, for a directory that is locked, not about to be closed again, and shared by no other profile in use. |
| ProfileLifecycle.AFailedRemovalLeaks | apps/desktop/src-tauri/src/browser_profile_store.rs:624-629 | A run in which the last tab is closed, its lock file cannot be removed, and the lock stays held for nothing. |
| ProfileLifecycle.AFailedOpenOverTheLastCloseLeaks | apps/desktop/src-tauri/src/browser_profile_store.rs:1303-1308 | A run in which a failed open overlaps the last tab's close and the lock stays held with no use left. |
| ProfileLifecycle.AnOpenThatFailsLateLeaks | apps/desktop/src-tauri/src/browser_profile_store.rs:1049-1050 | A run in which an open fails on the data directory, after it took the lock, and the lock stays held with no tab at all. |
| ProfileLifecycle.TakeAllKeepsCountsIff | apps/desktop/src-tauri/src/browser_profile_store.rs:1395-1398 | `take_all` keeps the counts right if and only if no creation is in flight. |
| ProfileLifecycle.TakeAllKeepsTightIff | apps/desktop/src-tauri/src/browser_profile_store.rs:1395-1405 | After `take_all` every held lock is about to be closed if and only if each was of a bound profile's directory or already about to be closed. |
| ProfileLifecycle.AnOpenDuringTeardownLosesItsLock | apps/desktop/src-tauri/src/lib.rs:367-377 | A run in which a profile opened again between `take_all` and its close is left in use without its lock. |
| ProfileLifecycle.StepsKeepCounts | apps/desktop/src-tauri/src/browser_profile_store.rs:1276-1308 | Every step but `take_all` keeps each pending count equal to the number of in-flight creations. |
| ProfileSurfaces.BeginCounting | apps/desktop/src-tauri/src/browser_profile_store.rs:1293-1299 | One creation more of that profile, and of no other. |
| ProfileSurfaces.FinishCounting | apps/desktop/src-tauri/src/browser_profile_store.rs:1276-1284 | One creation fewer of that profile, never below zero, and of no other; no zero is stored. |
| ProfileSurfaces.ActiveProfileSurfaces.BeginOpen | apps/desktop/src-tauri/src/browser_profile_store.rs:1293-1299 | Counts one more creation of the profile and changes nothing else. |
| ProfileSurfaces.ActiveProfileSurfaces.FinishPendingOpen | apps/desktop/src-tauri/src/browser_profile_store.rs:1276-1284 | Counts one creation fewer, in place, and removes a count that reaches zero. |
| ProfileSurfaces.ActiveProfileSurfaces.CancelOpen | apps/desktop/src-tauri/src/browser_profile_store.rs:1303-1308 | Counts one creation fewer and releases nothing. |
| ProfileSurfaces.ActiveProfileSurfaces.AbandonOpen | apps/desktop/src-tauri/src/browser_profile_store.rs:1314-1325 | Counts one creation fewer and releases if and only if the profile is then not in use. |
| ProfileSurfaces.ActiveProfileSurfaces.Record | apps/desktop/src-tauri/src/browser_profile_store.rs:1347-1356 | Counts one creation fewer and binds the surface. |
| ProfileSurfaces.ActiveProfileSurfaces.ReleaseSurface | apps/desktop/src-tauri/src/browser_profile_store.rs:1364-1375 | Removes and returns the binding; releases if and only if there was one and its profile is then not in use. |
| ProfileSurfaces.ActiveProfileSurfaces.TakeAll | apps/desktop/src-tauri/src/browser_profile_store.rs:1395-1405 | Returns every profile with a bound surface exactly once and nothing else, in order, for any drain order; leaves bindings, counts and active profile empty. |
| ProfileSurfaces.BoundProfilesAreDetermined | apps/desktop/src-tauri/src/browser_profile_store.rs:1395-1405 | There is only one such vector, so the hash map's order does not show. |
| ProfileSurfaces.ActiveProfileSurfaces.SetActiveProfile | apps/desktop/src-tauri/src/browser_profile_store.rs:1330-1332 | Declares exactly that tenant and profile, or none. |
| ProfileSurfaces.ActiveProfileSurfaces.ClearActiveProfile | apps/desktop/src-tauri/src/browser_profile_store.rs:1334-1336 | Afterwards no tenant and profile is the active one. |
| ProfileSurfaces.ActiveProfileSurfaces.Lookup | apps/desktop/src-tauri/src/browser_profile_store.rs:1383-1388 | The surface's binding, if it has one; nothing is changed. |
| ProfileKeys.SortSorts | apps/desktop/src-tauri/src/browser_profile_store.rs:1402-1402 | Sorting orders the profiles and keeps exactly their elements. |
| ProfileKeys.DedupOfSorted | apps/desktop/src-tauri/src/browser_profile_store.rs:1403-1403 | Dropping equal neighbours of a sorted vector leaves each element once, in strict order. |
| ProfileLock.NeverTwoHolders | apps/desktop/src-tauri/src/browser_profile_store.rs:557-629 | Over every run of processes that start, crash, acquire, close and delete, with reused pids and failing file operations: two holders are the same live process, as long as no step takes the lock from a process that holds it. |
| ProfileLock.StepKeepsExclusiveIff | apps/desktop/src-tauri/src/browser_profile_store.rs:589-629 | A step keeps the lock exclusive if and only if it does not take it from a process that holds it: no acquisition that fails to read the lock another process holds and replaces it, no close that removes the lock another process holds, no delete that removes a held lock. |
| ProfileLock.ReadableLocksStopDeletes | apps/desktop/src-tauri/src/browser_profile_store.rs:1100-1104 | Such a delete is one that could not read the lock. |
| ProfileLock.AnUnreadableLockIsTakenOver | apps/desktop/src-tauri/src/browser_profile_store.rs:589-600 | A run in which one failed read lets two live processes hold the lock. |
| ProfileLock.ASecondCloseLetsTwoIn | apps/desktop/src-tauri/src/browser_profile_store.rs:624-629 | A run in which no file operation fails and two live processes hold the lock: a process that opened the profile twice closes it a second time after another process opened it. |
| ProfileLock.ADeleteLetsTwoIn | apps/desktop/src-tauri/src/browser_profile_store.rs:1100-1104 | A run in which a delete that cannot read the lock removes it and two live processes then hold it. |
| ProfileLock.BlockedIff | apps/desktop/src-tauri/src/browser_profile_store.rs:568-622 | Whichever file operations fail: a live holder blocks everyone but itself, a dead or malformed one blocks if and only if its pid now belongs to a process other than the caller, and neither does if the file cannot be read; and the exact failures that make an acquisition fail. |
| ProfileLock.FileNamesTheTaker | apps/desktop/src-tauri/src/browser_profile_store.rs:568-622 | An acquisition that takes the lock leaves the file naming the caller; any other leaves it as it was, but for a new file whose writing failed. |
| ProfileLock.FlagMeansRecoveryIff | apps/desktop/src-tauri/src/browser_profile_store.rs:552-556 | The returned flag tells a stale recovery if and only if, when the file is read, the stale pid is not the caller's own, and when it cannot be read, its holder does not live. |
| ProfileLock.HolderReenters | apps/desktop/src-tauri/src/browser_profile_store.rs:594-621 | When the holder acquires again the lock stays its own whatever fails; it succeeds unless the file cannot be opened or replaced, and reports a recovery if and only if the file could not be read. |
| ProfileLock.AReusedPidMisleads | apps/desktop/src-tauri/src/browser_profile_store.rs:594-606 | For any pids: a dead holder's lock counts as re-entrant for the process that got its pid and blocks every other. |
| ProfileLock.LockFile.AcquireProfileLock | apps/desktop/src-tauri/src/browser_profile_store.rs:557-622 | The file operations in order, each with its failure, come to the acquisition function. |
| ProfileLock.LockFile.ReleaseProfileLock | apps/desktop/src-tauri/src/browser_profile_store.rs:624-629 | The file is gone, or, if it could not be removed, unchanged and no error. |
| ProfileStoreRuns.StoreRefinesLedger | apps/desktop/src-tauri/src/browser_profile_store.rs:899-1224 | After any sequence of calls of any tenants and program starts, with any file failures, the intact entries of a tenant's directory are exactly the profiles that calls for that directory created and did not delete, with their last names, as long as none of its deletes failed throughout. |
| ProfileStoreRuns.RunRefinesIff | apps/desktop/src-tauri/src/browser_profile_store.rs:899-1224 | Any call changes a tenant's intact entries as its reply says if and only if it is not a delete that reported success and neither marked nor moved a listed profile nor removed its record. |
| ProfileStoreRuns.ListShowsLedger | apps/desktop/src-tauri/src/browser_profile_store.rs:1164-1223 | Listing shows an intact profile with an id and name if and only if the simple map has it. |
| ProfileStoreRuns.DeletedOpensAsNotFound | apps/desktop/src-tauri/src/browser_profile_store.rs:973-1010 | A profile whose delete reported success and marked it, moved it, or removed at least its record opens as ProfileNotFound at every later call, whatever any call in between does or fails to do, unless its id is created again or, which no listed id can be, is the name another profile is moved to. |
| ProfileStoreRuns.DeleteIsGoneIff | apps/desktop/src-tauri/src/browser_profile_store.rs:1087-1158 | After a delete that reported success the profile is gone if and only if it was marked, or moved, or the removal took at least its record, or it was gone before. |
| ProfileStoreRuns.DeleteHidesIff | apps/desktop/src-tauri/src/browser_profile_store.rs:1087-1158 | A delete that reports success takes the profile off the intact list if and only if it was marked, or moved, or was not on it, or the removal took its record. |
| ProfileStoreRuns.ADeleteThatDidNothing | apps/desktop/src-tauri/src/browser_profile_store.rs:1106-1148 | A delete whose every file operation failed reports success and leaves the profile listed. |
| ProfileStoreRuns.GoneStaysGoneIff | apps/desktop/src-tauri/src/browser_profile_store.rs:899-1158 | Whatever file operations fail, a call leaves a gone profile gone if and only if it does not create its id or move another profile, unmarked and whole, to its name. |
| ProfileStoreRuns.RecognizedIsNeverRemade | apps/desktop/src-tauri/src/browser_profile_store.rs:81-88 | No id that is listed is ever the name another profile is moved to. |
| ProfileStoreRuns.OneDirectoryOneLock | apps/desktop/src-tauri/src/browser_profile_store.rs:1266-1284 | Closing a profile under another id with the same directory removes the lock that an open under the first took. |
| ProfileStoreRuns.UnreadableStaysListedIff | apps/desktop/src-tauri/src/browser_profile_store.rs:1187-1219 | After a delete that was not refused a profile whose record cannot be read is listed as corrupted if and only if its id is one that is listed and its directory was neither moved nor removed altogether. |
| ProfileStoreRuns.ADeletedProfileStaysListed | apps/desktop/src-tauri/src/browser_profile_store.rs:1106-1111 | A history in which the record of a new profile is not written, its delete reports success, and it is listed as corrupted before and after. |
| ProfileStoreRuns.StepByFolder | apps/desktop/src-tauri/src/browser_profile_store.rs:831-848 | A call changes the folder of its own tenant's directory only; ids that differ in case or in dropped characters share one. |
| ProfileStoreRuns.CreateRefines | apps/desktop/src-tauri/src/browser_profile_store.rs:899-954 | A creation adds one intact profile under a new id, and when it fails none, whatever directory it leaves. |
| ProfileStoreRuns.OpenKeepsNames | apps/desktop/src-tauri/src/browser_profile_store.rs:973-1050 | Opening changes no profile's existence or name, and succeeds only for an intact one. |
| ProfileStoreAnswers.OpenAnswers | apps/desktop/src-tauri/src/browser_profile_store.rs:973-1050 | Opening succeeds if and only if the directory holds a readable record of an active profile, no live process other than the caller is read to hold its lock, and no file operation fails that taking the lock or finding the data directory needs; the lock is then the caller's. For each other answer the exact reason, and what it leaves of the folder. |
| ProfileStoreAnswers.CreateAnswers | apps/desktop/src-tauri/src/browser_profile_store.rs:899-954 | Creating answers with the generated id if and only if it is free and no step fails, and leaves an active, unlocked record of that name; for each error the exact reason and what is left. |
| ProfileStoreAnswers.RenameAnswers | apps/desktop/src-tauri/src/browser_profile_store.rs:956-966 | Renaming succeeds if and only if the record can be read and written, and changes its name alone. |
| ProfileStoreAnswers.CloseAnswers | apps/desktop/src-tauri/src/browser_profile_store.rs:1052-1068 | Closing always succeeds and removes the lock, if it can, and nothing else. |
| ProfileStoreAnswers.DeleteAnswers | apps/desktop/src-tauri/src/browser_profile_store.rs:1087-1158 | Deleting is refused exactly for a missing directory and for a readable lock of a live process; otherwise it is done, and the directory is moved under its deleted name if one of twenty attempts succeeds, or keeps its record marked, or is removed as far as that goes. |
| ProfileStoreAnswers.ListAnswers | apps/desktop/src-tauri/src/browser_profile_store.rs:1178-1222 | A directory is listed exactly under a name that begins with "profile-" and holds no "-deleted-": as its active record says, locked exactly when its lock names a live process, or as corrupted when the record cannot be read. |
| ProfileStoreRuns.RestartKeepsProfilesIff | apps/desktop/src-tauri/src/browser_profile_store.rs:763-776 | Starting the program keeps every tenant's profiles, except all those of a tenant whose directory is named default, when that directory is moved away. |
| ProfileStore.BrowserProfileStore.CreateProfile | apps/desktop/src-tauri/src/browser_profile_store.rs:899-954 | The directory steps in order, each with its failure, come to the creation function. |
| ProfileStore.BrowserProfileStore.OpenProfile | apps/desktop/src-tauri/src/browser_profile_store.rs:973-1050 | Likewise for opening, with the lock acquisition and with the last step, which may fail when the lock is taken; what that function answers is `OpenAnswers`. |
| ProfileStore.BrowserProfileStore.RenameProfile | apps/desktop/src-tauri/src/browser_profile_store.rs:956-966 | Likewise for renaming. |
| ProfileStore.BrowserProfileStore.CloseProfile | apps/desktop/src-tauri/src/browser_profile_store.rs:1052-1068 | Likewise for closing. |
| ProfileStore.BrowserProfileStore.DeleteProfile | apps/desktop/src-tauri/src/browser_profile_store.rs:1087-1158 | Mark, then move, then remove, each best effort, come to the deletion function. |
| ProfileStore.RenameWhenReleased | apps/desktop/src-tauri/src/browser_profile_store.rs:1465-1479 | Succeeds if and only if one of the twenty attempts does and the name is free. |
| ProfileStore.ListFolder | apps/desktop/src-tauri/src/browser_profile_store.rs:1178-1222 | In whatever order the directory is read, the entries are exactly those of the recognized directories that show, one each. |
| ProfileNames.SanitizeIsIdempotent | apps/desktop/src-tauri/src/browser_profile_store.rs:260-271 | A sanitized component is its own sanitization and holds no separator and no dot. |
| ProfileNames.SanitizeKeepsTheClean | apps/desktop/src-tauri/src/browser_profile_store.rs:260-271 | Characters other than ASCII letters, digits, hyphen and underscore are dropped wherever they stand, of the others the first 128 are kept, and nothing left becomes "invalid". |
| ProfileNames.TwoTenantsOneDirectory | apps/desktop/src-tauri/src/browser_profile_store.rs:260-271 | Sanitizing is not injective. |
| ProfileNames.CaseIsIgnored | apps/desktop/src-tauri/src/browser_profile_store.rs:351-380 | Two clean components that differ only in case name one directory. |
| ProfileNames.DirectoryNameIsIdempotent | apps/desktop/src-tauri/src/browser_profile_store.rs:351-380 | A directory name names its own directory. |
| ProfileNames.SanitizeDropsADot | apps/desktop/src-tauri/src/browser_profile_store.rs:260-271 | Every clean component of at most 128 characters has a second spelling with the same directory. |
| ProfileNames.GeneratedIsClean | apps/desktop/src-tauri/src/browser_profile_store.rs:60-68 | A generated id is its own directory name, case included. |
| ProfileNames.GeneratedTellsItsBytes | apps/desktop/src-tauri/src/browser_profile_store.rs:60-68 | An id is "profile-" and 32 lower-case hexadecimal digits that tell its sixteen random bytes. |
| ProfileNames.RecognizedMeans | apps/desktop/src-tauri/src/browser_profile_store.rs:81-88 | The names that are listed begin with "profile-" and hold no "-deleted-". |
| ProfileNames.GeneratedIsRecognized | apps/desktop/src-tauri/src/browser_profile_store.rs:60-88 | A generated id is listed and never taken for a deleted remnant. |
| ProfileNames.QuarantinedIsNotRecognized | apps/desktop/src-tauri/src/browser_profile_store.rs:81-88 | A directory moved away by a delete is never listed, whatever it was called. |
| UiaPoolRuns.PoolStaysInBounds | apps/desktop/src-tauri/src/browser_uia.rs:287-386 | Over every run of submissions, retirements, worker steps and deaths: slot ids are distinct, at most `max_workers` live, and live, retired and dropped slots add up to the workers created, never more than the lifetime budget. |
| UiaPoolRuns.NotBusyIsIdle | apps/desktop/src-tauri/src/browser_uia.rs:525-529 | A worker whose flag is clear has an empty channel and nothing running. |
| UiaPoolRuns.JobsStartAtMostOnce | apps/desktop/src-tauri/src/browser_uia.rs:525-529 | A job starts at most once, on the worker it was accepted for, even if its slot is retired. |
| UiaPoolRuns.AcceptedJobsAreKept | apps/desktop/src-tauri/src/browser_uia.rs:317-370 | An accepted job has started, waits in that one worker's channel, or was lost with that worker's death. |
| UiaPoolRuns.RefusedInRunIff | apps/desktop/src-tauri/src/browser_uia.rs:337-359 | In any run and for every scan, also one that misses a slot freed behind it, `submit` refuses if and only if the first slot it found has a dead worker and the lifetime budget is spent, or it found none and the pool is full or the budget spent; and a scan that misses nothing finds one while some slot has an idle live worker. |
| UiaPoolRuns.AnIdleWorkerIsOverlooked | apps/desktop/src-tauri/src/browser_uia.rs:337-359 | A run after which PoolExhausted is returned although an idle live worker exists. |
| UiaPoolRuns.SpentBudgetAcceptsIff | apps/desktop/src-tauri/src/browser_uia.rs:269-275 | In any run with the lifetime budget spent `submit` accepts, on that slot, if and only if the first slot it finds free has a live worker, and otherwise refuses. |
| UiaPoolRuns.ASpentBudgetStillAccepts | apps/desktop/src-tauri/src/browser_uia.rs:269-275 | A run after which the budget is spent and the next `submit` is accepted. |
| UiaPool.RefusedIff | apps/desktop/src-tauri/src/browser_uia.rs:337-359 | When exactly `submit` refuses, for every scan: nothing found free and no room or budget, or the one slot found was dead and no budget. |
| UiaPool.RefusedDespiteIdleIff | apps/desktop/src-tauri/src/browser_uia.rs:337-359 | The same condition for one pool state. |
| UiaPool.IdleWorkerGetsTheJob | apps/desktop/src-tauri/src/browser_uia.rs:337-342 | For all limits, scans and ends of a creation: the first slot found free, if its worker lives, gets the job at the end of its channel and is the one returned, and nothing else changes. |
| UiaPool.OthersCreateAWorker | apps/desktop/src-tauri/src/browser_uia.rs:343-370 | Otherwise a dead worker found leaves the pool, and a worker is created exactly when there is room and budget: a failed handshake is ComFailure and uses up an id; a ready one takes the last slot, a unit of the budget and the job. |
| UiaPool.RetireTakesTheSlot | apps/desktop/src-tauri/src/browser_uia.rs:383-386 | Retiring takes that slot away, leaves the others in order, and closes its channel and nothing else. |
| UiaPool.UiaWorkerPool.SubmitJob | apps/desktop/src-tauri/src/browser_uia.rs:317-370 | The scan, the send, the dropped slot and the creation come to the submission function on the whole pool state; what that function does is `IdleWorkerGetsTheJob` and `OthersCreateAWorker`. |
| UiaPool.UiaWorkerPool.GrowFor | apps/desktop/src-tauri/src/browser_uia.rs:287-370 | The limits and counters of creating a worker; a failed handshake uses up an id but no budget. |
| UiaPool.UiaWorkerPool.FindIdle | apps/desktop/src-tauri/src/browser_uia.rs:338-338 | The first slot whose worker is not busy. |
| UiaPool.UiaWorkerPool.RetireSlot | apps/desktop/src-tauri/src/browser_uia.rs:383-386 | The slot is gone and its sender dropped; every other slot and worker is unchanged. |
| UiaPool.Retain | apps/desktop/src-tauri/src/browser_uia.rs:385-385 | Keeps every other slot, in order. |
| Bridge.ProcessPendingNotice | apps/desktop/src-tauri/src/browser_bridge.rs:190-319 | For every sequence of backend answers: nothing happens unless the surface is there and bound to the notice's profile; without a successful claim nothing is executed or reported; otherwise at most one execution, exactly when the claim brought the announced grant, whose rejected signature is flagged, and one to three identical reports, another only after one that was neither a success nor answered below 500, Reported exactly when the last answer is a success, with a wait between each two that doubles every time. |
| Bridge.SendReport | apps/desktop/src-tauri/src/browser_bridge.rs:297-318 | The report loop alone, with the same statement. |
| BridgePermits.CounterIsLivePermits | apps/desktop/src-tauri/src/browser_bridge.rs:330-353 | In every interleaving of loads, exchanges and drops of any number of threads the counter is the number of live permits and never exceeds eight. |
| BridgePermits.RefusedOnlyAtTheLimit | apps/desktop/src-tauri/src/browser_bridge.rs:330-345 | A call is refused only if at some moment of that call all eight permits were live. |
| BridgePermits.ExchangeSucceedsIff | apps/desktop/src-tauri/src/browser_bridge.rs:337-344 | An exchange succeeds if and only if the number of live permits is the value last observed. |

## Left out

- Expiry at the moment of the effect: the code checks it before waiting for the surface's lock, and so does the model.
- Cancellation of a call's future in the middle (its guard dropped without an audit entry): not modelled.
- A timed-out UI job that runs on after its call has returned: the pool model covers the job, the redeem model does not connect the two.
- The blanket denials of popups, downloads and permission requests (`NotYetSupported`), which no request is evaluated for.
- Timeout lengths and their clamping, screenshot bytes, result payloads, audit detail texts.
- The order of the `fields` vector of an extract operation: the effect holds it as a map.
- WebView2, COM, UI Automation calls, Tauri plumbing, `icacls`: only the outcomes they deliver.
- URL parsing and alternate spellings of addresses: the model starts from the parsed scheme and host.
- JSON decoding of notices and claims (`parse_pending_notice`, `capability_result_object`): the model starts from the decoded values.
- The verification-key cache, which only decides which key is asked.
- Profile store: symbolic links, canonicalization, the audit log file, WebView2's own data, a store instance's concurrent calls on one profile, transient failures to read a record in open and list, and which error a failed path resolution gives.
- UIA handshake timeouts that leave a thread behind, and the pool's `Drop`: no job is ever sent to such a thread.
- OneEffectPerPayload: asks that neither grant id holds a colon; `OneSignatureTwoEffects` shows that it fails for every id that does.
- NavigationReplyIsFirstEvent: the outcome is that of the first event after arming, not necessarily of the navigation this call issued, because the code cannot tell them apart.
- StoreRefinesLedger: requires that no delete of the tenant failed throughout, because after one the code lists the profile again; `RunRefinesIff` is the exact condition for each call.
- LocksFollowUse: requires teardown to run with no creation in flight and no step to sever a lock, because `take_all` clears the counts and closing a profile removes whatever lock its directory has; `TakeAllKeepsCountsIff` and `StepKeepsLocksIff` are the exact conditions.
- AValidGrantCanBeCarriedOut: the platform, the page and the UI worker are taken to succeed; the worker's own bounds, such as fifty fields to extract, are not in the model.
- NeverTwoHolders: requires that no step takes the lock from a process that holds it, because the code removes and replaces lock files without looking whose they are; `StepKeepsExclusiveIff` is the exact condition for each step.
- Event plumbing, the sidecar, the C# agent, the front end, the backend engines and the migrations: outside the protocol.
