# Verified models of the platform's own logic

This project models seven parts of the repository that hold real logic and proves
properties of the models with Dafny. `dafny verify dfyconfig.toml` checks all of it.

| files | what they model |
|---|---|
| `text.dfy` | the string operations the rest shares: trimming, splitting, joining, splitting into lines, sorting, printing numbers |
| `doc_rules.dfy`, `check_docs.dfy`, `gen_register.dfy` | the document register: its parsers, the checker, the generator and printer |
| `register_*.dfy` | what holds of generator, printer, parsers and checker together |
| `tool_policy.dfy`, `tool_calling.dfy`, `tool_runs.dfy`, `tool_safety.dfy`, `tool_timeline.dfy` | who decides about a tool call, the model-tool-model loop, and what holds of every run of it |
| `permission_*.dfy` | the permission cascade, the checker that remembers its answers, whose credentials it is safe for, and what overlapping checks do to it |
| `account_lockout.dfy`, `lockout_interleaving.dfy`, `lockout_redis.dfy` | counting failed logins and locking accounts in Redis, one call at a time and interleaved, as a machine and as runs of Redis commands |
| `base64.dfy`, `pkce.dfy`, `registry_seed.dfy` | base64, PKCE verifiers and challenges, one-time OAuth states, reading the signing seed |
| `capsule_versions.dfy`, `capsule_core.dfy`, `capsule_integrity.dfy`, `capsule_tampering.dfy`, `capsule_import.dfy`, `capsule_instance.dfy` | the life of capsules: certify, edit, archive, inject, tables somebody tampers with, import of tools, running instances |
| `multimodal_dag.dfy` | executing a list of nodes with dependencies |
| `chat_transcript.dfy` | transcript rows and message counts under interleaved chat turns |

How the models are built:

- Code that changes things step by step is a method or a class whose contract ties it to
  a function of its inputs; lemmas then say what is true of that function. The functions
  named in these contracts are specifications, not a second implementation to compare.
- Redis is a map from key to value and expiry, a key being live before its expiry. Tables
  are maps from identifier to record. Signatures are ideal: a signature of the registry is
  the payload it was made for. Identifiers that the code draws at random are parameters.
- Whatever cannot be seen (model streams, gates, the decision service, humans, tools, the
  policy engine, the membership store) is a function or a value that the theorems quantify over.

## What turned out

- After the generator has rewritten the register, the checker fails nothing (rule C-10
  apart) exactly when the header fields kept from the old register are well formed and no
  document leaves an identifier gap: a faultless document without an identifier of its own
  at `docs/README.md`, whose identifier the generator makes up, or in a file called `—.md`.
  It does happen at both, whatever the patterns and the calendar (`RegisterGap.GapsOccur`).
  The checker then exits with success exactly when the quality manual fits too and, in
  strict mode, no document has a problem. Rule C-10 judges an identifier that several
  documents share by the first one's claim alone (`RegisterDuplicates.DuplicatesOccur`).
- Regenerating on the same day is a fixed point exactly when the old register carried a
  version, a next review and the register's own identifier; the generator fills the
  version and the review in differently in the header and in the row. The first
  regeneration of an empty register is therefore not settled
  (`RegisterGap.EmptyRegisterUnsettled`); a second regeneration always is.
- The comment that with `require_hitl` nothing runs without a human does not hold: exactly
  the memory kit and a `memory_forget` with a query still run, and there are runs in which
  they do (`ToolSafety.RunsWithoutHuman`).
- The permission cache is faithful exactly when the cascade does not change its mind under
  one key between two clears; for given calls, whatever the membership store and the engine
  say and however they change at clears, exactly when a question asked again comes with the
  same standing. Roles and scopes
  are not part of the key, so a revoked role keeps its grants, and a scoped key can get its
  owner's answer. Identifiers that contain a colon can share a key across users and
  organizations. Where checks overlap, all answers rest on what store and engine said since
  the last clear exactly when no check goes on, after a clear, to an answer that rests on a
  word from before it; every request that has to wait for either can be overtaken like that,
  and then the new epoch remembers and gives the old verdict.
- An account that is not locked always has an attempt left exactly when the attempt window
  is no longer than the lock. With a longer window the lock runs out before the count. What
  a check reports is another matter, since it reads the lock first and the counter later:
  failures in between can make it report no lock and nothing left. If none locks the account
  in between, a check reports a lock or an attempt left under the same condition; without
  that proviso, only if the window is not positive.
- The seed's hexadecimal form is accepted with white space between the pairs of digits,
  where the documentation promises 64 digits only.
- Certification leaves the row's `constitution_ref` as it was: the new value is set on the
  caller's object, and another object is saved. Only the caller's object is asked whether it
  is a draft, so an object that has fallen behind brings an archived capsule back to life.
- An edit of an active capsule is refused exactly when the new identifier is taken or some
  row has its name and tenant with the next version, because the version is computed from
  the parent alone. A second edit is therefore refused, whatever happens in between, for as
  long as the first edit's draft keeps its name and version.
- Whoever can write the tables cannot get unsigned content injected, but can bring back any
  content that was ever certified.
- The warning about a tool renamed on import is never given.
- In parallel mode no node of a DAG sees another's failure. The two modes give a node the
  same result exactly when no chain of dependencies leads from it to another node whose
  operation is not wired; the overall status is the same in both.

## Model

| member | source | states |
|---|---|---|
| DocRules.ParseControlTable | scripts/check_docs.py:116-142 | the field dictionary of the first Document Control table, row by row |
| DocRules.ParseRevisionHistory | scripts/check_docs.py:145-168 | whether there is a revision history and its column names |
| DocRules.ParseRegister | scripts/check_docs.py:175-208 | the register's rows by file: header found by its two columns, short rows and rulers skipped, stop at the first line outside the table |
| DocRules.ReadRow | scripts/check_docs.py:202-207 | one line of the register: too short, without a file, or one row under its file |
| CheckDocs.CheckFields | scripts/check_docs.py:335-413 | the findings of rules C-04 to C-09 on one document, in order |
| CheckDocs.CheckDocument | scripts/check_docs.py:271-416 | all findings on one document under the register's claim, and what the document adds to the identifiers, their claims and the tracked documents |
| CheckDocs.CheckRegistered | scripts/check_docs.py:256-260 | rule C-01: a finding for each file the register does not list |
| CheckDocs.CheckListed | scripts/check_docs.py:262-265 | rule C-02: a finding for each listed file that does not exist |
| CheckDocs.CheckManual | scripts/check_docs.py:418-437 | rule C-10: identifiers only the quality manual lists, and those of the ISO series that only documents have, each under its first claim |
| CheckDocs.Check | scripts/check_docs.py:239-468 | all findings, the documents tracked as not compliant, and the status the script exits with, strict mode included |
| GenRegister.FindContentProblems | scripts/gen_register.py:42-81 | the generator's own judgement of a document, problem by problem |
| RegisterEntries.EntryForNeat | scripts/gen_register.py:107-147 | the cells of a row are clean: no bars, no line breaks, and no white space at their ends but in an annex's identifier and a title |
| RegisterTheorems.EntryCompliance | scripts/gen_register.py:107-147 | a row says Annex for an annex, else Compliant exactly when the generator finds no problem |
| GenRegister.BuildRows | scripts/gen_register.py:105-166 | the rows sorted by file, the register's own row first |
| GenRegister.PrintLines | scripts/gen_register.py:172-266 | the printed lines, section by section |
| GenRegister.Generate | scripts/gen_register.py:105-268 | the text written, from the tree and the old register |
| RegisterPrint.CellsOfRow | scripts/gen_register.py:237-240 | a printed row splits back into its cells, up to white space at their ends |
| RegisterRoundTrip.ControlFieldsNeat | scripts/check_docs.py:116-142 | parsed fields have no bars, no line breaks and no white space at their ends |
| RegisterPreamble.ControlTableRead | scripts/gen_register.py:175-196 | the printed Document Control table parses back to its pairs |
| RegisterReadBack.HeaderReadBack | scripts/gen_register.py:172-196 | from the whole printed text exactly the printed header fields come back |
| RegisterReadBack.HistoryReadBack | scripts/gen_register.py:198-210 | from the whole printed text the required history columns come back |
| RegisterRowsBack.RowsReadBack | scripts/gen_register.py:229-241 | parsing the printed register gives exactly the printed rows by file: none lost, none skipped, none from another table |
| RegisterEntries.SortKeeps | scripts/gen_register.py:149 | sorting loses and adds no row |
| RegisterEntries.SortOrdered | scripts/gen_register.py:149 | the rows are in the order of their files |
| RegisterEntries.EntriesGood | scripts/gen_register.py:105-166 | one row per document and one for the register, with distinct files, in order, all printable |
| RegisterEntries.SummaryAddsUp | scripts/gen_register.py:168-170 | the three counts of the summary add up to the number of rows |
| RegisterAgreement.NoProblems | scripts/gen_register.py:42-81 | a document without problems satisfies every rule of the checker, save perhaps naming its identifier |
| RegisterTheorems.DocAgrees | scripts/check_docs.py:234-413 | the checker passes a registered document if and only if it leaves no identifier gap, whatever day it runs |
| RegisterTheorems.RegisterAgrees | scripts/gen_register.py:151-196 | the checker passes the register itself if and only if its kept header fits |
| RegisterTheorems.OnlyContentFindings | scripts/check_docs.py:256-265 | after a regeneration rules C-01 and C-02 find nothing |
| RegisterTheorems.RegenerationPasses | scripts/check_docs.py:239-416 | after a regeneration the checker fails nothing if and only if the kept header fits and no document leaves an identifier gap |
| RegisterVerdict.ManualPasses | scripts/check_docs.py:418-437 | rule C-10 fails nothing if and only if documents have every identifier the manual lists, and the manual lists every identifier of the ISO series whose first document is claimed Compliant |
| RegisterVerdict.FirstClaimIsFirst | scripts/check_docs.py:300 | the claim that counts for an identifier is that of the first document, annexes apart, that has it |
| RegisterVerdict.DuplicatePasses | scripts/check_docs.py:430-437 | a Compliant document that shares its identifier with an earlier non-compliant one need not be in the manual |
| RegisterDuplicates.DuplicatesOccur | scripts/check_docs.py:430-437 | for any patterns and calendar there are two such documents, in this order in the tree, the first overdue; alone, the second would have to be in the manual |
| RegisterVerdict.RegenerationVerdict | scripts/check_docs.py:239-468 | after a regeneration the script exits with success if and only if header, identifiers and manual fit and, in strict mode, no document has a problem |
| RegisterTheorems.GapExactly | scripts/gen_register.py:133 | the generator finds neither a problem nor an identifier exactly at a faultless document in one of two places |
| RegisterFixedPoint.GapPlaces | scripts/gen_register.py:133 | these are `docs/README.md` and files whose name is the dash |
| RegisterGap.GapsOccur | scripts/gen_register.py:133 | for any patterns, calendar and day there is such a document at both places |
| RegisterGap.GapFailsTheCheck | scripts/check_docs.py:335-341 | whatever the register held, a tree with such a document fails the check right after a regeneration |
| RegisterAgreement.NoProblemsExactly | scripts/gen_register.py:42-81 | the generator finds no problem if and only if the document satisfies every rule, its review is not overdue, and its identifier, if any, fits the place |
| RegisterFixedPoint.RegenerationNeverFails | scripts/check_docs.py:239-416 | with identifiers named and a well-formed header the checker never fails after a regeneration |
| RegisterFixedPoint.ParsedRowsAreGenerated | scripts/check_docs.py:175-208 | the parsed register has one row per document and one for itself, and no other; each holds the generated cells, stripped, which are the generated ones unless a file name ends in white space |
| RegisterFixedPoint.RegenerationIsFixedPoint | scripts/gen_register.py:151-196 | regenerating on the same day changes nothing if and only if the old register carried version, next review and the register's identifier |
| RegisterFixedPoint.SecondRegenerationSettles | scripts/gen_register.py:105-268 | a third regeneration of a day never changes the second one's text |
| RegisterGap.EmptyRegisterUnsettled | scripts/gen_register.py:151-196 | from an empty register the second regeneration of a day writes another text than the first |
| RegisterWording.WordingIsGood | scripts/gen_register.py:190-266 | the sentences the generator prints stay within their cells and open no table and no heading of their own |
| RegisterWording.RealRegisterPasses | scripts/check_docs.py:239-416 | the theorem on checking after a regeneration, for the register with its real wording |
| RegisterWording.RealRegisterVerdict | scripts/check_docs.py:239-468 | the theorem on the exit status after a regeneration, for the register with its real wording |
| RegisterWording.RealRegisterSettles | scripts/gen_register.py:105-268 | the theorem on regenerating twice, for the register with its real wording |
| RegisterPremises.PremisesCanBeMet | scripts/gen_register.py:105-268 | the premises of the register's theorems hold together, of an empty register on any day with a review date |
| ToolPolicies.Choke | services/common/decisions/guardrail.py:96-160 | the guardrail only tightens, and never lets a tool of the highest tier run on its own |
| ToolPolicies.FloorNeverLowers | admin/core/tool_calling.py:161-190 | the autonomy floor never lowers a decision and never adds or lifts a denial |
| ToolPolicies.FloorIdempotent | admin/core/tool_calling.py:161-190 | applying the floor twice is applying it once; two levels decide as the stricter one |
| ToolPolicies.KitStaysAutomatic | admin/core/tool_calling.py:96-123 | when everything should wait for a human, exactly the undenied memory kit still runs on its own |
| ToolPolicies.AuthorizeExactly | admin/core/tool_calling.py:240-316 | exactly when a call runs alone and exactly when it is refused, over all layers |
| ToolPolicies.AuthorizeNeverBelowPolicy | admin/core/tool_calling.py:240-316 | the choke never decides below the capsule's policy, a `memory_forget` with a query apart |
| ToolPolicies.BindsIdentity | admin/core/tool_calling.py:497-520 | memory and research tools get the capsule's identity whatever the model wrote |
| ToolPolicies.BindsNothingElse | admin/core/tool_calling.py:497-520 | no other argument is touched |
| ToolCalling.Turn.constructor | admin/core/tool_calling.py:397-409 | the caller's transcript is the start and nothing has been yielded |
| ToolCalling.Turn.ReadStream | admin/core/tool_calling.py:449-484 | the events of a model stream, fragments included, and the last list of calls in it |
| ToolCalling.Turn.HandleCall | admin/core/tool_calling.py:494-639 | the steps of one call: decision, approval, execution, event and result, all with the arguments the capsule's identity was bound into |
| ToolCalling.Turn.HandleCalls | admin/core/tool_calling.py:494-639 | all calls of a round in order |
| ToolCalling.Turn.Round | admin/core/tool_calling.py:440-493 | one round with tools, and whether the loop goes on |
| ToolCalling.Turn.Run | admin/core/tool_calling.py:397-651 | a run takes exactly the steps of the specification; the transcript is the untouched start and what these steps appended |
| ToolRuns.TranscriptShape | admin/core/tool_calling.py:440-639 | at every moment of every run: closed blocks, at most one open block, one block per round, at most as many as the cap |
| ToolSafety.ModelRounds | admin/core/tool_calling.py:440-651 | at most one round more than the cap; the tool-less one takes place exactly when all before it asked for tools |
| ToolSafety.ExecutesExactly | admin/core/tool_calling.py:494-639 | a call is executed if and only if its round is reached, nothing forbids it, and it may run alone or a human agreed |
| ToolSafety.NothingUnsanctionedRuns | admin/core/tool_calling.py:240-316 | executed calls passed the gate, are not denied, keep to egress, need a human in the highest tier or when unlisted, and carry the capsule's tenant |
| ToolSafety.RunsWithoutHuman | admin/core/tool_calling.py:240-316 | for every tool of the memory kit and every `memory_forget` with a query there is a run under `require_hitl`, without anybody to ask, that executes it |
| ToolSafety.RecallRunsWithoutHuman | admin/core/tool_calling.py:96-123 | `memory_recall` is such a call |
| ToolSafety.ForgetRunsWithoutHuman | admin/core/tool_calling.py:240-316 | a `memory_forget` with a query is such a call |
| ToolSafety.ExecutedOnceInOrder | admin/core/tool_calling.py:494-639 | executions follow rounds and calls, none twice |
| ToolTimeline.EveryCallIsTold | admin/core/tool_calling.py:530-639 | consumer and model are told the same about every call; what a human is asked about is what is executed or closed next, with the very arguments shown; nothing succeeds without an execution, no refused call is executed |
| ToolTimeline.StreamAnnounced | admin/core/tool_calling.py:454-478 | within a round every call is announced once, before its first fragment |
| PermissionMatrix.EngineOnlyNarrows | admin/core/permission_matrix.py:184-202 | an attached engine narrows the floor and adds nothing |
| PermissionMatrix.NoAuthorityFromNowhere | admin/core/authz.py:512-550 | no organization, a scope that is not listed, or no user: nothing is allowed |
| PermissionMatrix.PermissionChecker.PermissionsForRoles | admin/core/authz.py:553-563 | the union of the roles' grants |
| PermissionMatrix.PermissionChecker.PermissionsForPrincipal | admin/core/authz.py:512-550 | a key's authority is its scopes, a person's what the roles grant, none without an organization |
| PermissionMatrix.PermissionChecker.Check | admin/core/permission_matrix.py:122-211 | the remembered answer if there is one, else the cascade's, which is then remembered; with the permission's level and the reason |
| PermissionMatrix.PermissionChecker.ClearCache | admin/core/permission_matrix.py:314-316 | nothing is remembered any more |
| PermissionMatrix.PermissionChecker.ListUserPermissions | admin/core/permission_matrix.py:283-312 | asks about each granted permission in ascending order and lists those answered with yes |
| PermissionCache.CacheFaithfulExactly | admin/core/permission_matrix.py:147-211 | over any history all answers are the cascade's if and only if the cascade's answer under a key is steady between clears |
| PermissionCache.KeyInjective | admin/core/permission_matrix.py:158 | for plain identifiers and catalog names, equal keys mean the same question |
| PermissionCache.PlainCacheIsFaithful | admin/core/permission_matrix.py:147-211 | with plain identifiers all answers are the cascade's if its answer to a question does not change between clears |
| PermissionStanding.HarmlessExactly | admin/core/permission_matrix.py:147-211 | given calls with plain identifiers are answered as the cascade would, whatever store and engine say and however they change at clears, if and only if every question repeated between two clears comes with the same standing |
| PermissionStanding.SameCredentialsAreHarmless | admin/core/permission_matrix.py:147-211 | callers who bring the same roles and scopes along with the same question are safe |
| PermissionRaces.FreshExactly | admin/core/permission_matrix.py:156-211 | over any schedule of checks that wait for store and engine, every answer rests only on what these said since the last clear if and only if no check goes on with an older word to its answer |
| PermissionRaces.AnswersRightExactly | admin/core/permission_matrix.py:156-211 | the same condition decides whether, for every course of the truth, answers are those of the epoch they are given in |
| PermissionRaces.OrderlyAnswersAreRight | admin/core/permission_matrix.py:156-211 | then truthful judgements make every answer the cascade's of its epoch |
| PermissionRaceWorlds.TimelyAnswersAreAllowed | admin/core/permission_matrix.py:156-211 | under the same condition every answer is what the plain cascade says in the world of its epoch, if store and engine change at clears only and one key has one answer |
| PermissionSchedules.AloneIsAtomic | admin/core/permission_matrix.py:122-211 | a check that nothing comes in between of is the atomic one: the remembered answer, or the cascade's |
| PermissionSchedules.InTurnIsTheChecker | admin/core/permission_matrix.py:122-211 | where no checks overlap, any history leaves the same memory and the same answers as the atomic checker, and nothing is late |
| PermissionSchedules.WaitsExactly | admin/core/permission_matrix.py:169-195 | exactly requests that ask the store, or that an attached engine has to judge, are not answered on the spot |
| PermissionSchedules.ClearIsOvertaken | admin/core/permission_matrix.py:156-211 | from any state and for every request that waits, a word from before a clear becomes the answer after it, and is remembered and given again |
| PermissionListing.ListingExact | admin/core/permission_matrix.py:283-312 | while answers are faithful a listing is exactly the allowed permissions of the whole catalog, sorted |
| PermissionListing.StaleRoles | admin/core/permission_matrix.py:158-166 | a revoked role keeps its grant until the cache is cleared |
| PermissionListing.ScopesShareTheMemory | admin/core/permission_matrix.py:158-166 | a key without the permission gets the answer its owner got |
| PermissionListing.KeysCollide | admin/core/permission_matrix.py:158 | identifiers with a colon make two different questions share a key |
| PermissionListing.ColonsCollide | admin/core/permission_matrix.py:158-166 | through such a key one user gets another's answer |
| AccountLockout.KeysApart | admin/common/account_lockout.py:106-165 | no two accounts share a key and no counter is a lock |
| AccountLockout.OthersKept | admin/common/account_lockout.py:159-165 | touching one account's two keys leaves what is held of every other account, so emails that differ in lower case never interact |
| AccountLockout.OwnGrows | admin/common/account_lockout.py:159-165 | an event counts for the account of its lower-cased email and for no other |
| AccountLockout.RunIsLongest | admin/common/account_lockout.py:224-231 | the counted run is the longest trailing stretch of failures with every gap inside the window |
| AccountLockout.LastLockIsLast | admin/common/account_lockout.py:236-244 | the lock in force is the latest failure that reached the threshold and was not cleared |
| AccountLockout.AccountLockoutService.ReadLock | admin/common/account_lockout.py:179-186 | the first read of a check: whether there is a live lock, from which failure and until when |
| AccountLockout.AccountLockoutService.ReadAttempts | admin/common/account_lockout.py:197-198 | the second read of a check: the live run |
| AccountLockout.AccountLockoutService.CheckLockout | admin/common/account_lockout.py:167-205 | undisturbed: locked if and only if some failure within the lock's duration reached the threshold with no clear after it; otherwise the live run and what remains at the second read |
| AccountLockout.AccountLockoutService.RecordFailedAttempt | admin/common/account_lockout.py:207-265 | the report is the length of the account's own run, locked from the threshold on; other accounts are untouched |
| AccountLockout.AccountLockoutService.RecordSuccessfulLogin | admin/common/account_lockout.py:267-281 | ends the run and leaves a lock |
| AccountLockout.AccountLockoutService.ClearLockout | admin/common/account_lockout.py:283-308 | ends run and lock, and says whether the account was locked |
| LockoutInterleaving.RunKeeps | admin/common/account_lockout.py:224-265 | under any interleaving an uncovered count at the threshold has a failure in flight, if the window is no longer than the lock |
| LockoutInterleaving.CountOutlastsLock | admin/common/account_lockout.py:224-265 | with a longer window there is a run whose count outlives its lock |
| LockoutInterleaving.CoveredExactly | admin/common/account_lockout.py:224-265 | counts at the threshold are always covered by a lock that outlives them if and only if the window is no longer than the lock |
| LockoutInterleaving.AttemptLeftExactly | admin/common/account_lockout.py:224-265 | the state of an account neither locked nor being locked always leaves an attempt, under the same condition and no other |
| LockoutInterleaving.ReportUnlessLockingExactly | admin/common/account_lockout.py:179-205 | a check whose two reads no locking failure comes between reports a lock or an attempt left, under the same condition and no other |
| LockoutInterleaving.LockedBetweenReads | admin/common/account_lockout.py:179-205 | whole failures between the two reads make a check report no lock and nothing left |
| LockoutInterleaving.ReportExactly | admin/common/account_lockout.py:179-205 | every check reports a lock or an attempt left if and only if the window is not positive |
| LockoutInterleaving.NothingLeftExplained | admin/common/account_lockout.py:179-205 | with a window no longer than the lock, a report of no lock and nothing left means that the account was locked between the reads and is locked now |
| LockoutRedis.StepsAreRedis | admin/common/account_lockout.py:224-308 | each step of the interleaving is the Redis command it stands for, on the account's two keys |
| LockoutRedis.RunsAreRedis | admin/common/account_lockout.py:224-308 | every run of Redis commands is a run of the machine and the other way round, up to what has expired |
| LockoutRedis.CoveredInRedisExactly | admin/common/account_lockout.py:224-265 | over all runs of Redis commands, live counters at the threshold are covered by live locks that outlive them if and only if the window is no longer than the lock |
| LockoutRedis.NothingLeftIsALock | admin/common/account_lockout.py:179-205 | over all runs of Redis commands, what a report of no lock and nothing left means |
| Base64.Sextets | admin/common/pkce.py:48 | the length of unpadded base64 |
| Base64.DecodeEncode | services/registry_service.py:64-66 | decoding gives back what was encoded |
| Base64.BareIsData | admin/common/pkce.py:47-50 | stripping the trailing `=` leaves exactly the data characters, all of the alphabet |
| Base64.EncodeInjective | admin/common/pkce.py:65-71 | different bytes have different encodings, padded or not |
| Pkce.VerifierExact | admin/common/pkce.py:25-50 | exactly the lengths 43 to 128 are accepted; the verifier then has exactly that length and unreserved characters only |
| Pkce.ChallengeExact | admin/common/pkce.py:53-71 | a challenge has 43 unreserved characters and tells digests apart |
| Pkce.OAuthStateStore.StoreState | admin/common/pkce.py:178-215 | stores a fresh state with verifier, redirect URI, provider and the moment's text for 600 seconds |
| Pkce.OAuthStateStore.GetState | admin/common/pkce.py:217-241 | answers what is held and live |
| Pkce.OAuthStateStore.ConsumeState | admin/common/pkce.py:243-277 | answers what is held and live, and deletes it in the same step |
| Pkce.ConsumedExactly | admin/common/pkce.py:243-277 | a state is handed out if and only if it was stored less than 600 seconds ago and not consumed since, with what it was stored with |
| Pkce.ConsumedOnce | admin/common/pkce.py:243-277 | no state is handed out twice |
| RegistrySeed.AcceptedExactly | services/registry_service.py:42-82 | exactly which texts are accepted, and for which 32 bytes |
| RegistrySeed.HexAccepts | services/registry_service.py:71-76 | the hexadecimal reading accepts exactly pairs of digits with white space between pairs and around them |
| RegistrySeed.ReadingsApart | services/registry_service.py:63-76 | no text is a 32-byte seed under both readings |
| RegistrySeed.SeedRoundTrip | services/registry_service.py:42-82 | every 32-byte seed comes back from its base64 and from its hexadecimal text, in either case and with any white space around it |
| CapsuleVersions.PatchGoesUp | services/capsule_core.py:254-263 | a three-part version with a numeric patch gets the next patch |
| CapsuleVersions.IncrementIsNewer | services/capsule_core.py:254-265 | every edit has more parts or a greater patch, for well-formed and malformed versions |
| CapsuleVersions.VersionsNeverRepeat | services/capsule_core.py:254-265 | no version repeats along a chain of edits |
| CapsuleCore.CapsuleStore.CreateCapsule | admin/core/models/core.py:326-427 | a draft under a free name, version and tenant, with the default kit and a policy, or a refusal |
| CapsuleCore.CapsuleStore.EditCapsule | services/capsule_core.py:179-235 | drafts change in place, active capsules spawn a draft, archived ones refuse |
| CapsuleCore.CapsuleStore.CertifyCapsule | services/capsule_core.py:116-156 | the caller's object says whether there is a draft and gets the new references; the row is bound, signed as it then is, and activated; refused without a draft or an active constitution |
| CapsuleCore.CapsuleStore.ArchiveCapsule | services/capsule_core.py:238-246 | the status becomes archived |
| CapsuleCore.CapsuleStore.InjectCapsule | services/capsule_core.py:159-176 | an active capsule that verifies, or why not |
| CapsuleIntegrity.ApplySound | services/capsule_core.py:116-246 | every operation keeps active capsules verifying and names unique |
| CapsuleIntegrity.ActiveAlwaysVerifies | services/registry_service.py:112-245 | in every reachable state each active capsule verifies and is injected as it is |
| CapsuleIntegrity.SealedContentNeverChanges | services/capsule_core.py:179-246 | through any operations an active or archived capsule keeps its content, its signature and what the signature is for |
| CapsuleIntegrity.TamperedNeverInjects | services/capsule_core.py:159-176 | injection fails if and only if the content is not what was signed |
| CapsuleIntegrity.EverySignedFieldCounts | services/registry_service.py:187-245 | a capsule verifies under another's signature only if all signed fields agree |
| CapsuleTampering.InjectedWasCertified | services/capsule_core.py:159-176 | in every run of the services and of somebody who rewrites the tables at will but can only copy signatures, whatever is injected carries a payload that some certification of that run signed |
| CapsuleTampering.SignedCanBeReplayed | services/registry_service.py:187-245 | every payload signed in such a run can be made injectable again |
| CapsuleIntegrity.CertifySeals | services/registry_service.py:112-185 | when certification succeeds, and what it seals: all of the row but constitution, signature and status stays |
| CapsuleIntegrity.CertifiesTheRow | services/capsule_core.py:116-156 | certifying by a held object is certifying its row if and only if nothing is active or both or neither are drafts |
| CapsuleIntegrity.StaleObjectRevives | services/capsule_core.py:116-156 | an object that still says draft makes an archived capsule active and injectable again |
| CapsuleIntegrity.EditSpawns | services/capsule_core.py:192-231 | the spawned draft, field by field, with the next version, its own signature missing, and the parent's tools |
| CapsuleIntegrity.EditRefusedExactly | services/capsule_core.py:192-231 | an edit of an active capsule is refused if and only if the new identifier is taken or some row has its name and tenant with the next version |
| CapsuleIntegrity.LaterEditRefusedExactly | services/capsule_core.py:192-231 | the same after any operations, in terms of the capsule as it was |
| CapsuleIntegrity.RefusedWhileDraftKeepsName | services/capsule_core.py:192-231 | after an edit and any operations, a further edit is refused if the spawned draft still has its name and version |
| CapsuleIntegrity.EditsDraftInPlace | services/capsule_core.py:184-190 | exactly the carried fields change, and exactly when the edit is refused |
| CapsuleIntegrity.ArchivedForGood | services/capsule_core.py:238-246 | archiving takes nothing but the status, and nothing undoes it |
| CapsuleImport.AheadShrinks | services/capsule_import.py:319-323 | each taken name passed leaves fewer taken names ahead, so the search ends |
| CapsuleImport.FirstFreeIsFirst | services/capsule_import.py:319-323 | the search finds the smallest free suffix |
| CapsuleImport.NameGiven | services/capsule_import.py:318-323 | a tool keeps its name exactly when it is free, else gets the smallest free suffix |
| CapsuleImport.ImportExact | services/capsule_import.py:310-343 | old rows unchanged, one row per well-formed tool under distinct fresh names, exactly those linked, every malformed tool warned about |
| CapsuleImport.Importer.FindFreeName | services/capsule_import.py:318-323 | the search loop ends with that name |
| CapsuleImport.Importer.ImportToolRegistry | services/capsule_import.py:310-343 | the loop over the registry does just that, whatever the tables held |
| CapsuleInstances.StartSound | services/capsule_instance.py:85-93 | starting an instance keeps every tenant's gauge equal to its running instances |
| CapsuleInstances.EndSound | services/capsule_instance.py:233-242 | ending one does too, and sets the time of completion |
| CapsuleInstances.InstanceService.CreateInstance | services/capsule_instance.py:52-104 | one running instance more, or a refusal without effect |
| CapsuleInstances.InstanceService.UpdateInstanceState | services/capsule_instance.py:184-208 | replaces the state of a running instance only |
| CapsuleInstances.InstanceService.CompleteInstance | services/capsule_instance.py:211-250 | completes a running instance; finished ones stay as they are |
| CapsuleInstances.InstanceService.TerminateInstance | services/capsule_instance.py:253-286 | the same with the reason written down |
| CapsuleInstances.InstanceService.CountRunning | services/capsule_instance.py:164-181 | the tenant's running instances, which is its gauge |
| CapsuleInstances.InstanceService.CleanupStaleInstances | services/capsule_instance.py:289-319 | ends exactly the running instances older than the cutoff and returns their number |
| CapsuleInstances.Perform | services/capsule_instance.py:52-319 | any sequence of operations keeps gauges exact and finished instances unchanged |
| MultimodalDag.ExecuteNode | admin/multimodal/execution.py:362-402 | reports the first dependency known to have failed, else the operation's own outcome |
| MultimodalDag.ExecuteDag | admin/multimodal/execution.py:404-419 | the results of all nodes in order, in either mode, and whether any failed |
| MultimodalDag.FailsIffReachable | admin/multimodal/execution.py:362-419 | one after the other, a node fails if and only if a chain of dependencies leads to an operation that is not wired |
| MultimodalDag.DistinctDependencies | admin/multimodal/execution.py:358-374 | with distinct ids the dependencies are the earlier nodes that are named |
| MultimodalDag.ModesAgreeOverall | admin/multimodal/execution.py:404-419 | what fails in parallel fails in sequence, and the overall status is the same |
| MultimodalDag.ModesAgreeAt | admin/multimodal/execution.py:404-419 | the modes give a node the same result if and only if no chain of dependencies leads from it to another, unwired, node; they agree on its failing also where it is unwired itself |
| MultimodalDag.ModesDiffer | admin/multimodal/execution.py:404-412 | a wired node behind an unwired one fails in sequence only |
| ChatTranscript.NextSound | admin/core/chat_orchestrator.py:1397-1472 | every step keeps counts, contributions and ownership of rows |
| ChatTranscript.CountsAddUp | admin/core/chat_orchestrator.py:1397-1472 | for any interleaving: message count plus turns between a row and its bump equals the rows; exact if and only if there is no such turn |
| ChatTranscript.TurnContributes | admin/core/chat_orchestrator.py:451-477 | a turn contributes nothing, the user's row, or the user's and then the answer's row, each only after the steps that earn it |
| ChatTranscript.StoppedForGood | admin/core/chat_orchestrator.py:458-472 | a stopped turn contributes no more, and a refused one nothing |
| ChatTranscript.ChatDatabase.PersistMessage | admin/core/chat_orchestrator.py:1397-1437 | one row more, or none without a conversation |
| ChatTranscript.ChatDatabase.BumpMessageCount | admin/core/chat_orchestrator.py:1439-1453 | one more on the conversation's count, if it exists |
| ChatTranscript.ChatDatabase.PersistUserTranscript | admin/core/chat_orchestrator.py:1455-1472 | the user's row and then its bump |
| ChatTranscript.ChatDatabase.TakeTurn | admin/core/chat_orchestrator.py:836-1223 | an undisturbed turn takes its steps in this order |

## Left out

- Document register: file reading and writing, the wording of findings and of the printed summary.
- CheckDocs.CheckDocument: a finding says which rule, which file and whether it fails, not its message.
- CheckDocs.Check: takes the identifiers of section 7 of the quality manual as a set; how they are found in its text is not modelled.
- Document register: identifier, date and annex patterns and `date.fromisoformat` are parameters shared by both scripts. The heading search, the clean-up of titles, lines, cells, splitting and stripping are modelled as they are.
- Document register: paths are taken to be distinct, to end in `.md` under `docs/` and to have no bar and no line break, which the table could not hold.
- ToolCalling.Turn.ReadStream: token usage that a provider reports is not passed on to a sink.
- ToolCalling.Turn.HandleCall: says why a call was refused or failed, not in which words; times and the cut of long results in the transcript are left out.
- Tool loop: `max_iterations` and time-outs of tools and approvals enter as values and as answers.
- Tool loop: argument values are texts; a number or an empty object in the place of a query is not told apart from its text.
- Tool loop: the branch for missing arguments, which the code before it makes unreachable.
- PermissionMatrix.PermissionChecker.Check: is one step here; checks that overlap each other and clears are treated in `permission_races.dfy`, and `PermissionSchedules.InTurnIsTheChecker` connects the two.
- PermissionCache.CacheFaithfulExactly: is about histories of checks that do not overlap; for those that do see `permission_races.dfy`.
- Permission cascade: the contents of the catalog, which is a parameter; only its shape matters (grants are catalog permissions, names are a family, a colon and a verb).
- AccountLockout.AccountLockoutService.CheckLockout: is a check that nothing comes in between of; what can come in between is treated in `lockout_interleaving.dfy` and `lockout_redis.dfy`.
- Account lockout: fractions of seconds, metrics, `get_lockout_info`, and a process that dies between counting and locking. The interleaving is that of one account, since accounts share no keys.
- Pkce.OAuthStateStore.StoreState: a stored state is read back as the record it was written from; its JSON form and what is not JSON are left out.
- PKCE: randomness and SHA-256 are parameters.
- RegistrySeed.AcceptedExactly: takes the library's base64 decoder to be strict; where Python 3.11 is more lenient the result is never 32 bytes long.
- CapsuleCore.CapsuleStore.CreateCapsule: column lengths, and rows of the capability table; a tool is its name.
- CapsuleCore.CapsuleStore.EditCapsule: edits that set the status or other lifecycle fields directly.
- Capsules: keys that rotate or are missing, and deletion. A tenant is its name.
- CapsuleImport.Importer.ImportToolRegistry: rows the database itself refuses, and the warnings about them.
- Capsule import: related data, export checksums, and the creation of the capsule.
- Capsule instances: two requests that end the same instance at once, and the log.
- DAG: durations, identifiers and authorization; an operation that is wired only returns its input.
- Chat: everything between the steps that write, count or stop; memory stores, metrics and signals.
- Everything else in the repository: endpoints, settings, messages, schemas, bridges, web interface, image scripts.
