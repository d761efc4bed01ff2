# jecloud roll-forward core, modelled in Dafny

jecloud keeps a small fleet of EC2 servers in a wanted state. The state is stored as a
document (`state.json` in an S3 bucket). The document has a list of servers and a ledger of
failed actions. Every named step of the set-up of a server goes through a `Session`:

- The step runs only when its `:if`/`:unless` condition asks for it.
- A step whose last failure is too recent is skipped.
- A failure is recorded with a Fibonacci back-off delay.
- The step then leaves the server's processing through `throw :failed`.

`roll_forward!` repeats passes over the servers while a pass reports that it cleared a
deployment request. It then sleeps until the earliest due step and retries, or quits when
that is more than ten seconds away.

Around this core, the project models four more pieces:

- the numeric-padding comparison of agent versions (`String#pad_numbers`);
- the normalisation of the stored document;
- the command line's search for `cloud-access.yml` up the directory tree;
- the credential checks of `AccessConfig`.

Modules, one per piece of the program:

- `Wrappers`, `Exceptions`: `Option`/`Result` and Ruby exceptions as values (class and
  message; `Describe` is the `"Class: message"` text the ledger stores).
- `Backoff`: `BACKOFF_DELAYS` and the rule that picks the next delay.
- `Sessions`. The executor (session.rb) as pure functions of a `Ledger`. The class `Session`
  updates its `failures`, `nextAttempt` and `anyActionsExecuted` fields in place, and each
  method is proved equal to the pure functions. `action` is split at the point where the body
  runs.
  - The gate (`ActionGate`/`CheckGate`, class methods `Action`/`Check`) covers everything up
    to `yield`.
  - The exit (`ActionExit`/`CheckExit`, methods `FinishAction`/`FinishCheck`) covers
    everything after it.
  - A body is an `Outcome`: `Ok(value)`, `Raise(exception)`, or `Abort` for a non-local exit
    (`throw :failed` from an inner action, or `return true`).
- `Versions`: `pad_numbers`, the dotted-version pattern, Ruby string order, and the
  "installed agent is good enough" test.
- `Lifecycle`: one pass of `roll_forward_step!`. It is a function of the ledger and of what
  EC2, SSH and the build answer for each server (a `Probe`). The pass itself is `StepFrom`.
  It is generic over the processing of one server, so its properties are proved once.
- `Fleet`: the class `Application`. It mirrors the object's state: the servers, the
  failures, every document written to the bucket, every sleep. It covers:
  - `read_config`'s normalisation;
  - `add_server!` inside `update_config`;
  - `deploy!`;
  - the `roll_forward!` loop with its retry;
  - `roll_forward_step!` as methods that change the servers and the session in place.

  Each method is proved equal to the functions `Normalised`, `RunPasses`, `Attempts` and
  `StepFrom` / `Visit`.
- `Cli`: Ruby's `File.dirname`, the walk of `each_parent_directory_of` (a method with its
  loop, proved to yield `Ancestors(path)`), and `find_access_file` with its early returns.
- `Access`: `AccessConfig.new(hash)`.

Time, `uuidgen`, the `git rev-parse` output and the replies of EC2, SSH, SFTP and `rake build`
are parameters. `own` stands for `JeCloud::VERSION`. `File.file?` is membership in a set of
paths.

## Model

| member | source | states |
|---|---|---|
| Backoff.FirstAbove | lib/jecloud/session.rb:63 | the index `find` stops at: the first table entry above the old delay, all entries before it at most that delay; None when no entry is above it |
| Backoff.NextDelay | lib/jecloud/session.rb:63 | the new delay is always a value of the table (the `|| BACKOFF_DELAYS.last` fallback included) |
| Backoff.BackoffIncreasing | lib/jecloud/session.rb:6 | the table is strictly increasing, has 24 entries, starts at 1 and ends at 75025 |
| Backoff.NextDelayIsSmallestAbove | lib/jecloud/session.rb:63 | the new delay is the smallest table value strictly above the old delay, never exceeds 75025, and stays at 75025 once the old delay has reached it |
| Backoff.NextDelayOfEntry | lib/jecloud/session.rb:63 | one more failure moves a table delay to the next table entry, and keeps the last entry where it is |
| Backoff.FirstDelay | lib/jecloud/session.rb:63 | a first failure (no stored delay, read as 0) is retried after 1 second |
| Sessions.Fold | lib/jecloud/session.rb:50 | defines `[@next_attempt \|\| t, t].min`; its contract only spells out the cases, and the property built on it is NextAttemptNeverLater |
| Sessions.HasCondition | lib/jecloud/session.rb:19 | defines the guard of line 19: `:if` or `:unless` is given (no contract) |
| Sessions.Needed | lib/jecloud/session.rb:21-22 | defines `if && !unless` after the merge with the defaults `:if => true, :unless => false`, the keys read as hash lookups (no contract) |
| Sessions.Enter | lib/jecloud/session.rb:44-53 | an entry is blocked exactly when `last + delay > now`. A blocked entry is put back unchanged with its due time folded into next_attempt. Otherwise the entry is deleted and the body's frame remembers it and `now` |
| Sessions.Record | lib/jecloud/session.rb:58-63 | the failure entry: `first` kept or set to now, `last = now`, `count` old (0) + 1, `delay` the next back-off value, `message` "Class: message" |
| Sessions.Exit | lib/jecloud/session.rb:54-74 | a returned value leaves the ledger as it is with the entry still deleted. A raise stores the recorded entry, folds `now + delay` into next_attempt and throws `:failed`. A non-local exit changes nothing |
| Sessions.ActionGate | lib/jecloud/session.rb:19-26 | raises "action must have :if or :unless condition specified" exactly when neither key is given. It is "not needed" exactly when the defaulted `if && !unless` is false, and then leaves the ledger untouched. Otherwise it is run_action_or_check's entry step |
| Sessions.ActionGateAsWritten | lib/jecloud/session.rb:19-22 | defines `action` up to its body as written: the missing-condition RuntimeError without a condition, otherwise NoMethodError at `options.if`, ledger unchanged (no contract; see ConditionsAsWrittenRaise) |
| Sessions.CheckGateAsWritten | lib/jecloud/session.rb:32-33 | defines `check` up to its body as written: NoMethodError at `options.if`, ledger unchanged (no contract; see ConditionsAsWrittenRaise) |
| Sessions.ConditionsAsWrittenRaise | lib/jecloud/session.rb:21-33 | as written, `action` and `check` never reach their body: a call with a condition raises NoMethodError at `options.if` and leaves the ledger alone; read as hash lookups, a call with `:if => true` on a name without an entry runs its body |
| Sessions.CheckGate | lib/jecloud/session.rb:31-38 | `check` never raises for a missing condition; otherwise as ActionGate |
| Sessions.ActionExit | lib/jecloud/session.rb:26-27 | any_actions_executed is set exactly when the body returned, and `action` then returns true. The ledger is run_action_or_check's exit |
| Sessions.CheckExit | lib/jecloud/session.rb:38 | `check` never sets any_actions_executed and returns the body's value |
| Sessions.OtherEntriesUntouched | lib/jecloud/session.rb:44-64 | gate and exit of one name leave every other name's entry as it was |
| Sessions.DueEntryRuns | lib/jecloud/session.rb:47 | an entry due exactly now (`last + delay == now`) lets the body run |
| Sessions.SuccessClearsEntry | lib/jecloud/session.rb:44-56 | a needed call whose body succeeds leaves no ledger entry for its name. Every other entry and next_attempt are unchanged. `action` returns true and marks an action executed; `check` returns the body's value and marks nothing |
| Sessions.FailureIsRecorded | lib/jecloud/session.rb:57-71 | a failing body stores the recorded entry and folds `now + delay` into next_attempt. It throws `:failed` and leaves every other entry and any_actions_executed alone |
| Sessions.InnerThrowUnwindsOuter | lib/jecloud/session.rb:44-51 | an inner action that is not yet due throws through the outer body. The outer entry deleted on entry is not put back, and the outer action is not counted as executed |
| Sessions.NextAttemptNeverLater | lib/jecloud/session.rb:50-67 | no gate or exit moves next_attempt later or unsets it |
| Sessions.LedgerStaysWellFormed | lib/jecloud/session.rb:58-64 | every stored delay stays a table value and every count stays positive |
| Sessions.Session.constructor | lib/jecloud/session.rb:8-12 | a session starts with the given failures, no next_attempt and no action executed |
| Sessions.Session.Action | lib/jecloud/session.rb:18-26 | the new fields and the gate are exactly ActionGate of the old fields |
| Sessions.Session.Check | lib/jecloud/session.rb:31-38 | the new fields and the gate are exactly CheckGate of the old fields |
| Sessions.Session.RunActionOrCheck | lib/jecloud/session.rb:43-53 | deletes, then puts back and throws, or opens the body: exactly Enter |
| Sessions.Session.Conclude | lib/jecloud/session.rb:54-74 | the rescue and the return: exactly Exit |
| Sessions.Session.FinishAction | lib/jecloud/session.rb:26-27 | exactly ActionExit |
| Sessions.Session.FinishCheck | lib/jecloud/session.rb:38 | exactly CheckExit |
| Exceptions.Describe | lib/jecloud/session.rb:58 | defines the recorded message `"#{e.class.name}: #{e.message}"` (no contract) |
| Versions.PadNumbers | lib/jecloud.rb:21-22 | defines `gsub(/\d+/) { sprintf("%04d", num.to_i) }` by recursion over the string (no contract; its properties are the Versions.Pad* lemmas below) |
| Versions.Decimal | lib/jecloud.rb:22 | `"%d"` of n: a digit string without a leading zero that denotes n |
| Versions.Pad4 | lib/jecloud.rb:22 | `"%04d"` of n: digits that denote n, exactly 4 of them below 10000, and more than 4 without a leading zero from 10000 on |
| Versions.RunLength | lib/jecloud.rb:22 | the maximal digit run at the front ends at a non-digit or at the end |
| Versions.PadEachRun | lib/jecloud.rb:22 | a maximal digit run is replaced by its value formatted `%04d` (`to_i` drops leading zeros); the text on either side is padded on its own |
| Versions.PadConcat | lib/jecloud.rb:22 | pad_numbers works piecewise on a cut that does not split a digit run |
| Versions.PadKeepsNonDigits | lib/jecloud.rb:22 | the non-digit characters survive, all of them, in their order |
| Versions.PadWithoutDigits | lib/jecloud.rb:22 | a string without digits is returned unchanged |
| Versions.PadIdempotent | lib/jecloud.rb:22 | padding twice is padding once |
| Versions.IsDotted | lib/jecloud/application.rb:189 | defines the whole-string reading of the pattern: two to four non-empty digit groups separated by dots (no contract) |
| Versions.Acceptable | lib/jecloud/application.rb:189-190 | defines the corrected version test: the output is dotted as a whole and its padded form is not below the own version's (no contract; see AcceptableIsNumeric) |
| Versions.MatchesAsWritten | lib/jecloud/application.rb:189 | defines `=~ /^...$/` as Ruby reads it: some line of the output is dotted (no contract) |
| Versions.AcceptableAsWritten | lib/jecloud/application.rb:189-190 | defines the version test as written (no contract; see LineAnchorsAcceptOlderAgent) |
| Versions.Split | lib/jecloud/application.rb:189 | at least one piece, no piece contains the separator |
| Versions.JoinSplit | lib/jecloud/application.rb:189 | joining the pieces with the separator gives back the string |
| Versions.PadGroups | lib/jecloud.rb:22 | digit groups joined by dots pad to their `%04d` values joined by dots |
| Versions.LexDigitsIsNumeric | lib/jecloud/application.rb:190 | for numerals of equal length, Ruby's string order is numeric order |
| Versions.PadJoinOrder | lib/jecloud/application.rb:190 | for segments below 10000, the order of the padded joined strings is segment-wise numeric order, a proper prefix first |
| Versions.DottedGroups | lib/jecloud/application.rb:189-190 | a string matching the dotted pattern pads to its segments' `%04d` forms joined by dots |
| Versions.PaddedOrderIsNumeric | lib/jecloud/application.rb:190 | for dotted versions with segments below 10000, `v.pad_numbers < w.pad_numbers` exactly when v is numerically before w ("2.9" < "2.10", "1.2" < "1.2.1") |
| Versions.AcceptableIsNumeric | lib/jecloud/application.rb:189-193 | the installed agent is good enough exactly when it is numerically at least the own version |
| Versions.DottedChars | lib/jecloud/application.rb:189 | a dotted version holds only digits and dots |
| Versions.LineAnchorsAcceptOlderAgent | lib/jecloud/application.rb:189-190 | as written, the output "x\n0.1" passes against own version "0.2" although 0.1 is older; the whole-string test rejects it |
| Lifecycle.LaunchBody | lib/jecloud/application.rb:131-148 | a missing instance type or AMI ends in `exit` (SystemExit, recorded by the rescue). Otherwise the body succeeds exactly when an instance comes back, and then sets its id and IP |
| Lifecycle.ObtainIpBody | lib/jecloud/application.rb:149-158 | a listed instance's non-empty IP is recorded first, and then ExpectedDelay "No IP address assigned yet" is raised |
| Lifecycle.SudoBody | lib/jecloud/application.rb:179-184 | defines the sudo-test body: it succeeds exactly on the output "ok" and otherwise raises UnexpectedExternalProblem (no contract; see SudoNeedsOk) |
| Lifecycle.InstallBody | lib/jecloud/application.rb:197-229 | defines the install body: the first failing step's exception, in source order, else success exactly when the reported version is the own version (no contract; see InstallNeedsExactVersion) |
| Lifecycle.Installed | lib/jecloud/application.rb:189-193 | defines `jecloud_installed` with the corrected whole-string version test (no contract) |
| Lifecycle.Visit | lib/jecloud/application.rb:130-148 | defines one server's processing inside `catch :failed`: initial-setup with `:unless => instance_id?`, then ObtainIp (no contract; see VisitFollows) |
| Lifecycle.ObtainIp | lib/jecloud/application.rb:149-158 | defines obtain-ip with `:unless => public_ip?`, then Ssh (no contract; see ObtainIpAlwaysFails) |
| Lifecycle.Ssh | lib/jecloud/application.rb:162-239 | defines the ssh action with the given conditions around SshBody; a body left by `:failed` or `return true` skips the action's exit (no contract; see SshEntryLostOnNonLocalExit) |
| Lifecycle.SshBody | lib/jecloud/application.rb:163-186 | defines the SSH connection and the sudo-test action with the given conditions, then VersionStep (no contract; see SshBodyFrame) |
| Lifecycle.VersionStep | lib/jecloud/application.rb:187-230 | defines the version test and install-jecloud with `:unless => jecloud_installed`, then DeploymentStep (no contract; see InstallUnlessInstalled) |
| Lifecycle.DeploymentStep | lib/jecloud/application.rb:233-237 | defines the deployment check: a requested deployment is cleared and `return true` follows (no contract) |
| Lifecycle.SudoNeedsOk | lib/jecloud/application.rb:178-185 | the sudo test passes exactly on the output "ok" |
| Lifecycle.InstallNeedsExactVersion | lib/jecloud/application.rb:196-230 | an install succeeds exactly when every step succeeds and the server then reports exactly the own version |
| Lifecycle.InstallUnlessInstalled | lib/jecloud/application.rb:187-196 | an installed agent that is good enough skips install-jecloud and goes to the deployment check. Otherwise the install runs, and a blocked or failed install ends the ssh body by `:failed` |
| Lifecycle.ObtainIpAlwaysFails | lib/jecloud/application.rb:149-158 | whenever obtain-ip runs, the server's processing ends by `:failed` with the step recorded; the IP is changed only to a non-empty listed one |
| Lifecycle.VisitFollows | lib/jecloud/application.rb:129-238 | processing a server never changes its uuid or status and never re-points an existing instance id. It clears the deployment request exactly when the pass returns true |
| Lifecycle.DistinctSteps | lib/jecloud/application.rb:131-196 | the steps of one server have distinct ledger names |
| Lifecycle.SshBodyFrame | lib/jecloud/application.rb:163-238 | inside the ssh body only the sudo-test and install-jecloud entries change |
| Lifecycle.VersionStepFrame | lib/jecloud/application.rb:187-237 | the version test and deployment clear change only the install-jecloud entry |
| Lifecycle.SshEntryLostOnNonLocalExit | lib/jecloud/session.rb:44-55 | when the ssh body is left by an inner `:failed` or by `return true`, the ssh entry deleted on entry is not put back and ssh is not counted as executed |
| Lifecycle.IntendedVisitNeverCrashes | lib/jecloud/application.rb:130-238 | with ssh and sudo-test run unconditionally, no exception leaves a server's processing |
| Lifecycle.AsWrittenSshRaises | lib/jecloud/application.rb:162 | as written, a server with an instance and an IP makes the pass raise at the ssh action, with the ledger unchanged |
| Lifecycle.AsWrittenVisitCannotDeploy | lib/jecloud/application.rb:162-236 | as written, no server's processing returns true, and the only exception that leaves it is the missing-condition error of the ssh action |
| Lifecycle.StepFrom | lib/jecloud/application.rb:129-243 | the pass keeps the server list's length |
| Lifecycle.PassContinuesAfterAbort | lib/jecloud/application.rb:129-130 | one step of StepFrom spelled out for a server ended by `:failed` or normally: the pass goes on with the next server and that server's ledger (an unfolding, not a further property) |
| Lifecycle.PassClearsOneDeployment | lib/jecloud/application.rb:233-242 | a pass returning true has cleared exactly one deployment request, any other pass none |
| Lifecycle.PassKeepsEarlierServers | lib/jecloud/application.rb:129 | a pass never changes the servers before its starting point |
| Lifecycle.PassStopsAtDeployment | lib/jecloud/application.rb:233-236 | a pass returning true stops right after the server whose deployment it cleared; the later servers are untouched |
| Lifecycle.PassNeverCrashes | lib/jecloud/application.rb:129-243 | when no server's processing raises, the pass ends with true or false |
| Lifecycle.PassRaisesAtServer | lib/jecloud/application.rb:129-130 | when no visit returns true and every raise is the same exception, a server whose visit always raises it makes the pass raise it |
| Lifecycle.DeploymentsUpdate | lib/jecloud/application.rb:233-235 | replacing one server changes the count of deployment requests by exactly that server's change |
| Fleet.Missing | lib/jecloud/application.rb:262-264 | helper bound: at most the number of servers (the uuid property is UuidsAssigned) |
| Fleet.AssignUuids | lib/jecloud/application.rb:262-264 | helper bound: keeps the server list's length (the uuid property is UuidsAssigned and GiveUuids) |
| Fleet.UuidsAssigned | lib/jecloud/application.rb:262-264 | every server gets a uuid. An existing uuid is kept; the j-th server without one gets the next uuidgen output in list order. Nothing else in a server changes |
| Fleet.NormalisedDocument | lib/jecloud/application.rb:255-267 | `servers` defaults to [] and `failures` to an empty ledger. Every server has a uuid, and servers that had one are unchanged |
| Fleet.ReadConfig | lib/jecloud/application.rb:255-267 | computes exactly Normalised |
| Fleet.GiveUuids | lib/jecloud/application.rb:262-264 | the loop over the servers computes exactly AssignUuids |
| Fleet.Delay | lib/jecloud/application.rb:115 | `[0, next_attempt - now].max`: zero or the distance to the due time, never below it |
| Fleet.PassOfShrinks | lib/jecloud/application.rb:233-236 | whatever the ssh and sudo-test conditions, a pass of roll_forward_step! that returns true leaves fewer deployment requests |
| Fleet.IntendedPassOfSafe | lib/jecloud/application.rb:127-243 | under the intended conditions (ssh and sudo-test run unconditionally, the second finding) no pass raises |
| Fleet.AsWrittenPassRaises | lib/jecloud/application.rb:162 | as written, a pass over a document with a server that has an instance and an IP raises "action must have :if or :unless condition specified" |
| Fleet.AsWrittenRollForwardRaises | lib/jecloud/application.rb:107-113 | as written, roll_forward! on such a document raises that error from its first pass, stores nothing and sleeps nothing |
| Fleet.WaitRule | lib/jecloud/application.rb:114-122 | the branches after the passes spelled out: nil next_attempt settles, a wait over MAX_REPEAT_DELAY = 10 quits, otherwise the loop sleeps that wait and restarts (an unfolding of AfterPasses used by RollForward's proof) |
| Fleet.PassesStoreEachPass | lib/jecloud/application.rb:107-113 | when no pass raises, the passes end by a false pass; every pass adds exactly one stored document and one clock reading, the earlier stored documents are kept, the last stored document is the final one, and there is at most one more pass than there are deployment requests |
| Fleet.PassesStoreTheirResults | lib/jecloud/application.rb:107-113 | when no pass raises, every stored document is the servers and failures its pass left, the first pass ran on the starting document and each later one on the document stored before it; every pass but the last returned true, the last returned false, and its next_attempt is the one the passes end with |
| Fleet.AttemptsSleepBriefly | lib/jecloud/application.rb:103-125 | when no pass raises (the intended conditions, IntendedPassOfSafe), roll_forward! does not raise, never sleeps more than 10 seconds, and sleeps at most once per retry |
| Fleet.Normalised | lib/jecloud/application.rb:255-267 | defines read_config's result (no contract; see NormalisedDocument) |
| Fleet.OnePass | lib/jecloud/application.rb:108-111 | defines one `update_config` block's pass: roll_forward_step! over the document's servers with a fresh Session over its failures, the given conditions and one clock reading per server (no contract) |
| Fleet.RunPasses | lib/jecloud/application.rb:107-113 | defines `while cont`: a raising pass ends the loop before its store, otherwise the document is stored and the loop goes on while the pass returned true (no contract; see PassesStoreTheirResults) |
| Fleet.Attempts | lib/jecloud/application.rb:103-125 | defines roll_forward! from its (re)start, the retries bounded by `fuel` (no contract; see AttemptsSleepBriefly) |
| Fleet.AfterPasses | lib/jecloud/application.rb:114-122 | defines what follows the passes: settle, quit, or sleep and retry (no contract; see WaitRule) |
| Fleet.Application.constructor | lib/jecloud/application.rb:255-267 | the object starts from the normalised stored document with the given ssh/sudo-test conditions, with nothing stored and nothing slept |
| Fleet.Application.AddServer | lib/jecloud/application.rb:247-253 | appends the new `creating` server, then stores the document once, and returns the block's value |
| Fleet.Application.Deploy | lib/jecloud/application.rb:92-101 | a revision not 40 characters long is rejected with "Invalid Git ref: ..." and changes nothing. With no servers, add_server!'s plain Hash is stored and setting its deployment raises NoMethodError. Otherwise the first server is given the revision and roll_forward! follows, with the object's conditions |
| Fleet.Application.RollForward | lib/jecloud/application.rb:103-125 | the loop with its retry computes exactly Attempts: the final document, every stored document, every sleep and how it ends |
| Fleet.Application.PassesUntilDone | lib/jecloud/application.rb:107-113 | `while cont` computes exactly RunPasses: each pass gets a fresh session over the current failures, and the document is stored after each pass |
| Fleet.Application.RollForwardStep | lib/jecloud/application.rb:127-243 | the loop over the servers computes exactly StepFrom with the object's conditions and one clock reading per server, in place, and touches nothing else |
| Fleet.Application.ProcessServer | lib/jecloud/application.rb:130-148 | one server's processing changes only that server and the session, exactly as Visit |
| Fleet.Application.RunObtainIp | lib/jecloud/application.rb:149-158 | exactly ObtainIp |
| Fleet.Application.RunSsh | lib/jecloud/application.rb:162-238 | exactly Ssh with the object's conditions |
| Fleet.Application.RunSshBody | lib/jecloud/application.rb:163-186 | exactly SshBody with the object's conditions |
| Fleet.Application.RunVersionTest | lib/jecloud/application.rb:187-230 | exactly VersionStep |
| Fleet.Application.ClearDeployment | lib/jecloud/application.rb:232-237 | a requested deployment is cleared and the pass returns true; otherwise nothing changes |
| Cli.DirNameRises | lib/jecloud/cli.rb:32 | dirname is either a fixed point or strictly shorter, so the walk ends |
| Cli.DirNameFixedPoints | lib/jecloud/cli.rb:29-32 | the only paths equal to their own dirname are "/" and "." |
| Cli.DirNameKeepsRoot | lib/jecloud/cli.rb:32 | the dirname of an absolute path is absolute |
| Cli.DirName | lib/jecloud/cli.rb:32 | defines Ruby's File.dirname on '/'-separated paths (no contract; see DirNameRises, DirNameFixedPoints, DirNameKeepsRoot) |
| Cli.JoinPath | lib/jecloud/cli.rb:16-19 | defines `File.join(dir, name)`: its contract only spells out the two cases (no '/' added after a trailing '/', one otherwise); the property is JoinPathEndsWithName |
| Cli.JoinPathEndsWithName | lib/jecloud/cli.rb:16-19 | the joined path ends with the file name, right after a '/' |
| Cli.Ancestors | lib/jecloud/cli.rb:28-30 | the walk yields the start path first |
| Cli.AncestorsChain | lib/jecloud/cli.rb:29-32 | each later directory is the dirname of the one before; the walk stops right after the first directory equal to its own dirname |
| Cli.AncestorsReachRoot | lib/jecloud/cli.rb:29-33 | from an absolute path the walk ends at "/" and yields it exactly once |
| Cli.EachParentDirectoryOf | lib/jecloud/cli.rb:26-35 | the `while directory != prev_directory` loop yields exactly Ancestors(path) |
| Cli.FindAccessFile | lib/jecloud/cli.rb:14-24 | the block's early return and raises give exactly Search over the walk from the working directory |
| Cli.Search | lib/jecloud/cli.rb:14-24 | defines the block's decision along the walk: the first directory holding cloud-access.yml returns it, one holding only the example raises "Please copy", none raises "Cannot find" (no contract; see SearchFindsNearest) |
| Cli.SearchFindsNearest | lib/jecloud/cli.rb:15-23 | the nearest directory holding either file decides: its cloud-access.yml when present, otherwise the "Please copy" error. With no such directory it raises "Cannot find cloud-access.yml" |
| Cli.SearchNoneHolds | lib/jecloud/cli.rb:15-23 | when no directory on the walk holds either file, the search raises "Cannot find cloud-access.yml" |
| Cli.SearchStopsAt | lib/jecloud/cli.rb:15-23 | the first directory holding either file ends the search. Its cloud-access.yml is returned when it exists; otherwise the "Please copy" error is raised |
| Cli.SearchOutcomes | lib/jecloud/cli.rb:15-23 | only these three outcomes occur, and a returned path is an existing cloud-access.yml of a directory on the walk |
| Cli.WalkFromTwoLevels | lib/jecloud/cli.rb:26-35 | an illustration, not a general property: the walk from "/a/b" yields "/a/b", "/a", "/" |
| Access.NewAccessConfig | lib/jecloud/access_config.rb:8-15 | a configuration that is built has both keys at least 5 characters long |
| Access.LoadSucceedsExactly | lib/jecloud/access_config.rb:8-15 | construction succeeds exactly when the aws section is there and both keys, missing ones read as '', have at least 5 characters. The fields then equal the given values, a missing app_name giving '' |
| Access.KeyIdCheckedFirst | lib/jecloud/access_config.rb:13-14 | a short or missing key id is reported even when the secret is also short; a short or missing secret is reported only after the key id passes |
| Access.LoadKeepsFields | lib/jecloud/access_config.rb:9-11 | a plausible configuration written as a document loads back unchanged; without app_name it loads with '' |

## Left out

- EC2, S3, SSH and SFTP calls, `git rev-parse`, `rake build` and `uuidgen`. Their answers are
  parameters (`Probe`, `rev`, `uuidgen`), and the writes to the bucket are recorded in
  `Application.stored`.
- Reading and parsing YAML and Hashie's `Mash` behaviour. A document is given already parsed,
  one `Option` per key. `AccessConfig.read`, `establish_connection!`, `initialize`, `make_key!`
  and `status!` are not part of this model.
- `make_key!` inside initial-setup: a key-pair failure is one of the exceptions LaunchBody may
  return through `LaunchFailed`.
- `CLI#method_missing`: dynamic dispatch, with no logic of its own.
- Logging, `puts`, `$stderr` and the printing of the document.
- `sleep` and `Time.now`: the clock is a parameter (`Env.readings` during a pass, `Env.clock` for
  the wait), and sleeps are recorded in `Application.slept`. The source reads `Time.now` at
  every action (lib/jecloud/session.rb:45); the model gives all actions of one server the same
  reading. So the model does not capture an entry that falls due between two actions of one
  server, for example while the ssh connection is opened before sudo-test. It also gives those
  actions the same `first` and `last` stamps.
- `die!`: `exit 1` is the exception `SystemExit` with message "exit". The executor's
  `rescue Exception` records it like any failure; outside an action it ends `deploy!`
  (`InvalidRef`).
- Fleet.Application: the object takes the ssh and sudo-test conditions as `conds`. With the
  intended ones the properties that no pass and no roll_forward! raises hold
  (IntendedPassOfSafe, AttemptsSleepBriefly). With the ones as written (`AsWritten`) a pass
  raises at the first server that has an instance and an IP (AsWrittenPassRaises,
  AsWrittenRollForwardRaises). In both readings the gates read `:if`/`:unless` as hash lookups
  (ActionGate, the corrected reading of the third finding). As written to the letter, every
  action with a condition raises NoMethodError (ConditionsAsWrittenRaise), so the first action
  of any server already raises; the Fleet layer does not carry that reading. `jecloud_installed`
  uses the whole-string version test of the first finding. With the conditions as written the
  version test is never reached, so this choice matters only with the intended conditions.
- Fleet.Application.RollForward: the retry is bounded by a `fuel` count. When retries
  remain due after `fuel` sleeps, the run ends as `OutOfFuel`. The program would keep
  retrying.
- Sessions.ActionGate: `action` is split into a gate and an exit around its body, because
  the body is a Ruby block. A body left by `throw`/`return` never reaches the exit, and the
  callers model that by not calling it.
- Ledger entries are full records, as this code writes them. An entry already in the store
  that lacks `last` or `delay` is not modelled.
- A YAML file that loads as `false` or as a non-hash fails with different messages. Only the
  `nil` document and the missing `aws` section are modelled (`IndexNil`). Values that are not
  strings are not modelled.
- `JeCloud::VERSION` is taken as the string `own`. Whether the VERSION file ends in a newline
  (it is not stripped at lib/jecloud.rb:16) is not modelled.
- `File.dirname` is modelled on '/'-separated paths as Ruby's POSIX rules give it. Windows
  drive letters and `File::ALT_SEPARATOR` are not modelled.

## Findings

| source | as written | input that shows it | evidently intended | confidence | as-written member | corrected member |
|---|---|---|---|---|---|---|
| lib/jecloud/application.rb:189 | `=~ /^\d+\.\d+(?:\.\d+(?:\.\d+)?)?$/` uses Ruby's line anchors, so any one line of the output may be the version | remote output "x\n0.1" with own version "0.2": the second line matches, and "x..." sorts after "0000..." | the whole stripped output is a dotted version (`\A...\z`), so the older agent is reinstalled | not executed | Versions.LineAnchorsAcceptOlderAgent | Versions.AcceptableIsNumeric |
| lib/jecloud/application.rb:162, lib/jecloud/application.rb:178 | the ssh and sudo-test actions pass neither `:if` nor `:unless`, and `action` raises for that at lib/jecloud/session.rb:19 | any server that already has an instance id and a public IP: the pass raises "action must have :if or :unless condition specified" | both actions run unconditionally (`:if => true`) | not executed | Lifecycle.AsWrittenSshRaises | Lifecycle.IntendedVisitNeverCrashes |
| lib/jecloud/session.rb:22, lib/jecloud/session.rb:33 | `options.if` / `options.unless` are method calls on a plain Hash, which has no such methods, so every needed call raises NoMethodError | any `action` or `check` call that has a condition, e.g. `:if => true`: it raises "undefined method 'if' for {:if=>true, :unless=>false}:Hash" | the values at the keys `:if` and `:unless`, defaulted to true and false | not executed | Sessions.ConditionsAsWrittenRaise | Sessions.ActionGate |
