# Whiparc: verified core

A Dafny model of the parts of Whiparc where a mistake costs data, money or a
run, and proofs of what those parts promise. One module per component; a module
whose name ends in `Facts` holds the theorems about the module it is named
after. `dafny verify dfyconfig.toml` checks everything.

- **AccountDelete, AccountDeleteFacts** - permanent account deletion: some
  thirty table-wide statements over twenty tables, their refusals, the foreign
  keys they keep and whose data they leave alone.
- **Terraform, TerraformFacts** - the Terraform files compiled from a canvas, as
  blocks that declare addresses and refer to others, and when no reference
  dangles.
- **Kubernetes, KubernetesFacts, KubernetesMarks** - compiling, splitting and
  parsing manifests.
- **Importer** - merging imported nodes and edges into a canvas.
- **Runner, RunnerFacts** - the phases of a pipeline run and the node statuses it
  reports.
- **Redactor** - masking secrets in log lines.
- **Tracker** - streaming a run's log and statuses to viewers that come and go.
- **RateLimiter** - the token bucket, its janitor, and the address it counts by.
- **Seats, SeatsFacts, SeatsOverrun** - team seats, invitations and project slots.
- **Newsletter** - double opt-in.
- **Billing** - the billing webhook.
- **Avatar** - resampling an image to 256 by 256.
- **Rebind** - translating placeholders for Postgres.
- **Migrations** - applying schema migrations across failing boots.
- **Streams** - the agent's WebSocket stream, line framing and reconnect delay.
- **Splice** - copying both directions of an agent's stream until one of them ends.
- **Text, Common** - what these share: string functions, an optional value.

Tables are maps keyed by their primary or unique key; a handler is one atomic
step. A handler that updates rows is a method on a class that holds the tables,
and its postcondition equates the new tables with a function of the old ones;
the theorems are about that function and about runs of it. Where the code takes
whatever order a Go map or a query yields, the model takes an arbitrary one.
Clocks, command results, generated ids and tokens, and rows found by a query are
inputs. A token hash is a constructor, so distinct tokens have distinct hashes.

Where the code does less than its comments or its readers expect, the model follows the code:

- The janitor of the rate limiter is meant to clean up idle keys
  (`rate_limiter.go:40`), but a bucket is never full after a call, so it never
  deletes one (`JanitorDeletesNothing`).
- The seat check means a pending invite to be a reserved seat
  (`entitlements.go:67-70`), but at its expiry instant an invite is no longer
  counted and not yet refused, so another invite of that instant can take the
  seat first (`SeatsExceededExactlyWhen`, `NeverExceededAlone`,
  `OverrunHappens`).
- CLEANUP is broadcast but not stored, so a viewer who joins during clean-up is
  told RUNNING (`CleanupSplitsViewers`, `ViewersAgreeExactlyWhen`).
- The duplicate-id handling of the importer can hand one node's edges to another
  (`EmbedsExactlyWhen`, `CaptureHappens`).
- Billing events are meant to be safe to deliver again (`billing.go:348-358`), but
  events of one subscription carry no order: one that arrives late, or again
  after its ledger row was lost, undoes a newer one
  (`LateDeliveryExactlyWhen`, `StaleDeliveryReverts`).
- The importer splits manifests at every "---", inside values too
  (`SplitJoinedExactlyWhen`, `ValueCutsManifest`).
- The splice stops both directions when either source ends, so whatever the other
  one still carried is dropped (`MayLoseExactlyWhen`, `EmptyInputLosesReply`).
- A node id used by two technologies makes a failed run show nodes of a finished
  or unreached phase as failed (`DisciplinedExactlyWhen`).

## Model

| member | source | states |
|---|---|---|
| AccountDelete.Database.Blockers | apps/api/account_delete.go:111-146 | the refusals are exactly: an owned team with other members, an owned team with a live subscription |
| AccountDelete.Database.DeleteProjectsTx | apps/api/account_delete.go:30-50 | project by project and table by table, the deletes amount to removing every row of the given projects and detaching templates made from them |
| AccountDelete.Database.DeleteTeams | apps/api/account_delete.go:169-201 | the owned teams go with their projects, invitations and memberships, in whatever order they are listed |
| AccountDelete.Database.PurgeOrphans | apps/api/account_delete.go:203-219 | only the user's own rows of vanished projects go |
| AccountDelete.Database.Reassign | apps/api/account_delete.go:221-236 | succeeds exactly when no update would write NULL into a creator column; then every row of the user is credited to the owner of its team |
| AccountDelete.Database.DeleteOwnRows | apps/api/account_delete.go:238-257 | the twelve last statements, as one description of the tables |
| AccountDelete.Database.DeleteAccount | apps/api/account_delete.go:111-262 | blocked exactly when a team blocks, with exactly those blockers; deleted exactly when moreover every project the reassignment meets has a team; the tables are then as specified, otherwise unchanged |
| AccountDelete.ReassignableFromStart | apps/api/account_delete.go:203-236 | whether the reassignment will fail can be read off the tables before the transaction |
| AccountDelete.StepsMeetSpecification | apps/api/account_delete.go:169-257 | the statement sequence equals one table-by-table description of the result in terms of the original tables |
| AccountDeleteFacts.NoTraceLeft | apps/api/account_delete.go:221-257 | after a committed deletion no row names the user in any of eleven handled columns |
| AccountDeleteFacts.CommitsWhenProjectsHaveTeams | apps/api/account_delete.go:203-207 | if every project has a team an unblocked deletion never fails, whatever orphans other tables hold |
| AccountDeleteFacts.TeamKeysKept | apps/api/account_delete.go:191-199 | team owner, membership, invitation and project-team keys that held still hold |
| AccountDeleteFacts.ProjectCreatorKept | apps/api/account_delete.go:225 | every project creator is still a user |
| AccountDeleteFacts.WorkProjectKept | apps/api/account_delete.go:32-42 | canvases, snapshots, custom nodes, credentials and agents still point at projects, table by table |
| AccountDeleteFacts.WorkAuthorKept | apps/api/account_delete.go:226-230 | their authors are still users |
| AccountDeleteFacts.ProjectRowKeysKept | apps/api/account_delete.go:38-40 | memberships, join requests and pairing tokens keep their project and user keys |
| AccountDeleteFacts.TemplateKeysKept | apps/api/account_delete.go:240-242 | template sources and contributions keep their keys |
| AccountDeleteFacts.PersonalKeysKept | apps/api/account_delete.go:248-250 | identities, resets and avatars keep their user key |
| AccountDeleteFacts.OtherTeamsKeepTheirWork | apps/api/account_delete.go:65-71 | frame: a team the user does not own keeps every project, every row of work and every pairing token, changed only where the user was the author, who becomes that team's owner |
| AccountDeleteFacts.OtherPeopleKeepTheirRows | apps/api/account_delete.go:65-71 | frame: nobody else loses a membership, request, invitation or personal row outside the deleted teams; no audit event is lost |
| AccountDeleteFacts.OtherPeopleKeepTheirWork | apps/api/account_delete.go:203-230 | frame: work by anybody else goes exactly with a deleted project and is otherwise unchanged, orphaned rows included |
| AccountDeleteFacts.OtherTemplatesSurvive | apps/api/account_delete.go:240-242 | other authors' templates survive with everybody else's contributions |
| AccountDeleteFacts.DeletionNeverBlocks | apps/api/account_delete.go:138-155 | one user's committed deletion never makes another's blocked or failing, whatever rows have lost their project or team |
| AccountDeleteFacts.DeletionsCommute | apps/api/account_delete.go:169-257 | two accounts can be deleted in either order with the same result |
| Terraform.FindVpc | apps/api/importer/compiler.go:566-589 | the VPC by the first edge, else the first VPC on the canvas |
| Terraform.FirstAwsEnvironment | apps/api/importer/compiler.go:323-333 | the first AWS target's environment, "localstack" when empty or missing |
| Terraform.SelectClouds | apps/api/importer/compiler.go:32-62 | the targets found, the clouds they select and whether an AWS target says "localstack" explicitly |
| Terraform.KindByPrefix | apps/api/importer/compiler.go:316-704 | an id has a kind's prefix exactly when the chain of branches sends it to that kind |
| Terraform.CompileAwsInstance | apps/api/importer/compiler.go:316-398 | the subnet line of an instance: its own id, the first subnet, an automatic subnet in the first VPC, or the default network |
| Terraform.CompileNode | apps/api/importer/compiler.go:292-759 | blocks and outputs of one node, for all branches; a custom node is one block of text |
| Terraform.CompileCanvas | apps/api/importer/compiler.go:168-765 | the three files, as blocks with the addresses they declare and refer to, and the texts of custom nodes in their places |
| TerraformFacts.ClosedExactlyWhenServed | apps/api/importer/compiler.go:168-759 | on every canvas, and whatever the texts of its custom nodes declare: the references the compiler writes into the three files are all to declared blocks exactly when for every subnet, security group, VPC and route table that a search of an emitted node gives, an emitted node of that name or some custom text declares it - and, where the search gives nothing, the default network is declared, by the compiler or by custom text |
| TerraformFacts.ClosedExactlyWhen | apps/api/importer/compiler.go:168-759 | when all network nodes are plain Terraform nodes this comes down to: no AWS, or a VPC, or the default network declared (a target explicitly local, or custom text) as far as subnets, or instances without one in a local environment, lean on it |
| TerraformFacts.ClosedWhenNetworkFound | apps/api/importer/compiler.go:330-758 | in that case every reference the compiler writes, outputs included, is to a declared block |
| TerraformFacts.DanglesWhenNetworkMissing | apps/api/importer/compiler.go:330-378 | otherwise a subnet or an instance refers to a default network that nothing declares |
| TerraformFacts.CustomSubnetDangles | apps/api/importer/compiler.go:302-347 | an instance next to a custom first subnet refers to a subnet that nothing declares, unless an emitted one shares its name or custom text declares it |
| TerraformFacts.CustomSubnetAnswers | apps/api/importer/compiler.go:302-347 | an instance and a custom subnet alone: closed exactly when the text of the subnet declares a resource of the name the subnet node carries |
| TerraformFacts.CustomGroupDangles | apps/api/importer/compiler.go:381-398 | the same for an instance next to a custom first security group |
| TerraformFacts.CustomVpcDangles | apps/api/importer/compiler.go:566-589 | the same for a subnet or security group whose search finds a custom VPC, by edge or first on the canvas |
| TerraformFacts.CustomVpcTableDangles | apps/api/importer/compiler.go:750-758 | a custom VPC whose text declares only the VPC leaves the route table association of its subnets dangling |
| Importer.ArrangeNodesAndMerge | apps/api/importer/importer.go:53-152 | existing nodes and edges first and untouched, then the imported ones, laid out and renamed in place |
| Importer.Arrange | apps/api/importer/importer.go:82-106 | positions by row and rank within the row |
| Importer.UnusedId | apps/api/importer/importer.go:116-121 | the suffix loop ends, at the first free candidate |
| Importer.Rename | apps/api/importer/importer.go:114-136 | the in-place renaming and retargeting loop |
| Importer.MergedIdsUnique | apps/api/importer/importer.go:108-122 | node ids stay unique, even for batches that repeat ids |
| Importer.FreeIdsAreKept | apps/api/importer/importer.go:118-122 | ids nobody uses are kept |
| Importer.EdgesChased | apps/api/importer/importer.go:124-134 | each edge keeps its place and style, its ends are followed through all renames, and its id is rebuilt as soon as one node was renamed |
| Importer.LinksSurvive | apps/api/importer/importer.go:124-134 | an edge end that named an imported node still names a merged one; any other is untouched |
| Importer.EmbedsExactlyWhen | apps/api/importer/importer.go:114-136 | edges follow their own nodes exactly when imported ids are distinct and no final id is the original id of a later node |
| Importer.CaptureHappens | apps/api/importer/importer.go:124-134 | importing "x" and "x_1" over an existing "x" gives the first node's edges to the second, for every "x" |
| Importer.LayoutIsClear | apps/api/importer/importer.go:69-106 | imported nodes never overlap and all lie below the old canvas |
| Tracker.RunTracker.Broadcast | apps/api/main.go:1230-1249 | one message to every client, dropping those whose write fails, in any order of the client map |
| Tracker.RunTracker.BroadcastNodeStatus | apps/api/main.go:1204-1218 | the status is stored and broadcast in one step |
| Tracker.RunTracker.Join | apps/api/main.go:1140-1163 | registration and catch-up: log so far, current status, every node status in any order |
| Tracker.NodeStatusesAgree | apps/api/main.go:1197-1219 | over every run, what a connected client was told about each node equals the tracker's map |
| Tracker.LogIsAppended | apps/api/main.go:869-877 | the stored log is what was appended, with at most its last message not yet broadcast |
| Tracker.ClientText | apps/api/main.go:870-877 | over every interleaving, the exact text a client holds: what was appended before it joined, then what was broadcast since |
| Tracker.IdleClientText | apps/api/main.go:870-877 | no gap, in order, and at most the one message in flight at the join twice |
| Tracker.RepeatsExactlyWhen | apps/api/main.go:870-877 | the client's text is the log itself exactly when nothing (or an empty message) was in flight as it joined |
| Tracker.StoredStatusReachesAll | apps/api/main.go:903-906 | a status that was stored and then broadcast is what every client shows, whenever it joined, until the next one |
| Tracker.ShowsWhatItWasTold | apps/api/main.go:1140-1163 | over every run, a connected client shows the last status broadcast since it joined, or else the one stored as it joined; the tracker stores the last one set |
| Tracker.ViewersAgreeExactlyWhen | apps/api/main.go:882-906 | a client shows the stored status exactly when that is what it was last told; two clients agree exactly when a status was broadcast after the later one joined, or the earlier one showed the stored status at that moment |
| Tracker.CleanupSplitsViewers | apps/api/main.go:865-884 | the run of a deployment that cleans up, in which a viewer from before shows CLEANUP and one from after RUNNING |
| Tracker.BroadcastOnlySplitsViewers | apps/api/main.go:882-884 | a status broadcast without being stored, such as CLEANUP, leaves early and late viewers with different statuses |
| Redactor.SecretRedactor.Scrub | apps/api/runner/runner.go:239-250 | trimmed secrets longer than five bytes are replaced one after the other; no redactor, no change |
| Redactor.ScrubIsComplete | apps/api/runner/runner.go:239-250 | if no searched secret can overlap the mask, none occurs afterwards, whatever their order, overlap or nesting |
| Redactor.SafeListIsComplete | apps/api/runner/runner.go:239-250 | nor if each searched secret that can overlap the mask holds a searched one that cannot |
| Redactor.CompleteExactlyWhen | apps/api/runner/runner.go:239-250 | for secrets without "*": complete on every line exactly when none is a piece of "REDACTED" |
| Redactor.SingleSecretExactlyWhen | apps/api/runner/runner.go:239-250 | for one secret, with any characters: complete on every line exactly when it cannot be laid over the mask so that the two agree |
| Redactor.WordIsNeverHidden | apps/api/runner/runner.go:243-248 | such a piece stays legible |
| Redactor.StarredSecretCanReappear | apps/api/runner/runner.go:243-248 | a whole family of lists with a "*" in a secret for which a secret is left in the line |
| Redactor.CleanLineUntouched | apps/api/runner/runner.go:239-250 | lines without secrets pass through unchanged |
| Runner.ReadCanvas | apps/api/runner/runner.go:419-449 | the ids per technology, the phases switched on, the repository that counts |
| Runner.Pipeline.FollowAnsible | apps/api/runner/runner.go:931-952 | the statuses sent as Ansible's output is read line by line: a task line moves a cursor over the nodes |
| Runner.Pipeline.FollowTerraform | apps/api/runner/runner.go:786-805 | statuses read off Terraform's output |
| Runner.Pipeline.Deploy | apps/api/runner/runner.go:609-1004 | the events of a deployment, phase after phase, stopping at the first failure |
| Runner.Pipeline.Destroy | apps/api/runner/runner.go:483-528 | the events of a teardown |
| Runner.Pipeline.DryRun | apps/api/runner/runner.go:543-603 | the events of a plan |
| Runner.Pipeline.RunPipeline | apps/api/runner/runner.go:328-1004 | the action selects which |
| RunnerFacts.RunCompletesOnce | apps/api/runner/runner.go:483-1004 | for every action and every outcome of every command, onComplete fires exactly once, as the last event, with SUCCESS exactly when all that had to run succeeded |
| RunnerFacts.SuccessLeavesAllCompleted | apps/api/runner/runner.go:609-1004 | a successful deployment leaves every Terraform, Ansible, Kubernetes, Source and Target node completed, even with shared ids |
| RunnerFacts.DisciplinedExactlyWhen | apps/api/runner/runner.go:609-1004 | every failed deployment of a canvas leaves exactly one phase's nodes failed, earlier ones completed and later ones pending, if and only if no id is used by two of the technologies Source, Terraform, Ansible, Kubernetes and Target |
| RunnerFacts.FailureHasOneFailedPhase | apps/api/runner/runner.go:609-1004 | on such a canvas, for any failure: one failed phase; earlier phases completed, later ones pending |
| RunnerFacts.SharedNodeEndsFailed | apps/api/runner/runner.go:609-1004 | an id shared with a later phase that fails ends failed, whatever its own phase did |
| RunnerFacts.PhasesInOrder | apps/api/runner/runner.go:609-1004 | at every moment of the run at most one phase is under way: those before it are completed, those after it pending |
| RunnerFacts.CleanupExactlyWhen | apps/api/runner/runner.go:993-1001 | clean-up is announced exactly when all succeeded, it was asked for and Terraform files are left |
| RunnerFacts.CursorInDeployment | apps/api/runner/runner.go:933-945 | in the deployment's own events, once some lines of Ansible's output have been read: nodes before the last one reached are completed, that one runs, the rest are pending |
| RunnerFacts.DestroySettlesExactlyWhen | apps/api/runner/runner.go:483-528 | a teardown settles Terraform nodes by its verdict, and all others as completed exactly when it succeeded or no id is shared with a Terraform node |
| RateLimiter.Limiter.Allow | apps/api/rate_limiter.go:44-75 | the answer and the new bucket |
| RateLimiter.Limiter.Sweep | apps/api/rate_limiter.go:83-91 | exactly the idle, full buckets go |
| RateLimiter.BucketsNeverFull | apps/api/rate_limiter.go:44-75 | every reachable bucket holds between 0 and capacity - 1 tokens |
| RateLimiter.JanitorDeletesNothing | apps/api/rate_limiter.go:83-91 | so a janitor pass deletes nothing |
| RateLimiter.SweepsChangeNothing | apps/api/rate_limiter.go:77-96 | janitor passes anywhere in a run change no bucket and no answer |
| RateLimiter.RateBound | apps/api/rate_limiter.go:44-75 | calls granted to a key in any interval: at most the capacity plus the rate for each window begun |
| RateLimiter.BurstGranted | apps/api/rate_limiter.go:44-75 | a fresh key is granted its whole capacity at once, and no more |
| RateLimiter.KeysIndependent | apps/api/rate_limiter.go:49-57 | no caller can spend another's tokens |
| RateLimiter.ClientIP | apps/api/rate_limiter.go:180-214 | the hop walk, X-Real-IP without a hop list, and a remote address that cannot be parsed taken as it stands |
| RateLimiter.LeftOfUntrustedIgnored | apps/api/rate_limiter.go:170-179 | nothing left of the first untrusted or unreadable hop changes the answer, which is that hop if it is readable |
| Seats.CountUnexpired | apps/api/entitlements.go:81-88 | the counting loop counts exactly the pending invites that expire later than now |
| Seats.Store.TeamMemberCount | apps/api/entitlements.go:71-90 | members, plus unexpired pending invites when asked |
| Seats.Store.MemberLimitReached | apps/api/entitlements.go:102-110 | full exactly for enforced, unpaid teams with three seats taken |
| Seats.Store.ProjectLimitReached | apps/api/entitlements.go:112-120 | the same for active projects |
| Seats.Store.HandleCreateTeam | apps/api/projects.go:139-153 | the team and its OWNER row |
| Seats.Store.HandleCreateInvite | apps/api/teams.go:312-379 | all refusals in order, or a pending invite for seven days |
| Seats.Store.HandleRevokeInvite | apps/api/teams.go:431-452 | only a pending invite of that team goes |
| Seats.Store.HandleAcceptInvite | apps/api/teams.go:504-597 | all refusals in order, addresses compared without case, expiry, idempotent repeat, or the new member, whose address then counts as verified |
| Seats.Store.HandleUpdateRole | apps/api/teams.go:66-109 | the owner's role is never changed |
| Seats.Store.HandleRemoveMember | apps/api/teams.go:112-144 | the owner is never removed |
| Seats.Store.HandleCreateProject | apps/api/projects.go:265-314 | members only, within the slots |
| Seats.Store.HandleUseTemplate | apps/api/templates.go:232-285 | a fork takes a slot of the personal team |
| Seats.Store.HandleUnarchive | apps/api/projects.go:1091-1112 | unarchiving takes a slot |
| SeatsFacts.OwnersKept | apps/api/teams.go:79-95 | over every run, account deletions included, each team has exactly one OWNER row, the one owner_id names |
| SeatsFacts.FreeTeamsStayInLimits | apps/api/entitlements.go:16-31 | while a team is free and limits are enforced, members and active projects never exceed three, or what it already had |
| SeatsFacts.SeatsStayInLimits | apps/api/entitlements.go:67-90 | members and unexpired pending invites together neither, at any later moment, if no invite is accepted at its expiry |
| SeatsFacts.AcceptedSeats | apps/api/teams.go:547-580 | how accepting changes the seats taken, at every instant |
| SeatsFacts.SeatsExceededExactlyWhen | apps/api/teams.go:547-565 | one request takes a team over its seats exactly when, with all seats taken, somebody who is not a member accepts a pending invite to their own address at its expiry and the members alone are fewer than three |
| SeatsOverrun.NeverExceededAlone | apps/api/teams.go:547-565 | over runs: the request that takes a free team past its seats is never the only one of its instant to take a seat |
| SeatsOverrun.OverrunHappens | apps/api/teams.go:312-580 | it happens: from an empty database, two invites, a third at the instant the first expires, and the first accepted then, give a free team four seats |
| Newsletter.Store.RegisterSubscriber | apps/api/email_capture.go:97-148 | whether a mail goes out, and the row |
| Newsletter.Store.HandleConfirm | apps/api/email_capture.go:210-264 | the row of the token, and whether it joins |
| Newsletter.Store.HandleUnsubscribe | apps/api/email_capture.go:270-318 | the row of the token leaves and loses its confirmation token |
| Newsletter.RowsMirrorHistory | apps/api/email_capture.go:97-318 | a row says exactly what last happened to its address |
| Newsletter.OnlyConfirmedJoin | apps/api/email_capture.go:226-262 | over every run, an address joins only with the token of the latest mail sent to it, within 48 hours, with no unsubscribe and no other mail in between |
| Newsletter.ConfirmedExactlyWhen | apps/api/email_capture.go:226-262 | confirmed exactly when joining is the last thing that happened |
| Newsletter.SendsTenMinutesApart | apps/api/email_capture.go:135-148 | two mails to one address are at least ten minutes apart, whatever happened between |
| Newsletter.LinkWorksExactlyWhen | apps/api/email_capture.go:226-262 | the latest link works exactly up to its expiry, that instant included |
| Billing.Store.ResolveTeam | apps/api/billing.go:306-328 | by stored subscription first, then by claim unless that team is live on another subscription |
| Billing.Store.HandleWebhook | apps/api/billing.go:348-405 | dedupe, apply, record, with failures of the UPDATE and of the ledger INSERT |
| Billing.RunsKeepBilling | apps/api/billing.go:73-75 | over every run a subscription belongs to one team at most, and a touched team is on PRO exactly when its status is active or trialing |
| Billing.LiveNeverRebound | apps/api/billing.go:289-305 | only events of its own subscription change a team with a live one |
| Billing.LiveKeptOverRun | apps/api/billing.go:289-305 | it keeps that subscription over any run for as long as it is live |
| Billing.RecordedReplayed | apps/api/billing.go:348-358 | a recorded event changes nothing, however much later it is delivered again |
| Billing.RedeliveryIdempotent | apps/api/billing.go:388-401 | an event whose ledger row was lost finds the same team again and leaves it as it is |
| Billing.HarmlessExactlyWhen | apps/api/billing.go:348-405 | an event of a team's stored subscription changes nothing exactly when it is recorded or says what the row says already; otherwise the row becomes what it says |
| Billing.RowIsLastApplied | apps/api/billing.go:388-401 | over every run a team's row is what the last event applied to it said, seat count aside, unless the team was made or removed since |
| Billing.LedgerIsRecorded | apps/api/billing.go:396-405 | over every run the ledger holds exactly the events whose recording succeeded |
| Billing.LateDeliveryExactlyWhen | apps/api/billing.go:348-405 | after every run, delivering an event of the team's subscription is harmless exactly when an earlier delivery was recorded or the row agrees; otherwise it replaces what the latest event said, and the plan changes exactly when the two statuses disagree on it |
| Billing.StaleDeliveryReverts | apps/api/billing.go:388-401 | so an old event undoes a newer one both when its ledger row was lost and when it was never delivered before |
| Billing.UnresolvedIsAcknowledged | apps/api/billing.go:360-374 | an event no team can be found for is acknowledged, changes nothing and is not recorded |
| Avatar.BoxInside | apps/api/avatar.go:100-118 | every box is non-empty and inside the image |
| Avatar.BoxesTile | apps/api/avatar.go:100-118 | from 256 pixels up every source pixel lies in exactly one box |
| Avatar.SmallBoxesAreSinglePixels | apps/api/avatar.go:103-118 | below that every box is one pixel |
| Avatar.AverageBox | apps/api/avatar.go:119-132 | the box average per channel, without uint32 overflow or division by zero |
| Avatar.Resize | apps/api/avatar.go:97-137 | every destination pixel is the average of its box |
| Avatar.ResizeSquare | apps/api/avatar.go:83-137 | the centred crop, resampled |
| Avatar.PixelWithinBox | apps/api/avatar.go:119-132 | each output channel lies between the minimum and maximum of its box |
| Avatar.ConstantStaysConstant | apps/api/avatar.go:119-132 | one colour stays one colour |
| Avatar.SmallImagesAreSampled | apps/api/avatar.go:103-132 | small images are sampled, not averaged |
| Rebind.RebindSQL | apps/api/db_driver.go:88-117 | both rewrites, then numbering; nothing for SQLite |
| Rebind.NumberedByPosition | apps/api/db_driver.go:98-116 | byte for byte, the k-th "?" outside a literal becomes $k and all else is copied |
| Rebind.RewritesKeepArity | apps/api/db_driver.go:92-93 | the text rewrites change no placeholder count |
| Rebind.RoundTripExactlyWhen | apps/api/db_driver.go:98-116 | a quote-tracking inverse restores the query exactly when no "?" or "$" outside a literal is followed by a digit |
| Kubernetes.CompileManifest | apps/api/importer/compiler.go:902-999 | the manifest text, separator rule included |
| Kubernetes.ParseKubernetes | apps/api/importer/k8s.go:21-176 | split, trim, skip, dispatch on kind, in document order, stopping at a malformed document |
| KubernetesFacts.DocRoundTripExactlyWhen | apps/api/importer/k8s.go:33-137 | a compiled document comes back from its tree unchanged exactly when it has a name |
| KubernetesFacts.SplitJoined | apps/api/importer/k8s.go:22-31 | splitting joined documents gives them back up to white space |
| KubernetesMarks.SplitJoinedExactlyWhen | apps/api/importer/k8s.go:22-31 | exactly when no document holds "---": each mark inside one adds a piece |
| KubernetesMarks.ManifestSplitsExactlyWhen | apps/api/importer/compiler.go:902-999 | the same for the manifest of a canvas |
| KubernetesMarks.ValueCutsManifest | apps/api/importer/compiler.go:902-999 | a ConfigMap or Secret value such as "a---b" makes the importer cut its one document in two or more |
| KubernetesFacts.ManifestRoundTrip | apps/api/importer/compiler.go:902-999 | parsing a compiled manifest gives the same documents in the same order |
| KubernetesFacts.RecompilesToSameText | apps/api/importer/compiler.go:902-999 | compiling them again gives the same text, but for a leading separator |
| Migrations.Server.RunMigrations | apps/api/migrations.go:568-609 | one boot, with every way each transaction can fail |
| Migrations.BootsKeepStep | apps/api/migrations.go:563-567 | over any sequence of boots, of older and newer servers, the schema is a prefix of the list applied once and in order, and the ledger records exactly it |
| Migrations.BootKeepsStep | apps/api/migrations.go:568-609 | a boot never goes back and succeeds only with all it knows applied |
| Migrations.BootAgainChangesNothing | apps/api/migrations.go:587-590 | a boot after a successful one changes nothing |
| Migrations.UndisturbedBootCompletes | apps/api/migrations.go:587-609 | one undisturbed boot always completes the schema |
| Streams.WsAdapter.Read | apps/cli/sandboxagent.go:40-64 | messages of any kind and size read as one stream; a read fails only when nothing is left |
| Streams.ReadAll | apps/cli/sandboxagent.go:40-64 | for any buffer sizes the bytes read are a prefix of the binary payloads |
| Streams.ReadLine | apps/cli/sandboxagent.go:82-97 | the line before the first newline, consuming exactly through it |
| Streams.ReadLines | apps/cli/sandboxagent.go:82-97 | reading n lines takes the first n lines of the stream and leaves exactly what follows |
| Streams.LinesRoundTrip | apps/cli/sandboxagent.go:82-102 | lines written one by one are read back one by one, and what follows is left alone |
| Streams.LineRoundTripExactlyWhen | apps/cli/sandboxagent.go:99-102 | a line survives exactly when it contains no newline |
| Streams.LinesRoundTripExactlyWhen | apps/cli/sandboxagent.go:82-102 | as many lines as were written can always be read back, and they are the ones written exactly when none of those contains a newline |
| Streams.ExchangeLines | apps/cli/sandboxagent.go:82-102 | the same for the writing and reading loops composed: what one end writes line by line and the other reads line by line |
| Splice.SplicePipe | apps/cli/sandboxagent.go:75-80 | two copies side by side, scheduled in any way, given up as soon as one ends: the result is a run of the two-direction model that ends closed |
| Splice.BytesConserved | apps/cli/sandboxagent.go:75-80 | over every interleaving of reads, short writes and failures, in each direction what was delivered followed by what is left is the original stream |
| Splice.CutOffExactlyWhen | apps/cli/sandboxagent.go:75-80 | when the ends are closed as the first copy ends, the other direction is whole exactly when that left nothing of it |
| Splice.FirstToEndIsWhole | apps/cli/sandboxagent.go:75-80 | without failed writes at least one direction always arrives whole |
| Splice.MayLoseExactlyWhen | apps/cli/sandboxagent.go:75-80 | some schedule without failures loses bytes of a direction exactly when it carries any |
| Splice.BothMayArrive | apps/cli/sandboxagent.go:75-80 | and some schedule delivers both whole |
| Splice.EmptyInputLosesReply | apps/cli/sandboxagent.go:396-440 | standard input at its end and any reply on its way: the proxy can exit with the whole reply lost |
| Splice.HandleAgentStream | apps/cli/sandboxagent.go:341-380 | header line, reply and splice account for every byte of both directions, delivered or left behind |
| Streams.DelayIsCappedDoubling | apps/cli/sandboxagent.go:324-339 | the k-th delay is 2^(k-1) seconds, at most 30 |

## Left out

- HTTP decoding, JSON, access roles, passwords, mail and every user interface: handlers start from validated input, and a database error on a read is not modelled except where a row above says so.
- Concurrency of handlers inside one request: each is one step, so two requests that both pass a limit check before either writes are not modelled; nor is a confirmation whose lookup and update are separated by another mail.
- Terraform attributes, provider and backend blocks, and escaping: blocks carry only addresses and references. References made by the text of custom nodes are not part of closure; which addresses that text declares is an input.
- Terraform.CompileNode: the text of a custom node stands for itself; how its `var.` parameters and its heading comment are put into it is not modelled.
- Duplicate Terraform addresses: two instances without a subnet both declare the automatic subnet; closure does not speak of it.
- Ansible playbooks and inventory text, Terraform import and Ansible import: renderings without cross-references.
- Kubernetes.ParseKubernetes: the edges it adds by comparing labels, and node fields that are constant, are not modelled; reading YAML is a parameter, assumed in the round trip to read the compiler's own documents, and printing a non-string value is a parameter too.
- Kubernetes.CompileManifest: floating-point parameters are not modelled.
- Runner: log text, environment, key files and inventory rewriting; a command is an arbitrary finite list of lines and a verdict, and LocalStack preparation, whose failures are ignored, is not modelled. A canvas is either parsed into ids and technologies or not parsed at all.
- Tracker.RunTracker.Join: writes during a join are taken to succeed, a viewer who joins after the tracker is gone reads the database instead, and the persisted log is only a prefix of the streamed one; none of this is modelled.
- AccountDelete: columns the deletion does not touch (who added a project member, who reviewed a request or a contribution, who started a run), and the re-authentication before it. Tables of the same shape share one map.
- Seats: project deletion, plan changes, address changes and account deletion are steps of a run without a handler of their own here (AccountDelete models the last one in full); duplicating a project is the same step as creating one in the destination team; role names arrive in upper case.
- Seats.Store.HandleUseTemplate: the lookup of the template, its tier rule and the personal team found are inputs.
- Billing: signature checks and the seat count sent to the provider.
- Avatar.ResizeSquare: images are taken as opaque; flattening transparency onto white is not modelled. The scale side/256 is exact in `float64` for the sides allowed, so integer division stands for it.
- Importer: positions are real numbers.
- Text: white space is ASCII, and strings are bytes without Unicode case folding.
- Integer overflow outside the avatar sums: counters, times and tokens are unbounded.
- Streams.WsAdapter.Read: buffers are non-empty, and a message reader returns at least one byte while it has any; with an empty buffer the loop in the code need not end.
- Splice: whether a header is accepted and which reply is sent are inputs, and a read error counts as the end of the source.
- Redactor: the exact condition for a list of several secrets is proved where none contains "*"; with one there, where the order of the list matters, only a sufficient condition and a failing family.
- Newsletter: the honeypot, rate limits and address validation in front of it.
