# A verified model of the helpdesk backend

This project models four parts of a multi-tenant helpdesk written in TypeScript over Prisma
and PostgreSQL, and proves what they promise. Paths in the table are relative to the
repository's root.

**The tenant scope** (`Values`, `Filters`, `Database`, `TenantExtension`, `Scope`, `ScopeLaws`,
`AttemptLaw`, `ScopeTheorems`, `ScopeEvents`, `ScopeDurability`, `ScopeLimits`, `Isolation`, `Reentrancy`,
`ScopeService`, `Requests`, `RefreshRequest`). Code that runs under a scope is a program of
model operations, raw SQL, emits, throws, catches, nested scopes, `attempt` and `$transaction`;
each step may depend on every reply received so far. `Scope.Exec` runs it on a world made of the
committed tables, the open transaction (working rows, `app.tenant_id`, aborted flag, savepoints),
the AsyncLocalStorage store, the queue of events and the trace of released ones.
`ScopeService` is the same thing with objects updated in place; every method is proved equal
to the function. PostgreSQL contributes three rules: a database error aborts the transaction until
it is rolled back to a savepoint; `ROLLBACK TO` undoes a transaction-local setting; a policy
compares `tenant_id` with `nullif(setting, '')` for reading and for writing. `COMMIT` of an aborted
transaction rolls back without an error.

**Tickets** (`Tickets`, `TicketMachine`, `TicketLaws`, `TicketResults`, `TicketNumbers`,
`TicketLimits`, `TicketService`). Any number of transactions interleave their statements at READ
COMMITTED: reads see committed rows, writes hold row locks to the end, a conditional update judges
the row it finds when the lock is free, and anything may roll back at any moment. `HonestRun` says
that every caller names a version no later than the one its call loaded; a lemma shows that this is
exactly the condition under which the row that was judged is the row that is changed.

**Refresh tokens** (`RefreshMachine`, `RefreshLaws`, `RefreshResults`, `RefreshService`). Logins,
refreshes, logouts and mass revocations interleave; a refresh is two transactions with nothing held
between them.

**Transformations** (`TicketListing`, `TicketExport`, `TicketCsv`, `Reports`, `Notifications`,
`FanOut`, `Users`, `UserRaces`). The `where` objects built by spreads, the pages, the export
loop, the CSV (read back by the grammar of RFC 4180, section 2), the socket fan-out, the timeline filter and the requests on
users, one at a time and interleaved.

Short lemmas beside the definitions, most of them named `…Means` or `…Exactly`, say in literal
terms (roles, statuses, column names, characters, error codes) what single operations do; the
longer results rest on those definitions.

Results that are not what the code's own comments say:

- `GET /tickets?unassigned=false&assigneeId=…`: the comment on `findAll` says a filter only narrows
  and that the one contradiction is refused. The later spread replaces the assignee filter.
  `TicketListing.ConjunctionExactly` gives the exact condition.
- A timeline read by somebody who is not staff ignores the `action` filter; this hides internal notes
  as intended (`Notifications.TimelineConjunctionExactly`).
- An event raised inside an `attempt` that fails is released all the same, and so is one raised before
  a database error that is caught without `attempt`; in the second case nothing is committed
  (`ScopeLimits`). `ScopeDurability.ReleasedEventsAreDurable` says exactly when every released event
  describes committed work.
- A caller that names a version ahead of the one it read can change a ticket that was closed
  meanwhile (`TicketLimits.GuessedVersionRewritesClosed`).
- `documents/RLS_DESIGN.md` says an unscoped transaction never sets `app.tenant_id`; the code sets it
  to the empty string. The model follows the code.
- The comment on `mutate` says events are emitted after the transaction. In a request the scope's
  transaction is still open then, and the queue is what delays them; the model follows the code.

## Model

| member | source | states |
|---|---|---|
| TenantExtension.SelectsTenantRows | src/tenancy/tenant-extension.ts:98-102 | a filtering, updating or upserting operation in a tenant scope selects exactly the tenant's rows that the caller's filter selects, whatever the caller wrote under `tenantId` |
| TenantExtension.WritesStayInTenant | src/tenancy/tenant-extension.ts:104-144 | whatever a scoped operation inserts or updates belongs to the tenant, and it updates or deletes only rows that already did, with no help from the policy |
| TenantExtension.LayersCoincide | src/tenancy/tenant-extension.ts:170-223 | when session and scope agree, a scoped operation has the same effect under the policy as with every tenant's rows in view, and the policy's write check never refuses it |
| TenantExtension.ScopedEffect | src/tenancy/tenant-extension.ts:98-202 | an accepted scoped operation has exactly the effect the caller's own would have on the tenant's rows that its filter selects, with the rows it creates given to the tenant |
| TenantExtension.InterceptKeepsTheRest | src/tenancy/tenant-extension.ts:104-144 | model, operation, data, the rest of the filter and every other field of the rows to create arrive as the caller wrote them |
| TenantExtension.InterceptPins | src/tenancy/tenant-extension.ts:98-168 | the filter's `tenantId` (on `Tenant` its `id`) and the tenant of every row to create are the scope's; an unscoped operation is left as it is |
| TenantExtension.InterceptedExactly | src/tenancy/tenant-extension.ts:154-223 | exactly which operations reach the database in which scope, and the error of each other one |
| Database.LandsExactly | prisma/migrations/20260908133311_row_level_security/migration.sql:119-135 | a write lands iff every new and changed row is a company or the session's tenant's, no key is taken and no constraint is broken; the policy is judged first |
| Database.ConflictsExactly | prisma/schema.prisma:80-304 | two rows collide iff they share a domain, a token hash, or within a company an address or a ticket number, `NULL` never colliding |
| Database.CreatesInsert | src/tenancy/tenant-extension.ts:52-56 | one row per element, under its id, with exactly the columns given |
| ScopeLaws.ExecDisciplined | src/tenancy/tenant-scope.service.ts:105-228 | every program keeps the invariant (store open iff transaction open, session equals store or transaction aborted, savepoint names ascending) and gives back store, queue prefix and savepoints it found |
| ScopeLaws.InTransactionItWaits | src/prisma/prisma.client.ts:76-100 | on an open transaction a statement that lands changes the working rows only; a database error aborts the transaction, one of the client does not, and an aborted transaction answers 25P02 and does nothing |
| ScopeLaws.AloneItIsDurable | src/prisma/prisma.client.ts:76-100 | with no transaction open a statement that lands is committed at once and a refused one leaves no trace |
| ScopeTheorems.LayersAgree | src/tenancy/tenant-scope.service.ts:179-227 | in every run from outside any scope, each statement sent on an open transaction finds it aborted or with `app.tenant_id` equal to the store's tenant (`''` when unscoped), and no scope is left open |
| ScopeTheorems.RestoreFailsThenAttemptRepairs | src/tenancy/tenant-scope.service.ts:195-209 | a database error in a nested scope defeats the restore, leaving session and store in disagreement on an aborted transaction; an enclosing `attempt` brings the session back |
| AttemptLaw.AttemptAgainstInline | src/tenancy/tenant-scope.service.ts:105-125 | entered on a healthy transaction, `attempt` always leaves a healthy one; it succeeds iff the body succeeds without having swallowed a database error and then has the body's effects; otherwise it re-raises and restores working rows and session exactly |
| AttemptLaw.SavepointsInvisible | src/tenancy/tenant-scope.service.ts:114-119 | no program can tell which savepoints lie below it or how they are numbered |
| AttemptLaw.NamesNeverShared | src/tenancy/tenant-scope.service.ts:114-127 | no two savepoints alive on one transaction carry the same name |
| ScopeTheorems.OwnerReleasesWhatWasEmitted | src/tenancy/tenant-scope.service.ts:139-162 | the owner releases exactly the events emitted inside it at any depth, once each and in program order, if it succeeds, and none otherwise |
| ScopeTheorems.NothingLeavesEarly | src/tenancy/domain-events.ts:42-54 | while a transaction is open nothing is released and nothing becomes durable |
| ScopeEvents.EmittedIsRaised | src/tenancy/domain-events.ts:42-54 | every program emits exactly the events that its emits, reached with the replies it got, compute, in program order, scopes and attempts included |
| ScopeEvents.EmitWaitsOrLeaves | src/tenancy/domain-events.ts:42-54 | an event raised with a transaction open waits behind those queued, and one raised with none open is released at once |
| ScopeEvents.QueueIsWhatIsRaised | src/tenancy/domain-events.ts:45-51 | with a transaction open the queue grows by exactly what the program raises, whatever fails on the way |
| ScopeEvents.ReleasedIsAnnounced | src/tenancy/domain-events.ts:42-54 | run with no transaction open, a program releases exactly what it raises outside its scopes, and what each scope raised once it has ended well, in order, and leaves nothing queued |
| ScopeDurability.ReleasedEventsAreDurable | src/tenancy/tenant-scope.service.ts:129-162 | a scope that succeeds commits exactly its transaction's writes, or none if the transaction was left aborted; and every released event was raised after a prefix of the committed writes iff no failing `attempt` raised one after writing and, in an aborted transaction, none was raised after a write |
| ScopeDurability.ExecMarks | src/tenancy/tenant-scope.service.ts:105-125 | for every program and sound world: writes and events only grow, and each new event stays described by the writes that are left iff the run is quiet |
| ScopeDurability.QuietAttemptsSuffice | src/tenancy/tenant-scope.service.ts:105-125 | a program with no emit inside an `attempt` is quiet in every run |
| ScopeDurability.SuccessIsHealthy | src/tenancy/tenant-scope.service.ts:85-104 | a program whose catches are around `attempt`, or end in an error again, leaves its transaction healthy when it succeeds |
| ScopeDurability.DisciplinedProgramsAreDurable | src/tenancy/tenant-scope.service.ts:150-159 | with both conditions, which can be read off the program, everything released describes committed work |
| ScopeLimits.FailedAttemptKeepsItsEvents | src/tenancy/tenant-scope.service.ts:121-124 | rolling back to the savepoint does not shorten the queue: a scope succeeds, commits nothing and releases the event |
| ScopeLimits.SwallowedErrorReleasesForNothing | src/tenancy/tenant-scope.service.ts:142-159 | a database error caught without `attempt` makes the commit a rollback, and the queue is drained all the same |
| Isolation.NonInterference | src/tenancy/tenant-extension.ts:98-202 | from any database: if in its run on the database cut down to one tenant a program opens no other tenant's scope, and every statement it gets to send finds no other company's `Tenant` row, opens no other company and writes no id and no globally unique value held elsewhere, then on the whole database it leaves every other tenant's rows untouched and has the outcome, replies, released events and own rows of that run |
| Isolation.UnscopedReadTells | src/tenancy/tenant-extension.ts:154-168 | the condition on `Tenant` is needed: a reading of it that the extension leaves as it is gives the reply of the cut-down database iff its filter finds no other company |
| Isolation.RequireCompanyIsConfined | src/platform/companies.service.ts:214-224 | the unscoped lookup of a company by its own id meets the conditions |
| Isolation.ConfinedProgramsDoNotInterfere | src/tenancy/tenant-extension.ts:98-202 | the same for every program that meets those conditions whatever replies it gets; in the tenant's own scope the extension sees to the filter on `Tenant` |
| Isolation.BlanketSqlIsConfined | documents/RLS_DESIGN.md:103-110 | raw SQL that updates or deletes every row it is shown meets them, as long as it leaves the globally unique column alone |
| Reentrancy.ReentrancyPreservesMeaning | src/prisma/prisma.client.ts:122-147 | inside an owning scope, re-entrant `$transaction` and a really nested transaction give the same outcome, replies, committed rows and events, when in the run whatever is caught is raised again or had failed without leaving behind writes of a `$transaction`, and no `$transaction` is begun, or called a success, in an aborted transaction |
| Reentrancy.ReentrantIsNested | src/prisma/prisma.client.ts:132-145 | along such a run the two forms end with the same outcome, and a failing one leaves the same transaction in both iff each `$transaction` that failed, outside an `attempt`, had written nothing and left the transaction healthy |
| Reentrancy.CaughtTransactionExactly | src/prisma/prisma.client.ts:132-134 | a `$transaction` whose failure is caught and dropped leaves the same in both forms iff it failed having written nothing and left the transaction healthy |
| Reentrancy.PropagatesSuffices | src/prisma/prisma.client.ts:122-147 | a condition read off the program that makes every run one of those |
| Reentrancy.ArrayFormIsInline | src/prisma/prisma.client.ts:136-145 | the array form is its elements awaited one after another, up to the first failure |
| Reentrancy.CaughtTransactionKeepsItsWrites | src/prisma/prisma.client.ts:132-134 | one that had written, concretely: it keeps the writes a nested one would lose |
| ScopeService.TenantScopeService.RunWithTenant | src/tenancy/tenant-scope.service.ts:58-66 | the objects end in the state `Exec` gives for a tenant scope, the empty tenant being refused |
| ScopeService.TenantScopeService.RunWithoutTenant | src/tenancy/tenant-scope.service.ts:81-83 | the same for an unscoped scope |
| ScopeService.TenantScopeService.Open | src/tenancy/tenant-scope.service.ts:129-162 | borrows the open transaction, or owns one, commits it and drains the queue |
| ScopeService.TenantScopeService.Drain | src/tenancy/tenant-scope.service.ts:157-159 | the whole queue is released in order |
| ScopeService.TenantScopeService.RunNested | src/tenancy/tenant-scope.service.ts:179-210 | the nested scope shares transaction and queue and restores the enclosing tenant, swallowing a failure of the restore |
| ScopeService.TenantScopeService.Attempt | src/tenancy/tenant-scope.service.ts:105-125 | one counter, one savepoint, released or rolled back to; a pass-through outside a transaction |
| ScopeService.TenantScopeService.EmitEvent | src/tenancy/domain-events.ts:42-54 | pushes on the shared queue when a transaction is open, releases at once when none is |
| ScopeService.TenantScopeService.TransactionArray | src/prisma/prisma.client.ts:139-145 | the loop over the array equals the function on the array |
| ScopeService.TenantScopeService.QueryModel | src/prisma/prisma.client.ts:76-100 | a model operation is rewritten for the current scope and sent to the open transaction, or to the base client when there is none |
| ScopeService.TenantScopeService.Execute | src/tenancy/tenant-scope.service.ts:129-210 | for every program, running the objects is `Exec` on their abstract state |
| ScopeService.OpenTransaction.SetConfig | src/tenancy/tenant-scope.service.ts:222-227 | the setting is written, or refused with 25P02 when the transaction is aborted |
| ScopeService.OpenTransaction.RollbackToSavepoint | src/tenancy/tenant-scope.service.ts:121-124 | rows, writes and setting return to the savepoint's and the transaction is healthy again |
| Requests.CompanyAllOrNothing | src/platform/companies.service.ts:61-106 | opening a company commits tenant, counter and first ADMIN together, exactly when none of them duplicates anything, and otherwise nothing, with a conflict |
| Requests.FreeExactly | src/platform/companies.service.ts:69-105 | none of the three rows duplicates anything iff their ids are new, no company has the domain and no user of that company the address |
| Requests.CompanyRowsMean | src/platform/companies.service.ts:71-90 | the company's row, its counter under the same id and its first ADMIN hold the columns given and belong to no tenant, the new one and the new one |
| Requests.CompanyPassesOtherErrors | src/platform/companies.service.ts:99-105 | an error other than a duplicate is raised again as it was |
| Requests.CompanyNestsAlike | src/platform/companies.service.ts:69-105 | with its catch that raises again, opening a company means the same with a really nested transaction |
| Requests.CreateUserRecovers | src/users/users.service.ts:52-90 | a new address adds exactly one user; a taken one changes nothing, leaves the transaction usable and tells a deactivated owner from an active one |
| Requests.TakenAddressIsExplained | src/users/users.service.ts:74-88 | with a fresh id, refused iff a user of the company has the address, and told "deactivated" iff that user's `deletedAt` is set |
| Requests.UserPassesOtherErrors | src/users/users.service.ts:70-72 | an error other than a duplicate is raised again as it was |
| Requests.CreateUserNeedsAttempt | src/users/users.service.ts:56-60 | without `attempt` the same request ends in 25P02 |
| RefreshRequest.ReplayRejectedAndRevoked | src/auth/auth.service.ts:99-139 | a spent token presented from outside any scope is rejected, and the revocation of every live token of its user is committed all the same |
| RefreshRequest.RevokedMeans | src/auth/refresh-token.service.ts:133-139 | that revocation stamps the tenant's rows of that user whose `revokedAt` is null and changes nothing else |
| RefreshRequest.FirstUseRotates | src/auth/auth.service.ts:99-139 | a token presented for the first time is revoked and that is committed; tokens are then issued iff its user is active, and otherwise the request is rejected all the same |
| RefreshRequest.UnknownRejected | src/auth/auth.service.ts:105-109 | a token no row has is rejected and nothing is written |
| RefreshRequest.ReplayInsideScopeLosesRevocation | src/auth/auth.service.ts:88-97 | inside an enclosing scope the same rejection takes the revocation with it |
| Tickets.ChangedFields | src/tickets/tickets.service.ts:580-595 | the record holds exactly the listed attributes that differ, with the side asked for |
| Tickets.MutationDoesWhatWasAsked | src/tickets/tickets.service.ts:235-345 | exactly when an edit, a status change or an assignment is accepted, and that the row then has what was asked (a `null` description cleared, an omitted one kept), the timestamps of the move and nothing else new |
| Tickets.RefusalsTellWhy | src/tickets/tickets.service.ts:235-345 | the reason for every refusal: closed, the same status again, a move not in the table, an assignee not found, one who cannot hold a ticket, a null for a required column |
| Tickets.OpeningTakesTheDraft | src/tickets/tickets.service.ts:123-154 | an opened ticket is the caller's, OPEN, unassigned, at version 1, with title, description, priority and category of the draft, and its event names the caller and those values |
| Tickets.MutationKeepsCoherence | src/tickets/tickets.service.ts:280-308 | an allowed mutation of a coherent ticket keeps `resolvedAt` set iff RESOLVED or CLOSED and `closedAt`/`closedById` set iff CLOSED, moves the status along the table or not at all, and never starts from CLOSED |
| Tickets.EventTellsTheDifference | src/tickets/tickets.service.ts:259-263 | an event's two sides are the row's values before and after and name every audited attribute that moved |
| Tickets.EventNamesWhoActed | src/tickets/tickets.service.ts:447-495 | the event of every accepted request names the caller as actor, the caller's tenant, the ticket and its requester, both assignees without a duplicate, and the action of that request |
| TicketLaws.RunKeeps | src/tickets/tickets.service.ts:401-458 | every step of every interleaving keeps the machine's invariant: committed rows are the fold of the committed log, open transactions extend it, and no two hold the same row |
| TicketLaws.RefusedCallsEnd | src/tickets/tickets.service.ts:401-437 | a call refused by the rules or by the version is over and has changed nothing |
| TicketResults.ExactIffVersionWasRead | src/tickets/tickets.service.ts:416-428 | a successful update changes exactly the row that was validated iff the caller's version is no later than the one loaded |
| TicketResults.OneCommitPerVersion | src/tickets/tickets.service.ts:419-422 | a committed row's version is one more than its committed mutations, and the k-th of them changed version k |
| TicketResults.Serializable | src/tickets/tickets.service.ts:401-438 | under honest versions the committed row is what its committed requests produce one after another, each still visible to its caller and still allowed |
| TicketResults.Lifecycle | src/tickets/ticket-transitions.ts:20-31 | under honest versions every committed row carries the timestamps of its status, and every committed step is in the table and starts from a ticket that is not closed |
| TicketResults.ClosedIsFinal | src/tickets/tickets.service.ts:527-533 | under honest versions a committed CLOSED row never changes again |
| TicketResults.TrailReplaysTicket | src/tickets/tickets.service.ts:136-154 | folding the new values of a ticket's released events over an unassigned start gives the committed title, status, priority, category, assignee and, once changed, description; each event's old values are what the fold had reached |
| TicketResults.ReleasedEventsNameWhoActed | src/tickets/tickets.service.ts:473-495 | the same for every event any run of concurrent requests releases, the opening of a ticket included |
| TicketNumbers.GaplessNumbering | src/tickets/tickets.service.ts:106-134 | in every reachable state a tenant's committed numbers are exactly 1 to its committed counter, each once |
| TicketNumbers.CounterIsItsTenants | src/tickets/tickets.service.ts:107-110 | a counter moves only when a transaction holding it commits, and only a caller of its tenant makes one hold or advance it |
| TicketLimits.GuessedVersionRewritesClosed | src/tickets/tickets.service.ts:419-422 | from any quiet state with a resolved ticket, a version guessed one ahead rewrites the title after the ticket has been closed |
| TicketService.TicketsService.Create | src/tickets/tickets.service.ts:102-157 | the ticket takes the tenant's next number, the counter moves by one and one event is raised; without a counter row nothing changes |
| TicketService.TicketsService.Mutate | src/tickets/tickets.service.ts:401-458 | refused in the order 404, rule, version, with nothing written or announced; otherwise the row moves on by one version and the event carries both sides |
| TicketService.VerdictExactly | src/tickets/tickets.service.ts:370-437 | a mutation goes through iff the caller may see the ticket, the rules allow it and the version is the row's, and each refusal has its reason in that order |
| TicketService.UninterruptedMutate | src/tickets/tickets.service.ts:417-458 | an accepted call is a run of the machine that ends with the same row and releases the same event, and changes nothing else |
| TicketService.UninterruptedCreate | src/tickets/tickets.service.ts:106-134 | so is an opening |
| RefreshResults.RotationConserves | src/auth/refresh-token.service.ts:58-124 | in every interleaving no token is consumed twice, and live tokens plus refreshes between consume and issue never exceed the user's logins |
| RefreshResults.RevokedForever | src/auth/refresh-token.service.ts:107-151 | a revoked token never becomes live again |
| RefreshResults.ReplayEndsEverySession | src/auth/refresh-token.service.ts:133-139 | whatever runs meanwhile, when the mass revocation commits every token that was live when the replay was noticed is revoked |
| RefreshResults.ReplayLeavesOnlyFlights | src/auth/auth.service.ts:111-119 | if that user is issued no token while the revocation runs, whatever other users do, the user has no live token, and until the user's next login at most as many return as refreshes were in flight |
| RefreshResults.ReplayBoundsWhatReturns | src/auth/auth.service.ts:108-119 | with everything else still running, none of the ended sessions is live again, and what the user holds later is at most the refreshes in flight when the replay was noticed, those that spent an ended session before the revocation reached it, and the logins since |
| RefreshLaws.PotentialRun | src/auth/auth.service.ts:99-168 | over any run from any sound state, live tokens plus refreshes in flight grow by no more than the logins added |
| RefreshLaws.RunSound | src/auth/refresh-token.service.ts:107-151 | row locks stay exclusive, a winner's token stays live until it commits, and every consumed token is revoked |
| RefreshLaws.LoginsAreCounted | src/auth/auth.service.ts:148-168 | the logins in the bounds are exactly the tokens issued after one |
| RefreshService.RefreshTokenService.Issue | src/auth/refresh-token.service.ts:58-79 | exactly one live row is added |
| RefreshService.RefreshTokenService.Consume | src/auth/refresh-token.service.ts:107-124 | unknown, spent or rotated, and only a rotation revokes the row |
| RefreshService.RefreshTokenService.RevokeAllFor | src/auth/refresh-token.service.ts:133-139 | exactly the user's live rows are revoked and counted |
| RefreshService.RefreshTokenService.RevokeOne | src/auth/refresh-token.service.ts:146-151 | one row, if it is the user's; otherwise nothing, silently |
| RefreshService.AuthService.Refresh | src/auth/auth.service.ts:99-139 | success iff the token is live and the user active; the rows after each outcome |
| RefreshService.AuthService.Logout | src/auth/auth.service.ts:142-146 | revokes the caller's own token and no other |
| RefreshService.RefreshExchanges | src/auth/auth.service.ts:99-168 | an accepted refresh trades one live token for one, a replay leaves none, any other rejection costs at most the token presented, and other users are untouched |
| RefreshService.UninterruptedRefresh | src/auth/auth.service.ts:99-139 | every call is a run of the machine with the same rows |
| RefreshService.UninterruptedLogout | src/auth/auth.service.ts:142-146 | a logout is a run of the machine with the same rows |
| RefreshService.UninterruptedLogin | src/auth/auth.service.ts:148-168 | issuing after a login is a run that adds one live token and counts one login |
| TicketListing.ListingMeans | src/tickets/tickets.service.ts:172-198 | on every ticket, the filter after the extension is same tenant, visible to the caller, and the effective query |
| TicketListing.FiltersOnlyNarrow | src/tickets/tickets.service.ts:517-521 | no filter lists a ticket of another tenant or one the caller may not see |
| TicketListing.AdminSeesTheCompany | src/tickets/ticket-visibility.ts:1-61 | an ADMIN's unfiltered listing has every ticket of the company |
| Filters.SearchExactly | src/tickets/tickets.service.ts:184-191 | a search finds its text anywhere in the column, in capitals or not |
| TicketListing.LoadMeans | src/tickets/tickets.service.ts:370-387 | `load` selects exactly the ticket of that id, if the caller may see it |
| TicketListing.InvolvingMeans | src/tickets/ticket-visibility.ts:59-61 | the fragment holds exactly of tickets the user opened or works |
| TicketListing.ConjunctionExactly | src/tickets/tickets.service.ts:178-183 | the listing is the conjunction of everything requested on all tickets iff it is not the case that `unassigned=false` comes with an assignee, other than the one the caller's own view already forces |
| TicketExport.ViewIsUnique | src/tickets/tickets.service.ts:206-209 | `createdAt` and `id` descending determine the listing: two sorted listings of one set are equal |
| TicketExport.NewestFirst | src/tickets/tickets.service.ts:206-209 | a newer ticket stands before an older one, and of two equally old the one with the greater id |
| TicketExport.TotalPagesExactly | src/tickets/tickets.service.ts:214-221 | `total` is the view's and `totalPages` is the least number of pages that holds it, one when it is empty |
| TicketExport.PageMeans | src/tickets/tickets.service.ts:210-211 | a page holds the rows of its place in the view, and is full unless the view ends on it or before |
| TicketExport.LoadableIffVisible | src/tickets/tickets.service.ts:377-384 | `load` answers exactly for tickets the caller may see |
| TicketExport.ListedIffLoadable | src/tickets/tickets.service.ts:200-222 | a ticket is on some page of the unfiltered listing iff it can be loaded |
| TicketExport.OnItsPage | src/tickets/tickets.service.ts:210-221 | the i-th row of the view is on page i / perPage + 1, which is at most `totalPages` |
| TicketExport.Collect | src/reports/reports.processor.ts:148-167 | for any answers whatever, at most `maxRows` pages are read and at most `maxRows` rows returned; the loop computes its specification |
| TicketExport.CollectEndsAs | src/reports/reports.processor.ts:148-167 | for any answers whatever, pages are read while the rows are too few and each page before said there is more; the result is the failure of a page read, or the rows of all pages read cut at `maxRows` |
| TicketExport.CollectFailsExactly | src/reports/reports.processor.ts:154-166 | it fails iff a page that is read fails, with that page's error |
| TicketExport.CollectedIsPrefix | src/reports/reports.processor.ts:154-166 | over a view that stays put the result is its first `maxRows` rows |
| TicketExport.ExportIsTheView | src/reports/reports.processor.ts:148-167 | over a table that stays put the export is the first `maxRows` of the caller's sorted, filtered, visible tickets |
| TicketExport.NoDuplicates | src/tickets/tickets.service.ts:206-209 | a listing has no ticket twice |
| TicketCsv.RoundTrip | src/reports/ticket-csv.ts:43-74 | the RFC 4180 reader recovers the header and exactly the guarded text of every cell |
| TicketCsv.CellsStandUnderTheirNames | src/reports/ticket-csv.ts:8-71 | every record as read has one cell per column, and it is the ticket's own value for the name the header gives that column: a number in decimal without leading zeros, a text behind an apostrophe iff it starts with one of the six characters, nothing for a missing value |
| TicketCsv.DigitsDenote | src/reports/ticket-csv.ts:46 | the digits printed for a number stand for that number |
| TicketCsv.NoCellIsAFormula | src/reports/ticket-csv.ts:43-50 | no cell as read starts with `=`, `+`, `-`, `@`, tab or CR, and there is one record per ticket after the header |
| TicketCsv.GuardCollides | src/reports/ticket-csv.ts:46-47 | two texts print alike iff they are equal or one is the dangerous text and the other is it with an apostrophe |
| Reports.ReportsProcessor.Process | src/reports/reports.processor.ts:72-138 | the row ends COMPLETED with the CSV, the count and the time, or FAILED with the error that is rethrown, and the announcement says the same; if the first write fails nothing happens, and if recording the failure fails that error is thrown and the row stays PROCESSING |
| Reports.StoredReportReadsBack | src/reports/reports.processor.ts:78-90 | over a table that stays put the stored text reads back as the header and one record for each of the first `maxRows` tickets of the requester's view |
| Notifications.RoomsAreDistinct | src/realtime/rooms.ts:8-26 | rooms of different users, of different companies, and of a user and a company never coincide |
| Notifications.NotificationsGateway.HandleConnection | src/realtime/notifications.gateway.ts:66-96 | only an existing active user is accepted, and the socket is in exactly the rooms of its role as read then |
| Notifications.NotificationsGateway.OnTicketEvent | src/realtime/notifications.gateway.ts:119-138 | exactly the tenant's ADMINs, the named assignees and, unless the action is staff-only, the requester are addressed |
| Notifications.MutationReachesItsViewers | src/tickets/tickets.service.ts:447-455 | a mutation is announced to exactly those who could see the ticket before or after it |
| Notifications.CreationReachesItsViewers | src/tickets/tickets.service.ts:136-154 | a new ticket is announced to exactly those who can see it |
| FanOut.ReleasedEventsReachTheirViewers | src/realtime/notifications.gateway.ts:119-138 | for every event any honest run of concurrent ticket requests releases, the sockets its rooms reach are exactly those of people who could see the ticket before or after |
| Notifications.CommentReachesItsViewers | src/comments/comments.service.ts:96-112 | a public comment is announced to exactly those who can see the ticket |
| Notifications.CommentTakenExactly | src/comments/comments.service.ts:58-112 | a comment is taken iff the ticket is not CLOSED and, if it is internal, its author is an ADMIN or an AGENT; its event names author, tenant, ticket, requester, assignee and action |
| Notifications.InternalNoteStaysInternal | src/realtime/notifications.gateway.ts:128-135 | an internal note reaches only ADMINs and AGENTs iff every connected assignee is one |
| Notifications.TimelineMeans | src/audit/audit.service.ts:77-87 | on every entry, the timeline filter is that ticket, that tenant, what may be shown and the effective query |
| Notifications.TimelineHidesNotes | src/audit/audit.service.ts:70-90 | a timeline exists only for a ticket the reader can see, and contains no `internal_note_added` for a REQUESTER or an ADMIN_MASTER, whatever filter was sent |
| Notifications.TimelineShowsTheRest | src/audit/audit.service.ts:77-87 | unfiltered, it has every entry of a visible ticket, except the internal notes for readers who are neither ADMIN nor AGENT |
| Notifications.TimelineConjunctionExactly | src/audit/audit.service.ts:77-87 | the timeline is the conjunction of what was asked and what may be shown iff the reader is an ADMIN or an AGENT or sends no action filter |
| Users.UsersService.Create | src/users/users.service.ts:52-90 | refused iff the address is taken, deactivated users included |
| Users.UsersService.Update | src/users/users.service.ts:138-161 | the last active ADMIN is not demoted; otherwise only the fields sent change |
| Users.UsersService.Remove | src/users/users.service.ts:170-194 | deactivates and revokes every live token of that user and no other, or changes nothing |
| Users.UsersService.Restore | src/users/users.service.ts:202-217 | reactivates a deactivated user and nothing else |
| Users.UsersService.CheckNotLastAdmin | src/users/users.service.ts:283-297 | for a loaded user, refuses iff that user is the only active ADMIN |
| Users.RequestsDoWhatWasAsked | src/users/users.service.ts:138-217 | exactly when each request is refused, and that it touches one user and of that one only what was asked |
| Users.RefusalsTellWhy | src/users/users.service.ts:138-217 | the reason for every refusal, in the order the service looks: not found, yourself, already deactivated, the last ADMIN, the address, not deactivated |
| Users.AlwaysAdministrable | src/users/users.service.ts:138-217 | over every sequence of atomic requests a company that has an active ADMIN keeps one |
| Users.EmailsStayUnique | src/users/users.service.ts:52-90 | over every sequence of requests addresses stay unique, deactivated users included |
| Users.RestoreUndoesRemove | src/users/users.service.ts:196-217 | restoring undoes a removal exactly, and meanwhile nobody can take the address |
| UserRaces.UninterruptedIsAtomic | src/users/users.service.ts:138-217 | a request that checks and writes with nothing in between is the atomic one |
| UserRaces.EmailsStayUniqueInRaces | src/users/users.service.ts:52-90 | over every interleaving addresses stay unique, whatever the checks had seen |
| UserRaces.WriteMeans | src/users/users.service.ts:138-217 | a write changes the one row as it is by then, in the columns the request names, and is refused when the row is gone or the address taken |
| UserRaces.LostExactlyWhenACountIsStale | src/users/users.service.ts:283-297 | over every interleaving of checks and writes the company keeps an active ADMIN all along iff no demotion or removal writes when its target has become the only one |
| UserRaces.OneAtATimeIsSafe | src/users/users.service.ts:283-297 | it does if no demotion or removal writes while another has passed its check |
| UserRaces.RivalsLeaveTheRest | src/users/users.service.ts:283-297 | any number of demotions and removals of different ADMINs that all count first are all accepted, and nobody is left iff together they name every active ADMIN |

## Left out

- Scope.Exec: one request's statements run one after another; nested scopes run in parallel on one transaction, the 15 s and 5 s timeouts and the connection pool are not modelled.
- Scope.Exec: `$transaction` called outside every scope opens a transaction of its own; here it is a pass-through, each statement committing alone.
- Scope.Exec: a COMMIT that itself fails (a lost connection, a deferred constraint) is not modelled.
- Database.Refusal: primary-key rewrites are answered with a database error, raw SQL reaches only tables under a policy, and foreign keys, cascades, `isPlatform` and partial indexes are left out.
- Isolation.NonInterference: runs that find or change another company's `Tenant` row, open another company, or write an id or globally unique value held elsewhere are excluded: `Tenant` has no policy, and the constraints answer with other tenants' rows.
- ScopeService.TenantScopeService.Execute: statement replies and catches are driven by the program value; JavaScript promises and the AsyncLocalStorage mechanism itself are not modelled.
- Reentrancy.ReentrancyPreservesMeaning: says nothing of a program that goes on after catching the failure of a `$transaction` that had written (what is left then differs, by `ReentrantIsNested`), nor of a `$transaction` begun, or ending in success, in an aborted transaction, which the nested form refuses.
- TicketMachine.Step: the update and the re-read of the same row are one step, since the row is locked between them; `updatedAt` and the people joined by `include` are left out.
- TicketMachine.Step: "every assignee is staff" is checked once with no lock and is not an invariant; the role found at validation is part of the step.
- TicketService.UninterruptedMutate: covers accepted calls; a refused call changes nothing by `Mutate`'s own contract.
- RefreshMachine.Step: hashes are taken as injective, signature and expiry checks as already passed, and deactivation as a verdict supplied when the consuming transaction commits.
- RefreshResults.ReplayLeavesOnlyFlights: is about runs in which that user is issued no token meanwhile; `ReplayBoundsWhatReturns` has no such condition and a larger bound.
- TicketExport.FindAll: the count and the page are read from one state of the table; two statements at READ COMMITTED may see two.
- TicketExport.Less: ids are ordered by character code, not by a collation.
- Filters.ContainsText: case folding is ASCII only.
- TicketCsv.ReadPlain: accepts any character but the four special ones, where RFC 4180 lists printable ASCII.
- TicketCsv.Cell: dates come with their `toISOString()` text, and numbers are integers.
- Notifications.MutationReachesItsViewers: assumes, as does `FanOut`, that a user named by a ticket belongs to its company; socket.io delivery is not modelled.
- Notifications.TimelineHidesNotes: states what the filter shows; whether the listener managed to store an entry after the commit is not modelled.
- Notifications.CommentEvent: the id of the comment, which its event carries, is left out.
- Users.AlwaysAdministrable: holds for requests that do not interleave; `UserRaces` says exactly when it fails otherwise. `null` for an address or a role, which Prisma refuses, is not modelled.
- Users.UsersService.Create: password hashing and `changePassword` are left out.
- HTTP controllers, guards, DTO validation, module wiring, BullMQ and platform bootstrap: their effect appears as parameters.
- The comment and user listings, company update and deletion: they repeat patterns already modelled.
