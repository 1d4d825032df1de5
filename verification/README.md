# A verified model of CareerSpyder's job store and pipeline

CareerSpyder scrapes job boards on behalf of several users, stores what it finds, and
mails each user a digest of what is new. This project models the parts of it where
correctness depends on several functions, on the order of transactions, or on loops
with an exact specification, and proves what those parts keep.

`dafny verify dfyconfig.toml` checks everything (Dafny 4.11).

## How it is laid out

| files | what they model |
|---|---|
| `Common`, `Text` | nullable columns, list comprehensions, `strip`/`split`/`join` |
| `Jobs`, `JobTable`, `StatusHistory`, `Effects` | postings, the `jobs` table and the status history as values: what each transaction writes |
| `JobStore` | the same operations as methods that update the tables in place, proved against those values |
| `Sources`, `Scheduler` | `run_once` and `_run_user` as methods over the store, for one undisturbed run |
| `Pipeline` | the whole system as steps: any number of runs, no-source passes and URL checks, one transaction or read at a time, with user edits and crashes in between |
| `NewJobsOnce`, `MailOnce`, `ClearWhileComposing`, `Delivery`, `NothingLost`, `NoSourcePass`, `Tenants` | what every history of that system keeps |
| `Histories` | histories from the empty database that break what it does not keep |
| `Sql`, `JobFilters`, `JobQueries`, `JobPages` | the filter compiler over a small SQL with three-valued logic; list, count, order and pages |
| `Invites` | concurrent registration by invite |
| `RateLimit` | the sliding-window limiter |
| `SourceImport`, `Preferences` | the settings form; settings export, import preview and import |
| `SettingsInUse` | what saved settings mean to a scheduled run |
| `Scrapers`, `Digests`, `ReleaseNotes` | paged scraping, the digest e-mail, the release-notes renderer |

`Pipeline.State` carries a log of committed transactions; `Pipeline.TablesAreReplay` says
that the tables are always the replay of that log, so statements about logs are
statements about what happened to the tables. A run's in-memory values live in its
program counter (`Pipeline.Pc`). `Delivery.StorageIsStore` ties the steps to the tables'
own account of a storage phase, and `Scheduler.RunStores` says row by row what that is.

## What was found

Most claims hold as one would want them. These do not, and the model says exactly when
they do:

- *Mailed at most once.* Runs of one user that do not overlap, re-sending off, no crash:
  a posting is still mailed twice with nothing between the two digests when the user
  clears the job cache after a run stored the posting and before it sends
  (`ClearWhileComposing.ClearBeforeSendMailsTwice`). It is mailed at most once between
  clears and reactivations whenever its row is stored at the time of the first digest
  (`MailOnce.MailedOncePerRenewal`), and is always mailed again when it is not
  (`Delivery.AbsentIsMailedAgain`).
- *Found again, mailed again.* A posting that is found by a configured source but whose
  row names a source that is not configured is removed and reactivated in one reconcile,
  and so mailed after every run (`JobTable.FoundRowStaysMailed`).
- *Nothing is lost.* A run that marks its digest, or finds nothing to send, leaves no
  active unmailed posting but flagged duplicates and excluded statuses, whatever other
  users and crashed runs do meanwhile (`NothingLost.DigestLeavesNothingOwed`); except a
  posting that the user unflags or gives another status after the run has read the
  unmailed rows (`Histories.FreedTooLate`), and what an overlapping run of the same user
  stores (`Histories.OverlapTooLate`). A mark leaves owed exactly what was owed before it
  and was not in the digest (`NothingLost.MarkLeaves`).
- *Flagged duplicates stay out.* Exactly when there are at most 10,000 of them, or none of
  them would be in the digest anyway (`Delivery.DuplicatesStayOut`).
- *The no-source pass spares a user who has a source again.* It commits against a user
  who has a source exactly when one was added after its re-check and kept
  (`NoSourcePass.RetiresDespiteSource`, `Histories.SourceAddedTooLate`); adding a source
  does not take the run lock.
- *Status agrees with history.* From any state, a change leaves them in agreement exactly
  when it is stamped no earlier than the first entry of that job's history, or sets the
  status which that entry shows (`Effects.ChangeAgrees`); so after any transactions,
  exactly when that held of the job's last change (`Effects.AgreesIffLastInLine`). A clock
  that went back between earlier changes, or on other jobs, does no harm
  (`Effects.ClockBackAndForth`).
- *Revoked invites admit nobody.* The expiry is checked when a request begins and not
  again (`Invites.RevokedAfterTheCheck`). Somebody may still be admitted after a
  revocation exactly when a request that is past that check has its name and address free
  and either holds the claim, or the invite is unclaimed or its claim may still be given
  back (`Invites.RevocationHoldsIff`).
- *The listing has a fixed order.* Exactly when no two of its rows have the same key and
  the same place in the sort column (`JobPages.OneListingIffNoTies`): always for one user,
  not across users, where two users' copies of one posting may swap
  (`JobPages.TwoUsersMaySwap`).
- *The pages show every job once.* For one user, exactly when from each page to the next no
  row already shown falls behind one still to come (`JobPages.PagesTile`). Only the sort
  by age can do that, since it reads the clock of each query, and only between an active
  row and a removed one (`JobPages.OnlyMixedPairsCross`); then a row is shown twice and
  another not at all (`JobPages.AgeShowsTwice`).
- *The limiter counts the window.* The clock is read before the lock is taken, so readings
  may come in any order. Whatever they are, a call is allowed only if fewer than the
  maximum of accepted calls lie in the window that ends at the latest reading, and exactly
  then as long as no accepted call was behind the latest reading at its time
  (`RateLimit.DecidedByLatest`). After that, older calls may be stuck in the queue and
  count too (`RateLimit.StuckCallsCount`, `RateLimit.LateCallStays`). So a call is decided
  by the full log and its own window exactly when that window is on the same side of the
  limit as the latest one with the stuck calls (`RateLimit.DecidedAsTheLogWould`, and
  `RateLimit.OutOfOrderClock` for a run where it is not), and always when readings arrive
  in lock order (`RateLimit.EveryWindowBounded`).
- *The import does what its preview says.* Exactly when no id in the file belongs to
  somebody else and no two entries share an id and differ (`SourceImport.PreviewExact`).
- *Exported preferences import as they were.* Exactly when no recipient address contains
  a comma, which the address check allows (`Preferences.FormRoundTrip`).
- *The digest goes to the addresses that were saved.* Likewise: the run splits the stored
  string at commas, so an address with one in it becomes two others
  (`SettingsInUse.MailsStoredAddresses`).
- *The digest shows what it marks as mailed.* Exactly when no company exceeds the cap per
  company; the rest is announced by number only (`Digests.ReportConserves`).
- *A paragraph may follow a list.* In rendered release notes it never does: a plain line
  after a bullet becomes part of the bullet, blank lines or not
  (`ReleaseNotes.BlocksConserve`).
- *Settings can be exported.* Exactly when their `email_to` is not null
  (`Preferences.ExportFails`). Every new account is seeded with a string, so a null needs
  an account creation that stopped between `create_user` and `_seed_settings`
  (`app/web/routes_auth.py:298-306`) and a `save_settings` after it.

## Premises

- A database function is one transaction; `reconcile_jobs` and `check_job_urls` are split
  into their reads and their commit, since other users' requests commit in between.
- "Configured" sources are the list that `run_once` was handed. Their answers are a function
  of the source, since a list from the database holds no source twice.
- `SoloRuns` and `OrderlyRuns` say which histories a claim about one user is about: runs of
  that user that do not overlap and, for mailing once, re-sending off and no crash between
  a send and its mark. Other users' runs may overlap at will. The code does not enforce
  this: only storage and URL checking take the lock.
- `reconcile_jobs` has two selects; the second (`app/db.py:557-560`) is taken together with
  the commit, so no other commit falls between these two.
- In the step system storing is never refused. A save that is refused ends the run with
  nothing written, as a crash between comparing and storing does, so the histories include
  it; an undisturbed run (`Delivery.Answers`) is one whose new postings have no empty
  location.
- `jobs.location` refers to a location stub, and stubs are made for non-empty locations
  only; the model keeps the refusal of an empty location (`JobStore.RefusedLocation`).

## Model

| member | source | states |
|---|---|---|
| Jobs.DedupeKeys | app/orchestrator.py:64-65 | de-duplicating keeps every key, each exactly once |
| Jobs.DedupeOrder | app/orchestrator.py:64-65 | entries stay in the order in which their keys were first seen |
| Jobs.DedupeLast | app/orchestrator.py:64-65 | each surviving entry is the last one scraped for its key |
| Jobs.ApplyKeywordFilters | app/filters.py:10-18 | a posting is kept exactly when it mentions an include keyword, if there are any, and no exclude keyword |
| Jobs.MentionsIff | app/filters.py:4-18 | a posting mentions a keyword list iff some keyword stands, letter by letter and whatever the case, somewhere in its title, company and place |
| Jobs.KeywordFiltersKeepOrder | app/filters.py:10-18 | the kept postings stay in order, each as often as it came |
| JobTable.ReconcileClosedForm | app/db.py:534-570 | a row ends active iff its key was found, or it was active and its source is null or configured and unsuccessful; the mailed mark goes exactly from found rows that were removed or whose source is not configured; nothing else changes |
| JobTable.ReconcileIdempotent | app/db.py:534-570 | a second call with the same arguments, at any time, changes nothing |
| JobTable.FoundRowStaysMailed | app/db.py:544-568 | an active mailed row that is found again is up for mailing iff its own source is not configured |
| JobTable.LatestUrlOfDedupe | app/db.py:55-69 | healing from the de-duplicated list leaves the URL that the full list would |
| JobTable.StoragePhase | app/orchestrator.py:64-75 | the key set grows by exactly the filtered keys, every scraped stored key is active with its last raw URL, new rows are unmailed and unflagged, rows not scraped keep posting and mailed mark, other users keep everything |
| JobTable.StorageIgnoresKeywords | app/orchestrator.py:60-75 | for a row stored before the run the outcome is the same for any keyword lists |
| JobStore.Store.GetNewJobs | app/db.py:19-27 | the postings whose key the user has not stored, in order |
| JobStore.Store.SaveJobs | app/db.py:30-52 | all unseen postings are inserted, or, when a location is refused, nothing is written |
| JobStore.RefusedLocation | app/db.py:34-50 | a save is refused only for a posting with an empty location |
| JobStore.Store.RefreshJobUrls | app/db.py:55-69 | every stored posting gets the URL last listed for its key; the result counts the statements that changed a row |
| JobStore.HealCountIsChanged | app/db.py:55-69 | for a list without repeated keys that count is the number of rows that differ |
| JobStore.Store.ClearJobs | app/db.py:72-75 | the user's rows and history go, everybody else's stay |
| JobStore.Store.ReconcileJobs | app/db.py:534-570 | the two selects and two updates compute the closed form |
| JobStore.ReconcileStatements | app/db.py:539-568 | the same, statement by statement, with empty updates skipped |
| JobStore.Store.MarkEmailed | app/db.py:496-505 | exactly the listed rows of the user get the mailed time, and nothing else of any row changes |
| JobStore.Store.GetUnemailedJobs | app/db.py:508-531 | exactly the active unmailed postings, each once |
| JobStore.Store.GetEmailedKeys | app/db.py:685-695 | exactly the listed keys that are stored and marked |
| JobStore.Store.GetJobStatuses | app/db.py:674-682 | a status for exactly the stored keys |
| JobStore.Store.ListDuplicateKeys | app/scheduler.py:53-55 | flagged keys only, all of them or as many as the limit |
| JobStore.Store.CheckJobUrls | app/checker.py:35-84 | exactly the answered rows that were active in scope become removed, nothing else changes, and the count is the number of rows that stopped being active |
| JobStore.Store.MarkJobRemoved | app/db.py:573-583 | an active row is removed, a removed one keeps its time, an unknown key is an error that writes nothing |
| JobStore.Store.SetJobStatus | app/db.py:586-597 | status and history change together, or neither does |
| JobStore.Store.BulkSetStatus | app/db.py:600-620 | exactly the listed keys that are stored get the status and one history entry each, in the order the database returns them; unknown keys are left out |
| JobStore.Store.SetJobDuplicate | app/db.py:698-716 | the flag of one stored row, with the original only while it is flagged; an unknown key is an error that writes nothing |
| JobStore.FlagIs | app/db.py:698-716 | row by row that is the step system's transaction, for stored and unknown keys alike |
| StatusHistory.NewestAppend | app/db.py:728-744 | after a change, the first entry by time and id is the new one for the changed jobs and the old one for the rest |
| StatusHistory.NewestForget | app/db.py:72-75 | after a clear the user's jobs have no entry and other users' first entries are unchanged |
| StatusHistory.NewerAppend | app/db.py:728-744 | whatever the clock: a change puts a new entry first for the changed jobs unless the one that was first carries a later time |
| Effects.StatusAgreesWithHistory | app/db.py:586-620 | after any sequence of changes, clears and runs stamped in order, every stored status is the first history entry's, or null without one |
| Effects.ChangeAgrees | app/db.py:586-620 | from any state: after a change of a stored job, alone or in bulk, row and history agree iff it is stamped no earlier than the first entry or sets its status |
| Effects.AgreesIffLastInLine | app/db.py:586-620 | after any transactions with any stamps, row and history of a job agree iff the last change of that job since the user's last clear met that condition |
| Effects.AgreesIffClockOrdered | app/db.py:586-597 | two different statuses set in turn agree with the history iff the second is not stamped earlier |
| Effects.ClockBackAndForth | app/db.py:586-597 | changes of one job stamped 10, 5 and 20 agree in the end, though not after the second |
| Effects.RowWritten | app/db.py:30-75 | column by column, what every transaction makes of a stored row |
| Effects.RowCreated | app/db.py:30-52 | only a save creates rows, those of its postings, active, unmailed and unflagged |
| Scheduler.Scrape | app/orchestrator.py:42-65 | raw and filtered postings, succeeded and failed sources of the enabled sources, for any answers |
| Scheduler.RunOnce | app/orchestrator.py:33-94 | an undisturbed run fails, writing nothing, iff storing is refused; otherwise, said over the sources and their answers themselves: which rows there are, what became of each stored row (found again; or not found, and then removed iff its source answered or is no longer listed, so a failed or disabled source keeps its rows as they were), what each new row is, which rows the URL check removed and how many, and the postings found, the new ones and the failed sources |
| Scheduler.RunStores | app/orchestrator.py:42-75 | the same of the tables after storing, for every list of sources and every answers |
| Scheduler.RunStorage | app/orchestrator.py:42-75 | of a run's own answers: the user's keys grow by exactly the filtered ones, and every stored posting that was scraped is active under its last URL |
| Scheduler.WithRescued | app/scheduler.py:42-51 | the rescued postings are added once, none of the run's own is lost |
| Scheduler.JobsToSend | app/scheduler.py:42-65 | the digest's keys are those of the step system, without repetition, for the duplicates that the listing returned |
| Scheduler.RunUser | app/scheduler.py:28-113 | a day off iff the day is not selected and the run not forced, failed iff storing is refused, and otherwise no digest, not configured, failed to send or sent as the keys, failed sources, check-in, recipients and SMTP decide; the keys are those a source kept, all of them with re-sending on and otherwise those not stored before, and those stored active and unmailed, without listed duplicates and excluded statuses; what each outcome writes; a digest that went out, or had nothing to say, leaves no active unmailed posting but flagged duplicates and excluded statuses |
| Scheduler.ComposerIsLeft | app/scheduler.py:39-65 | the thread that this digest is composed by is the one which the locked steps of the step system leave behind, for any settings and answers |
| SettingsInUse.RunsOnChosenDays | app/scheduler.py:28-37 | with settings from the form or an import, a run goes ahead on exactly the chosen days or when forced; without settings or without days ever set, always |
| SettingsInUse.ExcludesChosenStatuses | app/scheduler.py:60-65 | the excluded statuses are exactly the chosen ones of the known |
| SettingsInUse.MailsStoredAddresses | app/scheduler.py:94-97 | a digest goes to the stored addresses, in order, iff none has a comma |
| SettingsInUse.CommaAddressMisdirects | app/scheduler.py:94 | a valid address with a comma whose digest goes to two other addresses |
| Pipeline.TablesAreReplay | app/orchestrator.py:37-88 | in every history the tables are the replay of the committed transactions |
| Pipeline.MutualExclusion | app/orchestrator.py:21-37 | in every history at most one thread is between taking and releasing the run lock, and it is the recorded holder |
| Pipeline.MoveEffect | app/scheduler.py:28-149 | every transaction of a thread comes from the step that the code commits it in and is for its own user, except that an all-users URL check removes rows of any user |
| Pipeline.AtAnyTime | app/scheduler.py:100-149 | whatever the threads are doing, any of them may crash, losing itself and its lock and nothing else, and any edit or change of sources may commit |
| Pipeline.CheckReads | app/checker.py:38-48 | a URL check reads the active rows of its own user, or of everybody when it is the check for all |
| NewJobsOnce.NewAtMostOnce | app/orchestrator.py:64-68 | in every history the runs that report a posting as new are at most one more than the user's clears |
| NewJobsOnce.ListingsSeparatedByClear | app/db.py:19-75 | two such runs have a clear strictly between them |
| MailOnce.MailedMarkIsEarned | app/scheduler.py:45-111 | with crashes anywhere and the user's own runs not overlapping, a marked row was in a digest sent since its creation or last reactivation |
| MailOnce.MailedOncePerRenewal | app/scheduler.py:41-111 | when the user's own runs do not overlap, two digests with a posting that was stored at the first have a clear or a reactivation of it strictly between them |
| MailOnce.MailedAtMostOnce | app/scheduler.py:41-111 | under the same assumptions the digests with a posting that was stored are at most one more than its renewals |
| ClearWhileComposing.ClearBeforeSendMailsTwice | app/scheduler.py:39-111 | without the row stored at the first digest the claim fails: a concrete history |
| Delivery.AbsentIsMailedAgain | app/scheduler.py:39-111 | from any state in which a posting is not stored, the next undisturbed run that finds it and can store what it found sends a digest with it while its row is stored, whatever its URL check removes, and renews it itself iff its source is not configured |
| Delivery.DigestScript | app/scheduler.py:45-111 | undisturbed, from any state, a composing run has exactly `DigestKeys` in its digest, marks exactly those, and leaves nothing owed |
| NothingLost.DigestLeavesNothingOwed | app/scheduler.py:45-111 | in every history in which the user's runs do not overlap: when a run marks its digest, or finds nothing to send, a posting of the user that is active and unmailed is a flagged duplicate or has an excluded status, unless the user freed that posting after the run read the unmailed rows |
| NothingLost.MarkLeaves | app/scheduler.py:107-111 | a mark leaves owed exactly what was owed and was not in the digest |
| NothingLost.QuietDigestLeavesNothing | app/scheduler.py:45-111 | when the user freed nothing meanwhile, no posting at all is left owed |
| NothingLost.FreedTooLate | app/scheduler.py:45-111 | a posting unflagged between the digest and its mark stays unmailed |
| Histories.FreedTooLate | app/scheduler.py:39-111 | a history from the empty database, runs not overlapping, in which that happens |
| NothingLost.OverlapTooLate | app/scheduler.py:39-111 | what an overlapping run of the same user stores before the mark stays unmailed |
| Histories.OverlapTooLate | app/scheduler.py:39-111 | a history from the empty database in which that happens |
| NothingLost.NewPostingReachesDigest | app/scheduler.py:39-65 | in every history, overlapping runs included, what a run stored as new is in the digest it is about to send, even after a URL check or a clear removed it, unless the user flagged it or gave it an excluded status |
| Delivery.ListingMeans | app/scheduler.py:53-55 | the duplicate listing holds flagged keys only, removed or not, and all of them or 10,000 |
| Delivery.DuplicatesStayOut | app/scheduler.py:53-65 | the digest holds no flagged duplicate, whichever the listing returns, iff there are no more than 10,000 or none is a candidate for it |
| Delivery.StorageIsStore | app/orchestrator.py:64-88 | the locked steps of an undisturbed run compute the storage phase of the tables and its URL check |
| NoSourcePass.RetiresOnlyOldRows | app/scheduler.py:140-147 | however stale the snapshot and whatever is interleaved: when a pass is about to commit, it had taken the lock at a time when every row now stored was there, and found no source for its user at a later re-check |
| NoSourcePass.PlansOnlySourcedRows | app/scheduler.py:144-147 | a pass plans to retire exactly its user's active rows that have a source |
| NoSourcePass.RetiresOnlyPlannedRows | app/db.py:550-570 | its commit retires those still stored, and touches nothing else |
| NoSourcePass.SourceSinceRecheck | app/scheduler.py:144-147 | after a re-check that found no source, whatever is interleaved, the user has a source iff one was added since and is still there |
| NoSourcePass.RetiresDespiteSource | app/scheduler.py:140-147 | in every history, a pass about to commit has a user with a source iff that user added one after the re-check and kept it |
| NoSourcePass.SourceAddedTooLate | app/scheduler.py:144-147 | any source added after the plan does not save the rows |
| Histories.SourceAddedTooLate | app/scheduler.py:140-147 | a history from the empty database in which that happens |
| Tenants.NonInterference | app/orchestrator.py:33-94 | erasing all other users' actions from any history leaves a possible history with the same rows, status history, sources and threads of this user |
| Tenants.OwnWrite | app/db.py:496-620 | a transaction for a user sees and writes only that user's rows |
| Tenants.OthersWrite | app/db.py:496-620 | a transaction for somebody else leaves the user's rows alone |
| Sql.ParsePart | app/db.py:296-343 | each generated clause reads back as the test it stands for, with placeholders numbered in order |
| Sql.AdmitsJoined | app/db.py:343-345 | clauses joined by AND read back as the conjunction of their tests, with exactly the parameters they brought, in order |
| JobFilters.JobFiltersSql | app/db.py:283-345 | the appends produce the clauses and parameters of the filters that are given |
| JobFilters.FiltersMean | app/db.py:283-345 | for every filter combination and row the text reads, has as many placeholders as parameters, and admits the row iff the plain filters describe it |
| JobFilters.StatusMeaning | app/db.py:309-320 | the status filter, "none" mixed with real statuses included, under three-valued logic |
| JobFilters.MappableSql | app/db.py:469-480 | the extended text and parameters |
| JobFilters.MappableMeans | app/db.py:469-480 | the extended text still reads, parameters in order, and admits exactly the placed rows not of the excluded status |
| JobQueries.JoinKeepsRows | app/db.py:359-377 | a left join on a unique key neither drops nor repeats a row that meets a condition on the left side |
| JobQueries.CountIsListLength | app/db.py:396-416 | in one snapshot the count equals the length of the unlimited list, though they join different tables |
| JobQueries.EachJobOnce | app/db.py:359-377 | no stored job is listed twice |
| JobQueries.JobListedIff | app/db.py:348-393 | over the tables themselves: a stored job is listed, and counted, iff the filters describe it together with the geocoded row of its own location, or with none if there is none |
| JobQueries.ListedRow | app/db.py:369-375 | every listed row is a stored job with the geocoded rows of its own location and of its override and with its own user's account |
| JobQueries.CountIs | app/db.py:396-416 | the count is the number of stored jobs that the filters describe so |
| JobQueries.OneUserOwnKeys | app/db.py:348-393 | one user's list shows no key twice |
| JobPages.OneListingIffNoTies | app/db.py:371-377 | a list of any length has one possible order iff no two of its rows have the same key and sort value |
| JobPages.OrderMeans | app/db.py:271-280 | what each sort column compares, in which direction, and that the key decides between equals |
| JobPages.OneListingPerUser | app/db.py:371-377 | for one user the order is total at any instant: every answer is the same list |
| JobPages.TwoUsersMaySwap | app/db.py:371-377 | across users two orders are possible |
| JobPages.PagesTile | app/web/pagination.py:13-30 | pages 1 to the last of one user's list, each a fresh query at its own instant, show every row exactly once iff from each page to the next no shown row falls behind one still to come |
| JobPages.UserPagesTile | app/web/routes_jobs.py:151-153 | the same for the count and list queries of one user over unchanged tables, for any filters |
| JobPages.OnlyMixedPairsCross | app/db.py:271-280 | a row falls behind another only in the order by age, and only if one of the two is active and the other removed |
| JobPages.SteadyPages | app/db.py:371-377 | by any other column, or with active rows only or removed rows only, the pages one after the other are the list, in order |
| JobPages.AgeShowsTwice | app/db.py:275-279 | by age, any active row that passes a removed one between two requests is on both pages and the removed one on none |
| Invites.InviteAdmitsOne | app/web/routes_auth.py:288-309 | in every interleaving of any number of requests, claim holders plus accounts of an invite never exceed one, and an unused invite has neither |
| Invites.AccountsMatchInvites | app/web/routes_auth.py:270-309 | every account admitted by an invite has the invited address; names and addresses stay unique |
| Invites.BeginsIff | app/web/routes_auth.py:268-275 | a request gets past the first check iff its invite is known, unused and not expired then, and goes on with the invited address |
| Invites.SpentForGood | app/db.py:878-897 | an invite that admitted an account stays used and admits nobody else |
| Invites.RevocationHoldsIff | app/web/routes_auth.py:270-309 | after a revocation, over all continuations in which no request begins before the expiry, somebody may be admitted iff a request past the check has name and address free and holds the claim, or the invite is unclaimed or its claim may be given back |
| Invites.RevokedAfterTheCheck | app/db.py:926-940 | a history from the empty database in which a revoked invite admits an account |
| RateLimit.Limiter.Check | app/web/ratelimit.py:46-61 | for any readings: allowed only if the full log holds fewer than the maximum in the window that ends at the latest reading, and exactly then as long as the key accepted no late call; the key's past is kept exactly |
| RateLimit.PastMeans | app/web/ratelimit.py:46-61 | what is recorded of a run: the latest of all readings, and whether a call behind an earlier one was accepted |
| RateLimit.AcceptedSnoc | app/web/ratelimit.py:59-61 | the log is the accepted calls one by one |
| RateLimit.DecidedByLatest | app/web/ratelimit.py:52-61 | the same after any run of calls with any readings |
| RateLimit.StuckCallsCount | app/web/ratelimit.py:55-59 | in every case a call is allowed iff the latest window's calls and the older ones stuck in the queue are fewer than the maximum, and none is stuck as long as no late call was accepted |
| RateLimit.LatestWindowBounded | app/web/ratelimit.py:46-61 | after any calls with any readings the window that ends at the latest one holds at most the maximum of accepted calls |
| RateLimit.EveryWindowBounded | app/web/ratelimit.py:46-61 | with readings in lock order every interval of window length holds at most the maximum of accepted calls |
| RateLimit.LateCallStays | app/web/ratelimit.py:52-59 | after an accepted late call a punctual one is turned away although its window has room: a concrete run |
| RateLimit.DecidedAsTheLogWould | app/web/ratelimit.py:52-59 | after any calls, a call with any reading is decided as the full log and its own window would decide it iff that window and the latest one with the stuck calls are on the same side of the limit |
| RateLimit.OutOfOrderClock | app/web/ratelimit.py:52-58 | a run of four calls in which they are not, and a window holds more than the maximum |
| SourceImport.SourceStore.ImportSources | app/db.py:1090-1114 | undisturbed and with new ids drawn, every entry of the file is stored and counted: one whose id is somebody else's as the user's own source under its new id, any other under its id, the last of an id staying, and all other rows as they were; under any interference the user's sources become the old ones overridden by the upserts that took effect, and the count is their number |
| SourceImport.DroppedIff | app/db.py:1097-1112 | under interference an entry is dropped iff the id it goes to is somebody else's at the upsert; otherwise it is stored there, and nothing else changes but by the others |
| SourceImport.OtherUsersKeepTheirs | app/db.py:1096-1112 | for any file, fresh ids and interference, a row its owner leaves alone is unchanged |
| SourceImport.OtherUsersWroteTheirs | app/db.py:1096-1112 | every other row afterwards was there before or was written by its owner |
| SourceImport.DiffImport | app/config.py:122-137 | the loop's three lists |
| SourceImport.DiffClassifies | app/config.py:127-137 | each source of the file is listed as added, updated with its old version, or unchanged, by its id |
| SourceImport.ImportMatchesPreview | app/config.py:122-137 | for distinct ids, none somebody else's, and nobody interfering: the map is overridden by the file, all upserts count, and the lists are exactly what appears, changes and stays, each source of the file in one of them |
| SourceImport.PreviewExact | app/config.py:122-137 | with nobody interfering, everything the preview lists is stored as listed iff no id is somebody else's and no two entries share an id and differ |
| SourceImport.PreviewCountsTwice | app/config.py:129-132 | two versions of one id are announced as two additions and stored as one |
| Preferences.SettingsStore.SavePreferences | app/web/routes_settings.py:159-222 | a form is turned away whole iff it has more than five addresses or one that is not valid; otherwise the user's settings become a normal form with the chosen days, addresses and statuses, each flag as it was ticked and the cap, 0 for one that is negative or no number; nobody else's settings change |
| Preferences.SettingsStore.ImportPreferences | app/web/routes_settings.py:421-433 | whatever a preferences object holds, the user's settings become a normal form with its flags and its cap, 0 for a cap that is negative or no integer; a file without one, or with something else in its place, changes nothing; nobody else's settings change |
| Preferences.StringsSnoc | app/web/routes_settings.py:267-269 | of a JSON list the strings are kept, in order, and of anything else nothing |
| Preferences.AddressesSnoc | app/web/routes_settings.py:276-281 | kept are the stripped values that are addresses, in order |
| Preferences.ValidEmailMeans | app/web/routes_settings.py:55-59 | an address is valid iff it is a name, an "@", a domain, a dot and an ending, none empty and none with white space or another "@" |
| Preferences.NoSettingsIsEmptyFile | app/web/routes_settings.py:236-247 | the export of a user without settings means what an empty preferences object does |
| Preferences.ExportFails | app/web/routes_settings.py:242-252 | exporting fails iff the stored recipients are null |
| Preferences.PreferenceDiff | app/web/routes_settings.py:332-355 | the loop's changes, in label order |
| Preferences.FieldsAre | app/web/routes_settings.py:338-348 | each label stands for its own column |
| Preferences.ChangesListed | app/web/routes_settings.py:349-354 | a change is listed iff the key's old and new values differ, with both |
| Preferences.NoChangeIffEqual | app/web/routes_settings.py:332-355 | the preview is empty iff importing changes nothing |
| Preferences.CodesRoundTrip | app/web/routes_settings.py:262-298 | stored day and status lists survive export and import |
| Preferences.RecipientsRoundTrip | app/web/routes_settings.py:251-280 | up to five valid recipients survive iff none has a comma |
| Preferences.FormRoundTrip | app/web/routes_settings.py:163-307 | for saved settings, parsing the export returns the stored values and the preview is empty, iff no address has a comma |
| Preferences.ParseExportParse | app/web/routes_settings.py:242-307 | for any preferences object, parse after export after parse is parse, iff no kept address has a comma |
| Preferences.CommaAddress | app/web/routes_settings.py:55-59 | a valid address with a comma that is read back as another |
| Scrapers.WorkdayFetch | app/adapters/workday.py:47-76 | precisely the well-formed postings among the first 20 * max(1, max_pages), once and in order, one request a page, none but the first at or past the total |
| Scrapers.FindlyFetch | app/adapters/findly.py:22-55 | precisely the well-formed records among the first 500 * max_pages, in exactly min(max_pages, n / 500 + 1) requests |
| Scrapers.PostingFields | app/adapters/workday.py:22-42 | which postings become a job, and every field of it |
| Scrapers.RecordFields | app/adapters/findly.py:13-50 | which records become a job, and every field of it |
| Digests.GroupByCompany | app/digest.py:101-103 | the groups are a stable partition of the postings in order of first appearance |
| Digests.BuildDigest | app/digest.py:82-127 | no digest iff nothing to say and no check-in asked for; otherwise the parts, in order |
| Digests.UnseenPlusSeen | app/digest.py:110-116 | unseen and seen postings make up what is shown |
| Digests.SectionItems | app/digest.py:104-127 | a company's section lists exactly what the cap leaves and announces the rest |
| Digests.ReportConserves | app/digest.py:101-127 | postings listed plus postings announced equal postings given, none is invented, and all are listed iff no company exceeds the cap |
| Digests.ReportWellPlaced | app/digest.py:101-116 | read from the top, every posting stands under its own company, and under "Newly identified" iff it was not mailed before, when that is known |
| Digests.ReportFrames | app/digest.py:97-145 | every report names all failed sources, in order, says when it searched and links to the list iff it was told to, and announces only what is cut off, with a link iff there is one |
| ReleaseNotes.Render | app/web/whats_new.py:56-104 | the loop writes the tags of the block grammar over the non-blank lines, and these tags read back as exactly those lines, markers and all |
| ReleaseNotes.MarkerAndContent | app/web/whats_new.py:22-23 | a heading or bullet is a line with that marker and something after it, and exactly the rest is its content |
| ReleaseNotes.ReadsBack | app/web/whats_new.py:73-104 | the HTML of any non-blank lines reads back as these lines: nothing is lost, moved or given another kind |
| ReleaseNotes.BlocksConserve | app/web/whats_new.py:73-101 | the blocks hold every line's content in order and nothing else; no list is empty; only a heading follows a list |
| ReleaseNotes.NotesNest | app/web/whats_new.py:73-104 | the HTML is headings, paragraphs and closed, unnested lists of one item or more |

## Left out

- HTTP requests, SMTP, Playwright and HTML parsing: adapters, `http_head`, the geocoder and `send_email` are answers chosen freely.
- FastAPI routes, templates, flash messages and middleware: user interface and plumbing.
- Password hashing, sessions, reset tokens, breach lookup and the address guard of outgoing requests: they rest on libraries that are not part of this model.
- `ILIKE` and the haversine distance: uninterpreted, null in and null out.
- Cron parsing, time zones, APScheduler and `catch_up_missed_run`: library behaviour; today's day code is a parameter.
- Run numbers, run rows, run progress, geocoding results and the startup `claim_unowned_rows`: no claim here depends on them.
- `run_and_notify`'s loop over users: its threads start freely in the step system instead, which allows every order.
- Interleavings inside one transaction: commits are atomic, reads between commits are steps of their own.
- Text collation and case: keyword filters fold ASCII letters only, timestamps compare as numbers, and ordering by text uses an arbitrary total order.
- Inline Markdown, HTML escaping and the `## [version]` section search: text functions without kept state.
- JSON text and `int` parsing of form fields: files are JSON values, a form number is an optional integer.
- A JSON boolean as the cap per company: modelled as the integer that Python compares it to; what the integer column does with it is not modelled.
- Sources' type-specific fields: one opaque payload, since import and preview compare whole sources.
- `sources.json` file functions and migrations: file handling and schema, beyond the primary keys used here.
- Tenants.NonInterference: without the all-users URL check, which reads and writes every user's rows by design.
- RateLimit.Limiter.Check: times are real numbers, so the rounding of floating-point subtraction is not modelled; limits of a key do not change between its calls.
- Jobs.ApplyKeywordFilters: folds the case of ASCII letters only, where Python folds all of Unicode, because case folding is not otherwise needed here.
- Digests.BuildDigest: leaves out the wording of subject and items, source labels and statuses inside an item, because they are text around the counted postings.
- NothingLost.DigestLeavesNothingOwed: asks that the user's runs do not overlap and that the user does not free the posting meanwhile, because the claim is false without either (`Histories`).
- JobPages.UserPagesTile: no job changes between the page requests, because a changed row may move in any order; the age is exact, without the rounding of its division by 86,400.
- MailOnce.MailedOncePerRenewal: asks that the row is stored when the first digest goes out, because the claim is false without it.
