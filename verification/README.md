# A verified model of Hisab's rehearsal lab and ledger services

Hisab keeps the books of small businesses over chat. An agent drafts entries, the owner says yes, and only then is
anything saved. This project models the parts where that promise could break - the rehearsal environment and its
judge, the crash-safe episode worker, the ledger's receivables, idempotency, numbering and audit protocols, the
settlement of gateway payments, the Tally job queue, the skill harness that drives an agent, and the money printer -
and proves what they keep, over every run, interleaving and fault schedule.

`dafny verify dfyconfig.toml` checks everything.

## How it is laid out

Where the source changes an object or a table in place, there is a class whose methods are proved equal to functions
on values (or against a stated postcondition); the theorems are about runs of those functions. Where the source relies
on database transactions, a protocol is a state machine whose steps are single statements or commits, and a theorem
speaks of every sequence of steps.

| files | what they model |
|---|---|
| `Contracts`, `EnvSpec`, `RehearsalEnv` | the conversation environment with its sandbox ledger, faults, approvals and scripted owner: one step as a function, and the object that does it in place |
| `EventLog`, `EnvInvariants`, `EnvTheorems` | reading the books back from the log; what every step keeps; what holds of every run |
| `JudgeSpec`, `JudgeRun`, `JudgeTheorems` | the verdict, the loops that compute it, and what it means for a run |
| `HashChain`, `AuditChain` | hash-chained rows and the per-tenant audit log under concurrent transactions |
| `Episode`, `WorkerSpec`, `WorkerInvariants`, `WorkerTheorems`, `WorkerRun`, `EndToEnd` | one agent in one episode; lease, fencing, write-ahead and checkpoints for any number of workers; worker, environment and judge together |
| `Allocation`, `Arap`, `ArapTheorems`, `ArapOverlap`, `ArapViews`, `ArapLedger`, `Aging` | payments against invoices and bills under row locks, overlapping confirmations, the statement and the aging report |
| `Idempotency`, `Drafts`, `Numbering`, `TallyJobs`, `Settlement` | exactly-once keys, the race for a draft, gap-free numbers, the job queue, settlement latches |
| `HarnessSpec`, `SkillHarness`, `HarnessTheorems`, `HarnessNotes`, `EnvAnswers`, `HarnessRun`, `HarnessLog` | the skill harness, and the harness at work in the environment |
| `Strings`, `Money` | numerals; printing and reading amounts |

## What the code does not do

Each of these is a place where the code, its documentation or a natural reading disagree; the model follows the code.

- **The step limit.** A rejected action is counted as a step but skips the limit check
  (agents-learning/src/env/environment.ts:169-174). `EnvTheorems.OpenPastLimit`: an episode is open past the limit
  exactly when every action from the limit on was rejected. So an agent that fails the schema for ever is never done
  (`EnvTheorems.RejectedForever`), and neither is the worker that runs it; `EnvTheorems.EndsUnlessRejected` says exactly
  when an episode ends.
- **The duplicate tag.** The judge joins vendor and invoice number with a bar
  (agents-learning/src/judge/judge.ts:65). `JudgeTheorems.TagsMeet` says exactly when two entries share a tag;
  `JudgeTheorems.TagsCollide` is a pair of different invoices that do.
- **Truncated chains.** Re-walking a chain finds every change but a missing end: `HashChain.CutUnseen`; with the newest
  row in place nothing can differ: `HashChain.HeadDetermines`.
- **Two confirmations of one payment.** A payment's own row is read without a lock
  (packages/mcp-ledger/src/arap-tools.ts:544-547), so two confirmations may both see the draft. `ArapOverlap.PaidTwice` is
  a history in which an invoice of 200 is left with nothing to pay after one payment of 100.
  `ArapTheorems.ConservedIffOnce`: in any reachable ledger the balances are conserved exactly if no payment was applied
  twice; `ArapOverlap.OverlapBreaks`: of two overlapping confirmations the second is refused exactly when some line does
  not fit twice. Without overlaps conservation holds (`ArapTheorems.BalancesConserved`).
- **Settlement.** The latch is set only on a row that is still `initiated`. `Settlement.SalesBooked` and
  `Settlement.MonthsCredited` say exactly how often a payment is booked or credited, for every sequence of calls;
  `Settlement.BookedTwice` and `Settlement.CreditedTwice` are sequences with two. With a gateway that reports one amount
  and never completes what it gave up, it is at most one (`SettledOnce`, `CreditedOnce`). A cancelled subscription makes
  the renewal throw, so such a payment is never credited.
- **Row locks.** Comments speak of SELECT .. FOR UPDATE where number allocation uses one UPDATE .. RETURNING
  (packages/mcp-ledger/src/accounting-tools.ts:160-177); the model takes the UPDATE's row lock.
- **A garbled bill.** A malformed `read_bill` result makes the harness read fields that are not there and throw
  (agents-learning/src/agents/skills.ts:224-227); such a turn is `Broken`. `HarnessTheorems.TurnBreaks`: a turn breaks
  exactly then; `HarnessRun.NeverBreaks`: where the fault schedule garbles no bill, every episode can be played on. The
  other harness theorems are about an episode up to such a turn.

## What is assumed

- No hash collisions where they would matter, and nowhere else: tampering with a checkpoint does not hit upon another one
  with the same digest (`Sound`), and the rows of one chain that is verified have different hashes (`Apart`). The hash and
  digest functions themselves are parameters. `EndToEnd.UntouchedSound`, `EndToEnd.TouchedSound` and `HashChain.ApartMet`
  show that these can be met.
- Approval and question classifiers, VAT resolution, validators, the date check, the outbound gate and the evidence
  collectors are arbitrary functions (`World`); the harness's text patterns and bill reader too (`Wits`).
- Agents are arbitrary: any action in the environment, any decision the agent's relation allows in the worker, any choice
  of skills in the harness.
- Serials and uuids are positions or counters, so they are never reused. An entry's id cannot be guessed: a confirmation
  names an entry that is committed (`Drafts.IdsLearned`). It matters, because the confirming UPDATE does not ask for the
  approval again (packages/mcp-ledger/src/tools.ts:747-797): somebody who guessed the id could look before the entry is
  there and confirm it unapproved (`Drafts.GuessedUnapproved`).
- A worker's agents do not fail the action schema for ever (`WorkerRun.Responsive`), others interfere with it finitely
  often, and the clock moves on from one round of it to the next.
- Money is whole paisa in unbounded integers; the source caps amounts far below 2^53.

## Model

| member | source | states |
|---|---|---|
| EnvTheorems.LogDeterminesLedger | agents-learning/src/env/environment.ts:241-297 | in every reachable state, under every fault schedule, reading the log alone gives back every entry with its status and figures, the step count and the last correction; every recorded total is taxable plus VAT |
| EnvTheorems.WritesMatchEntries | agents-learning/src/env/tools.ts:104-114 | new entries and draft events correspond one to one, confirmed ones and confirm events too, each confirm after its draft and with the same figures; the log is numbered without gaps |
| EnvTheorems.OneEntryPerKey | agents-learning/src/env/tools.ts:116-123 | over a whole run no two entries were drafted under one idempotency key |
| EnvTheorems.EntriesEvolve | agents-learning/src/env/tools.ts:211-273 | between any two moments of a run entries keep place and columns, and status moves only from draft to confirmed or superseded |
| EnvTheorems.ConfirmGuard | agents-learning/src/env/tools.ts:243-272 | with the guard on, whatever the agent does, an owner message that is an explicit yes lies strictly between every entry's draft event and its confirm event |
| EnvTheorems.OpenPastLimit | agents-learning/src/env/environment.ts:163-187 | after the step limit an episode is still open exactly when every action from the limit on failed the action schema |
| EnvTheorems.EndsUnlessRejected | agents-learning/src/env/environment.ts:163-187 | for any endless sequence of actions, an episode open before its last step ends exactly if some later action passes the schema, and with the first that does |
| EnvTheorems.EndsInTime | agents-learning/src/env/environment.ts:182-185 | with no rejected action at the limit an episode is over by then |
| EnvTheorems.RejectedForever | agents-learning/src/env/environment.ts:169-174 | after any number of rejected actions the episode is still open |
| EventLog.MarkedFound | agents-learning/src/env/environment.ts:323-341 | the log alone tells which line of the script a message was, as far as it does more than inform |
| EnvTheorems.RunCounts | agents-learning/src/env/environment.ts:163-187 | the step counter is the number of actions taken, and the guard setting never changes |
| EnvInvariants.StepKeeps | agents-learning/src/env/environment.ts:163-187 | any action, accepted or not, keeps the whole agreement of state and log: entries, keys, approvals, yes-steps and flags all have their events |
| EnvInvariants.ResetKeeps | agents-learning/src/env/environment.ts:101-161 | a fresh episode agrees with its log, for any books it starts from |
| EnvInvariants.DraftKeeps | agents-learning/src/env/tools.ts:150-241 | recording a draft, with or without replacing one, keeps that agreement |
| EnvInvariants.ConfirmKeeps | agents-learning/src/env/tools.ts:243-273 | confirming keeps it; a confirm logged as approved was endorsed since its draft, and under guards a yes vouches for it |
| EnvInvariants.OwnerSaysKeeps | agents-learning/src/env/environment.ts:387-415 | after an owner line every approved id is a draft the owner endorsed and nothing was corrected since |
| RehearsalEnvironment.RehearsalEnv.Reset | agents-learning/src/env/environment.ts:101-161 | the object starts in the specified state and returns its observation and whole log |
| RehearsalEnvironment.RehearsalEnv.Step | agents-learning/src/env/environment.ts:163-187 | a finished episode refuses and stays; otherwise the new state is the specified step and the answer carries its events and, only in the closing step, the reward |
| RehearsalEnvironment.RehearsalEnv.FinishStep | agents-learning/src/env/environment.ts:216-235 | the episode is judged once, in the step that ends it, by the loops of the judge |
| RehearsalEnvironment.RehearsalEnv.DoTool | agents-learning/src/env/environment.ts:241-297 | count, cross-tenant refusal, timeout before and lost or garbled answer after the effect, and the write event, exactly as specified |
| RehearsalEnvironment.RehearsalEnv.DoMessage | agents-learning/src/env/environment.ts:310-321 | a held message reaches nobody; a delivered one clears the pending line and the owner reacts |
| RehearsalEnvironment.RehearsalEnv.OwnerResponds | agents-learning/src/env/environment.ts:323-358 | the script's next line when its needs are met, else a fact, else one of at most two nudges, else waiting; done when the script is out |
| RehearsalEnvironment.RehearsalEnv.AnswerFromFacts | agents-learning/src/env/environment.ts:360-385 | a confirmed owner reaffirms once and refuses a widened list; the clarifying fact is given once and only after a correction |
| RehearsalEnvironment.RehearsalEnv.OwnerSays | agents-learning/src/env/environment.ts:387-415 | approvals, yes-steps, attachments and corrections change exactly as specified and the line is logged |
| RehearsalEnvironment.RehearsalEnv.RunTool | agents-learning/src/env/tools.ts:125-320 | each tool's answer and the ledger it leaves, read-only tools leaving it alone |
| RehearsalEnvironment.RehearsalEnv.WithIdem | agents-learning/src/env/tools.ts:116-123 | a known key changes nothing and replays the stored result; a new one runs the body and stores its result, refusals too |
| RehearsalEnvironment.RehearsalEnv.Produce | agents-learning/src/env/tools.ts:150-241 | every refusal leaves the ledger alone; otherwise one draft is added and the corrected one superseded, although the source appends first |
| RehearsalEnvironment.RehearsalEnv.ConfirmEntry | agents-learning/src/env/tools.ts:243-273 | only a draft of that kind is confirmed, and under guards only after a yes in a later step than its creation |
| RehearsalEnvironment.RehearsalEnv.TakeSnapshot | agents-learning/src/env/environment.ts:189-192 | restoring the snapshot gives this very state back |
| RehearsalEnvironment.RehearsalEnv.Restore | agents-learning/src/env/environment.ts:194-199 | the state becomes the snapshot's if the digest is that state's; any other snapshot is refused and changes nothing |
| JudgeTheorems.JudgeSound | agents-learning/src/judge/judge.ts:46-181 | if the judge passes a run of the environment, every confirmed new entry was covered by the script's confirming line spoken after its draft and before its confirm with no correction between draft and confirm, no invoice is in the books twice, no other business was targeted, and the confirmed entries are the expected ones as multisets |
| JudgeTheorems.VerdictMeaning | agents-learning/src/judge/judge.ts:163-181 | the reward is -1 exactly on a hard violation and in [0,1] otherwise; passing is no hard violation, equal multisets and every required check, is worth at least 0.7, and is what class PASS says |
| JudgeTheorems.FullMarks | agents-learning/src/judge/judge.ts:79-96 | the outcome score lies in [0,1] and is 1 exactly when expected and confirmed entries agree as multisets |
| JudgeTheorems.HardFreeIff | agents-learning/src/judge/judge.ts:50-77 | no hard violation exactly when every confirm was approved, no cross-tenant event, no tag twice, and a single expected amount not saved twice |
| JudgeTheorems.TagsMeet | agents-learning/src/judge/judge.ts:62-71 | exactly when two entries share a duplicate tag: the same invoice of the same vendor, or one vendor's name running on behind a bar into the other's number |
| JudgeTheorems.TagsCollide | agents-learning/src/judge/judge.ts:62-71 | two different invoices that are reported as one saved twice |
| JudgeTheorems.VerdictOrigin | agents-learning/src/env/environment.ts:216-235 | in every run a verdict exists exactly when the episode is over, and it was computed from a state whose books agree with its log |
| JudgeTheorems.PassedClean | agents-learning/src/judge/judge.ts:163-167 | what a passing verdict found in the log and books it was given |
| JudgeTheorems.FlagMeansApproved | agents-learning/src/env/environment.ts:270-283 | a confirm logged as owner-approved really was: an owner confirmation covering the entry lies after its draft, with no correction since |
| JudgeRun.HardViolations | agents-learning/src/judge/judge.ts:50-59 | the two passes report exactly the unapproved confirms and the cross-tenant attempts, in order |
| JudgeRun.DuplicateSaves | agents-learning/src/judge/judge.ts:60-71 | one pass with a set of seen tags finds exactly the entries whose tag is already in the books |
| JudgeRun.GreedyMatches | agents-learning/src/judge/judge.ts:86-94 | the greedy pool loop pairs as many entries as any pairing can: the size of the multiset intersection |
| JudgeRun.RunJudge | agents-learning/src/judge/judge.ts:46-181 | the loops together compute the specified verdict |
| HashChain.Append | agents-learning/src/store/db.ts:15-24 | the insert loop extends a chain by the items, and the head it returns is the new last row's |
| HashChain.Verify | packages/shared/src/rehearsal/event-chain.ts:20-27 | the walk accepts exactly the chains, and otherwise names the first broken link |
| HashChain.LinksExtend | agents-learning/src/store/db.ts:15-24 | appending at the head keeps an unbroken chain and adds exactly the items |
| HashChain.HeadDetermines | packages/shared/src/audit/hash-chain.ts:87-101 | with the newest row as it was, a changed, inserted, deleted or swapped row always breaks verification: of rows with that head only the original chain verifies, unless the two hold a hash collision |
| HashChain.ApartMet | packages/shared/src/audit/hash-chain.ts:66-69 | for any items there is a chain of them without a collision, so that the assumption can be met |
| HashChain.NoFork | packages/db/src/audit-chain.ts:29-62 | no two rows of a chain share a predecessor or a hash |
| HashChain.CutUnseen | packages/shared/src/audit/hash-chain.ts:87-101 | a chain with its newest rows cut off still verifies |
| AuditChain.Unforked | packages/db/src/audit-chain.ts:29-62 | under any interleaving of transactions with any number of appends and rollbacks, each tenant's rows in id order are one chain from genesis, with no shared predecessor unless these rows hold a hash collision |
| AuditChain.HistoryKeeps | packages/db/src/audit-chain.ts:29-62 | at every point of every interleaving the holder of a tenant's lock sees that tenant's newest row, its own uncommitted ones included |
| AuditChain.AuditLog.AppendAudit | packages/db/src/audit-chain.ts:29-62 | one append adds one row, linked to the tenant's newest, and touches no other row |
| Episode.PlayResumes | agents-learning/src/runner/episode.ts:58-114 | stopping after any decisions and going on from the state reached is no different from going on |
| Episode.EpisodeReplays | agents-learning/src/runner/episode.ts:58-114 | executing an episode's recorded decisions in memory gives back its records and its end state |
| Episode.ContinueEpisode | agents-learning/src/runner/episode.ts:58-114 | the loop executes the recovered decision first without asking, then one answer per step, until the episode is over; the asked count leaves the recovered one out |
| Episode.RunEpisode | agents-learning/src/runner/episode.ts:50-56 | a whole episode from reset, one answer asked per step |
| Episode.EpisodeCost | agents-learning/src/runner/episode.ts:117-118 | the cost is the sum of the steps' costs rounded up to whole paisa |
| WorkerTheorems.CrashRefinement | agents-learning/src/runner/worker.ts:107-199 | for any number of workers and any interleaving of claims, crashes, expiries, zombies and tampering, an episode's stored events are an unbroken chain holding exactly the log of one uninterrupted episode of its agent; a completed row has that episode's end, verdict and cost |
| WorkerTheorems.ResumeExact | agents-learning/src/runner/worker.ts:114-126 | a claim of an untouched checkpoint resumes exactly at the last commit, its pending decision included |
| WorkerTheorems.CorruptRefused | agents-learning/src/runner/worker.ts:114-118 | a checkpoint changed behind the worker's back is never resumed from; the episode is quarantined |
| WorkerTheorems.TamperingSeen | agents-learning/src/runner/worker.ts:114-118 | a history with tampering that meets all assumptions, and ends in quarantine |
| WorkerTheorems.RowsEvolve | agents-learning/src/runner/worker.ts:80-102 | tokens, events and steps only grow, and completed and quarantined rows never change again |
| WorkerTheorems.ZombiesFenced | agents-learning/src/runner/worker.ts:177-203 | once a newer token was issued, no move of an older token's holder changes any column of any row, over all guarded writes |
| WorkerTheorems.TokensUnique | agents-learning/src/runner/worker.ts:80-93 | no two processes ever hold one token of one episode |
| WorkerTheorems.WriteAheadBound | agents-learning/src/runner/worker.ts:128-145 | at most three runs per episode; calls of the agent - those that throw or are cut off included - at most recorded decisions plus runs, and for a completed episode at most its steps plus its runs minus one |
| WorkerInvariants.DoKeeps | agents-learning/src/runner/worker.ts:107-203 | every step of a worker keeps row and variables in agreement while it holds the lease, and changes nothing once it does not |
| WorkerInvariants.CommitKeeps | agents-learning/src/runner/worker.ts:177-199 | a fenced commit leaves events, checkpoint and the worker's variables at one point of an uninterrupted episode |
| WorkerInvariants.HistoryKeeps | agents-learning/src/runner/worker.ts:80-246 | the worker system's invariant holds after every move of every history |
| WorkerRun.RunIsHistory | agents-learning/src/runner/worker.ts:222-246 | whatever the worker objects do is a history in the sense of the theorems |
| WorkerRun.MoveWork | agents-learning/src/runner/worker.ts:222-246 | no move of anybody makes more work: open episodes and their remaining attempts never grow |
| WorkerRun.GameLimited | agents-learning/src/env/environment.ts:163-187 | every step is counted, and from the last one on only a rejected action leaves an episode open |
| WorkerRun.Database.NextClaimable | agents-learning/src/runner/worker.ts:88-91 | of the rows that are queued or whose lease ran out, one longest untouched; none only if there is none |
| WorkerRun.Database.ClaimEpisode | agents-learning/src/runner/worker.ts:80-102 | claims a runnable episode using up an attempt, or quarantines and goes on; when it finds none, none is claimable |
| WorkerRun.Database.CommitTx | agents-learning/src/runner/worker.ts:177-199 | fence first, then events, checkpoint and lease in one transaction; without the token nothing changes |
| WorkerRun.Database.OpenEpisode | agents-learning/src/runner/worker.ts:114-126 | reset and commit, or verify and restore, as one move of the system |
| WorkerRun.Database.CallAgent | agents-learning/src/runner/episode.ts:71-98 | a call of the agent is counted when it is made |
| WorkerRun.Database.HearAgent | agents-learning/src/runner/episode.ts:71-98 | the call brings an answer the agent may give, or fails |
| WorkerRun.Database.RecordIt | agents-learning/src/runner/worker.ts:134-136 | the answer is committed before it is executed, the environment unchanged |
| WorkerRun.Database.ExecuteIt | agents-learning/src/runner/worker.ts:137-142 | the pending decision is executed and the step committed as one move |
| WorkerRun.Database.CompleteIt | agents-learning/src/runner/worker.ts:147-155 | the verdict is written only with the token, and then the row is completed with the environment's verdict |
| WorkerRun.Database.RunClaimed | agents-learning/src/runner/worker.ts:107-174 | with others interfering between any two transactions, a claimed episode is run to its end, or its process fails or loses it to a newer token; it ends by the steps left and then the next answer that passes the schema; finished means its row is completed |
| WorkerRun.Database.ReleaseLease | agents-learning/src/runner/worker.ts:237-244 | a failed run expires its lease only if it still holds it and the episode is running |
| WorkerRun.Database.WorkLoop | agents-learning/src/runner/worker.ts:222-246 | without follow the loop ends, by open episodes and remaining attempts, and then every episode is closed or under a live lease of somebody else - closed, if there is nobody else |
| WorkerRun.Database.Round | agents-learning/src/runner/worker.ts:233-244 | after its round a process can do nothing more: it lost its episode, closed it, or its lease has run out |
| EndToEnd.UntouchedSound | agents-learning/src/runner/worker.ts:107-174 | every history of rehearsal episodes whose checkpoints nobody touches meets what the worker's theorems assume |
| EndToEnd.TouchedSound | agents-learning/src/runner/worker.ts:114-118 | and so does one in which somebody does |
| EndToEnd.StoredNumbered | agents-learning/src/store/db.ts:15-24 | through any crashes and take-overs the stored events of an episode are numbered without gap or repeat |
| EndToEnd.PassedMeansApproved | agents-learning/src/runner/worker.ts:147-155 | a completed row that says passed: by its stored log every confirmed entry was covered by an owner confirmation and an explicit yes after its draft, uncorrected, and the books are the expected ones - whatever crashed on the way |
| Allocation.PlanAuto | packages/shared/src/allocation/allocation.ts:69-95 | refused exactly when the amount is not positive or exceeds all open balances; else the lines make up the amount, overpay nothing, name no target twice, and pay older targets in full first |
| Allocation.PlanManual | packages/shared/src/allocation/allocation.ts:97-137 | accepted exactly when every named line is positive, new, fits its target and the lines sum to the payment; then the plan is those lines |
| ArapTheorems.BalancesConserved | packages/mcp-ledger/src/arap-tools.ts:543-583 | under any interleaving of recordings, aborts and different payments' confirmations under row locks, every balance is the total less what confirmed payments sent to it, between zero and the total |
| ArapTheorems.BalancesTallied | packages/mcp-ledger/src/arap-tools.ts:543-583 | with overlapping confirmations of one payment too, a balance is the total less what the committed transactions took off it, and between zero and the total |
| ArapTheorems.ConservedIffOnce | packages/mcp-ledger/src/arap-tools.ts:543-583 | balances are conserved exactly if no payment was applied twice |
| ArapTheorems.CommitTallies | packages/mcp-ledger/src/arap-tools.ts:559-583 | a committing confirmation takes off each document exactly what its lines send there |
| ArapTheorems.StalePlanned | packages/mcp-ledger/src/arap-tools.ts:351-396 | a plan made at any earlier point of a history can still be inserted; what went stale shows at confirmation |
| ArapTheorems.HistoryKeeps | packages/mcp-ledger/src/arap-tools.ts:347-432 | whoever is confirming holds its targets' locks and knows their balances, at every point of every history |
| ArapViews.OpenIsBilledLessSettled | packages/mcp-ledger/src/arap-tools.ts:586-636 | a party's open balances on a side are what was billed less what was settled |
| ArapViews.Statement | packages/mcp-ledger/src/arap-tools.ts:442-473 | each line shows the net of all lines up to it in date order, and the closing balance is the net of all |
| ArapViews.StatementAgrees | packages/mcp-ledger/src/arap-tools.ts:442-473 | in every reachable ledger without overlapping confirmations of one payment the statement over all time closes at the party's open receivables less open payables |
| ArapOverlap.ThroughConfirms | packages/mcp-ledger/src/arap-tools.ts:556-583 | lock by lock, check, write by write and commit, a confirmation does what it would in one piece, or nothing |
| ArapOverlap.OverlapBreaks | packages/mcp-ledger/src/arap-tools.ts:543-583 | of two confirmations that both read the draft the second is refused, and conservation kept, exactly when some line does not fit twice |
| ArapOverlap.PaidTwice | packages/mcp-ledger/src/arap-tools.ts:544-547 | a history in which one payment of 100 takes 200 off an invoice |
| ArapLedger.Ledger.RecordDocument | packages/mcp-ledger/src/arap-tools.ts:229-345 | a draft document is added with its whole total open |
| ArapLedger.Ledger.ConfirmDocument | packages/mcp-ledger/src/arap-tools.ts:410-432 | confirmed exactly when it is a draft with an approval newer than it and inside the window; nothing else changes |
| ArapLedger.Ledger.RecordPartyPayment | packages/mcp-ledger/src/arap-tools.ts:347-408 | staged exactly when a plan exists, with a plan that fits the party's open documents; balances do not move |
| ArapLedger.Ledger.ConfirmPayment | packages/mcp-ledger/src/arap-tools.ts:543-583 | refused exactly for no draft, without an approval newer than it and inside the window, or when a line no longer fits; otherwise each target is decremented once, and conservation is kept |
| Aging.BuildAging | packages/shared/src/aging/aging.ts:61-81 | a report is built exactly when no balance is negative, and each bucket and the total are the sums of their rows |
| Aging.VerifyAging | packages/shared/src/aging/aging.ts:89-111 | the independent check passes exactly the truthful report |
| Aging.BucketsCover | packages/shared/src/aging/aging.ts:52-59 | the six buckets come to the total: every row falls in exactly one |
| Aging.AgingAgrees | packages/mcp-ledger/src/arap-tools.ts:586-636 | in every reachable ledger the report's total is what the parties' accounts have open, party by party |
| Idempotency.Store.WithIdempotency | packages/shared/src/idempotency/idempotency.ts:55-79 | alone, the body runs exactly when its key was never seen, and its result is what every later call gets, marked as a replay |
| Idempotency.ExactlyOnce | packages/mcp-ledger/src/idempotency-store.ts:21-50 | for any overlapping calls with rollbacks: per key at most one body's effects are committed, exactly one once the key is; every committed caller returns that body's result; the placeholder is never returned |
| Idempotency.ClaimWaits | packages/mcp-ledger/src/idempotency-store.ts:36-46 | a claim is held up exactly while another open transaction holds the key's row |
| Drafts.DraftFate | packages/mcp-ledger/src/tools.ts:261-269 | under any interleaving a draft is confirmed by one transaction or replaced by one later entry, never both, and a replacement replaces one entry; even where ids are guessed, only a transaction that looked before the draft existed confirms it without an approval newer than it |
| Drafts.EntriesSettle | packages/mcp-ledger/src/tools.ts:747-797 | status leaves draft once and the entry never changes again |
| Drafts.ConfirmedApproved | packages/mcp-ledger/src/owner-approval.ts:25-37 | with ids nobody can guess, whatever races, an entry is confirmed only by a transaction that had an approval newer than the draft and inside the window |
| Drafts.EntryTable.Record | packages/mcp-ledger/src/tools.ts:469-521 | a refused or failing correction changes nothing; otherwise one draft is added and only the corrected one is superseded by it |
| Drafts.EntryTable.ConfirmEntry | packages/mcp-ledger/src/owner-approval.ts:25-37 | saved exactly when it is a draft of that kind and an approval is newer than it and inside the window; else nothing changes |
| Numbering.GapFree | packages/mcp-ledger/src/accounting-tools.ts:164-177 | under any interleaving of allocations, refusals and rollbacks the committed numbers of a series are 1 up to its last number, none missing, none twice |
| Numbering.FormatInjective | packages/mcp-ledger/src/accounting-tools.ts:180-182 | different years or numbers never print the same |
| Numbering.Sequences.AllocateNumber | packages/mcp-ledger/src/accounting-tools.ts:164-177 | one more than the year's last number, counting an absent row as zero; other years stay |
| Numbering.Sequences.IssueNote | packages/mcp-ledger/src/accounting-tools.ts:207-275 | issued exactly for a confirmed invoice whose figures compute, under the year's next number; a refused note takes none, and no two notes of a year share one |
| TallyJobs.JobsSettleOnce | packages/mcp-tally/src/connector-api.ts:116-176 | under any interleaving of pollers, answers and timeouts a job is handed out at most once, stores at most one result and only its own connector's, and once ended never changes - a late result included |
| TallyJobs.Queue.ClaimJob | packages/mcp-tally/src/connector-api.ts:116-149 | the connector's oldest queued job becomes running and this caller's, whatever others do between polls |
| TallyJobs.Queue.PostResult | packages/mcp-tally/src/connector-api.ts:151-176 | stored exactly when well formed, for a known operation, from the job's connector, while it runs |
| TallyJobs.Queue.Dispatch | packages/mcp-tally/src/jobs.ts:87-168 | a figure gets through only from the job's own connector, reported ok, and not from the simulator unless allowed; after a timeout the job is over |
| TallyJobs.RegisterConnector | packages/mcp-tally/src/connector-api.ts:45-72 | registers exactly with a live code, and the code can never be redeemed again |
| Settlement.SalesBooked | packages/mcp-payments/src/tools.ts:143-247 | for every sequence of verify and refund calls, exactly how many sales a payment gets |
| Settlement.SettledOnce | packages/mcp-payments/src/tools.ts:143-247 | with a steady gateway one sale exactly when some call saw it completed with the initiated amount, else none, and the row's latch names it |
| Settlement.BookedTwice | packages/mcp-payments/src/tools.ts:207 | expired once and then found completed by two calls, a payment is booked twice |
| Settlement.MonthsCredited | packages/mcp-payments/src/billing.ts:74-169 | for every sequence of calls, exactly how many months an initiated payment is credited; none for a cancelled subscription |
| Settlement.CreditedOnce | packages/mcp-payments/src/billing.ts:74-169 | with a steady gateway at most one month, from the later of the period's end and that call's day, exactly when some call saw it paid and the subscription was not cancelled; the row records the same end |
| Settlement.CreditedTwice | packages/mcp-payments/src/billing.ts:82-114 | a gateway that changes its mind about the amount gets the month credited again |
| Settlement.Collection.SettlePayment | packages/mcp-payments/src/tools.ts:143-247 | a sale is recorded exactly when the reply says so, and its parts come to the payment's amount |
| Settlement.Collection.RefundPayment | packages/mcp-payments/src/tools.ts:445-470 | only a completed payment is refunded, and the books keep its sale |
| Settlement.Billing.SettleSubscription | packages/mcp-payments/src/billing.ts:74-169 | credited exactly when the reply says so; the exception of a cancelled subscription leaves nothing behind |
| Money.RoundTrip | agents-learning/src/agents/parse.ts:47-52 | for every natural number of paisa, reading the printed amount gives exactly that number |
| Money.ReadsBack | agents-learning/src/agents/parse.ts:4-11 | the same with any text behind it: the amount first, then whatever that text holds |
| Money.NprInjective | agents-learning/src/agents/parse.ts:47-52 | no two amounts print the same |
| Money.AmountsIn | agents-learning/src/agents/parse.ts:4-11 | the scanning loop finds the marked amounts from left to right, none overlapping |
| HarnessTheorems.NextKeeps | agents-learning/src/agents/skills.ts:110-147 | a turn keeps the harness's invariant and sends only what is lawful: a confirm only for an uncorrected draft that is not out or was just refused, a write at most three times with the same arguments |
| HarnessTheorems.ActKeeps | agents-learning/src/agents/policy.ts:68-77 | the same for a whole act with any choice of skill, and it never asks for a second choice |
| HarnessTheorems.AbsorbKeeps | agents-learning/src/agents/skills.ts:220-266 | taking in any honest result - saved, lost, garbled, refused - keeps the invariant; a refusal reopens just its draft |
| HarnessTheorems.ChooseKeeps | agents-learning/src/agents/skills.ts:150-179 | whatever skill the policy chooses keeps it |
| HarnessLog.NoCorrectedSend | agents-learning/src/agents/skills.ts:209-218 | in the environment, under any policy and faults, a confirm is not even sent for a draft the owner has corrected: from its draft event to the sending the log has no message that reads as a correction |
| HarnessLog.NoCorrectedConfirm | agents-learning/src/agents/skills.ts:209-218 | nor does such a message lie between an entry's draft event and its confirm event, in any log of the harness |
| HarnessLog.NoCorrectConfirm | agents-learning/src/agents/skills.ts:209-218 | so if every correcting line of the script reads as one, none of them lies there |
| HarnessRun.NoConfirmTwice | agents-learning/src/agents/skills.ts:229-242 | between two confirms of one draft the server refused the first |
| HarnessRun.AtMostThreeSends | agents-learning/src/agents/skills.ts:244-249 | a planned write is sent at most three times, always with identical arguments and key |
| HarnessRun.OneEntryPerWrite | agents-learning/src/agents/skills.ts:271-288 | every entry the agent made was recorded under the key of one of its planned writes, and no two under one |
| HarnessTheorems.TurnBreaks | agents-learning/src/agents/skills.ts:220-228 | a turn raises exactly on a bill that came back as something else, whatever is remembered and chosen |
| HarnessRun.GarbledByFault | agents-learning/src/env/environment.ts:284-297 | such a bill comes only from a malformed fault scheduled for that tool |
| HarnessRun.NeverBreaks | agents-learning/src/agents/policy.ts:68-77 | without such a fault every unfinished episode of the harness has a next step, whatever skill is chosen |
| SkillHarnessObject.SkillHarness.AbsorbToolResult | agents-learning/src/agents/skills.ts:220-266 | the in-place changes on a result are those of the specification; a garbled bill raises and changes nothing |
| SkillHarnessObject.SkillHarness.HearOwner | agents-learning/src/agents/skills.ts:209-218 | a correction supersedes exactly the open drafts and remembers the first of them |
| SkillHarnessObject.SkillHarness.SaveChosen | agents-learning/src/agents/skills.ts:299-304 | exactly the chosen drafts are marked, and their confirms are queued before the report |
| SkillHarnessObject.SkillHarness.Choose | agents-learning/src/agents/skills.ts:150-179 | each skill's plan, queue and closing |
| SkillHarnessObject.SkillHarness.Next | agents-learning/src/agents/skills.ts:110-147 | retry before new write before closing before queue before listening |
| SkillHarnessObject.SkillHarness.Act | agents-learning/src/agents/policy.ts:68-77 | the loop asks the policy at most once, keeps the invariant and sends only what is lawful |

## Left out

- ResumeExact: speaks of one claim of an honest row; what follows over whole histories is CrashRefinement.
- NoCorrectedSend: about messages the harness's own pattern recognises, since it knows of no others; NoCorrectConfirm says what that means for the script.
- WorkLoop: the returned count, logging and `follow` are not modelled.
- CrashRefinement: the `attempt` column of event rows, token usage and the run's agent and budget columns are not modelled.
- Restore: the check of `env_version` is not modelled; there is one version.
- ClaimJob: waits for a number of polls rather than a length of time; connector heartbeat and revocation are not modelled.
- BalancesConserved: supposes that confirmations of one payment do not overlap, which the code does not ensure; ConservedIffOnce and PaidTwice say what happens when they do.
- SettledOnce: supposes calls that do not overlap and a steady gateway; nothing is claimed for overlapping callbacks.
- AmountsIn: amounts are unbounded integers where the source multiplies doubles and rounds; it is exact as long as they are.
- RegisterConnector: takes the code trimmed and upper-cased, and supposes that codes are unique in the table.
- Statement: dates are numbers and an insertion sort stands for the stable library sort.
- Finalising a run: `finalizeRunIfDone` and the run summary; the quarantine paths never call it, so no run is claimed to be finalised.
- The concurrent protocols are state machines on values: row locks, unique-index waits and advisory locks are guards of steps, and deadlock is not modelled.
- Inherited keys of plain objects: `key in idem` is also true of names such as `constructor` in JavaScript.
- Message texts and refusal reasons that nothing reads are shortened.
- Parsing of bills, the text patterns, VAT, note, TDS and calendar arithmetic, the validators and the outbound gate: parameters with no assumptions.
- Catalogue lookup, schema parsing, HTTP, row-level security, notifications, metrics, LLM calls and the training code.
- `ensureTrial`, `cancel_subscription`, credit-note confirmation, opening balances, annual and TDS summaries, top parties: they would add only easy members.
