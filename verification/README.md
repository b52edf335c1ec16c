# SATFARM: verified model of the server

SATFARM splits a CNF formula into cubes, hands formula and cube to untrusted workers, checks
every model and every DRAT proof they send back, combines the shards' answers into one verdict
for the job, and moves credits between clients and workers. This project models that server in
Dafny and proves that it does what it is for. `dafny verify dfyconfig.toml` checks all of it.

The model has four layers.

* **Formulas** (`GoText`, `Cnf`, `Dimacs`, `Reading`, `CubeApply`, `ShardFile`, `Cubes`, `VerifySat`,
  `Kissat`). Files are sequences of lines, lines are strings, and Go's `TrimSpace`, `Fields`,
  `Atoi` and `Itoa` are defined on characters, so the odd inputs of the source (a terminator
  spelled `-0`, a `%` trailer, more clauses than the header declares, a 64-bit negation) are in
  the model. The scanning loops are methods, each proved against a definition of what the file means.
  There are two meanings: the model checker's, one clause a line, and a solver's, a stream of
  zero-terminated clauses under a header.
* **Scheduler** (`Tables`, `Protocol`). A state machine whose steps are the critical sections of
  the two mutexes and the database transactions. Everything the environment decides is in the
  step's label: what a worker sends, whether a send, a lookup or a commit works, which ids a
  database hands out, when a connection ends, and when the server restarts. All goroutines interleave freely.
* **The object** (`Registry`, `Ledger.Accounts`, `Scheduler.SimpleScheduler`). The source's
  structures with their fields, updated in place by methods in the source's order. A ghost
  record of the steps taken makes the object's fields the last state of a run, so every theorem
  about runs is one about the object.
* **Theorems over runs** (`DbSafety`, `Safety`, `Finality`, `Verdicts`, `Placement`,
  `Settlement`, `Books`, `Accountability`), and what each step does, written out on the tables, the
  memory and the books (`Effects`).

## The main theorems

1. *Verdicts are right* (`Verdicts.SatVerdictIsRight`, `Verdicts.UnsatVerdictIsRight`): in every
   state of every run, with false, duplicate and mismatched results, failed transactions,
   disconnects and restarts, a SAT verdict carries an assignment each of whose total extensions
   satisfies the formula that was uploaded, and an UNSAT verdict means that this formula is unsatisfiable.
   The only assumption about drat-trim is that it accepts proofs only for unsatisfiable formulas,
   and only on files it can read. SAT needs no assumption at all. UNSAT needs the upload to be
   *recountable*: every line below its header is a clause, also beyond the declared count, and the
   lines that `ApplyCube` counts are as many as the clauses. Every verdict is about an upload
   (`Verdicts.VerdictsAreAboutUploads`), whose lines before `%` stay the job's file (`Finality.UploadIsKept`).
2. *That assumption is exact*: `ShardFile.PreparedMeansFormulaAndCube` says, for every upload the
   server has accepted, that the file handed to the solver means formula-and-cube if and only if the
   upload is recountable. Two valid uploads are not: in `ShardFile.UndeclaredClauseIsMiscounted` a clause
   beyond the declared count spells its terminator `00`, and in `ShardFile.TabbedHeaderIsMiscounted`
   the header, which separates `p` by a tab and declares no clauses, is itself counted as one.
3. *No shard is in two places* (`Placement.NoShardInTwoPlaces`): when workers answer each assignment
   at most once, naming its shard, every shard is in the queue, with one worker, being sent, with one
   handler or done, and never in two of these, whatever fails and however often the server
   restarts. *None is lost* (`Placement.EveryShardInOnePlace`): as long as no restart and no failed lookup or
   write of a result has happened, every shard of an open job is in exactly one.
4. *A shard is accepted and paid at most once* (`Settlement.EveryShardAcceptedOnce`,
   `Settlement.EveryShardPaidOnce`), when workers keep to that protocol, across failures and restarts.
5. *Nothing is taken back or stranded*: a verdict never changes (`Finality.VerdictIsFinal`), a shard's
   answer never flips (`Verdicts.ShardVerdictNeverFlips`), a completed job is never assigned again
   (`Finality.NoWorkAfterCompletion`), and nothing is recorded against a connection that is gone (`Finality.NothingStranded`).
6. *The books balance in every run* (`Books.BooksAlwaysBalance`), and rewards only move money
   (`Books.OnlyWalletsAndPenaltiesChangeTheTotal`).
7. *Charges and payments go where they should, in every run* (`Accountability.PenaltiesAreDeserved`,
   `Accountability.RewardsAreEarned`): only the sender of a rejected result is penalised, and a reward
   moves the job's fee from its owner to the user whose connection had sent the verified result for
   that shard; with honest workers (`Accountability.RewardsGoToTheHolder`) that connection held the shard.
   And they do happen: whatever was wrong with the result, ten thousand are taken from a user who has
   them (`Effects.PunishCharges`), and a fee that can be paid is paid (`Effects.SettlePays`).
8. *Answers are given*: a committed model or passing count is the job's verdict unless it had one
   (`Effects.SatCommitDecides`, `Effects.UnsatCommitDecides`), the count passes exactly at the last open shard
   (`Effects.LastRefutationDecides`), in every run a completed job, and one with a stored model, has its verdict
   (`Effects.CompletedJobsHaveVerdicts`), a claim is stored or rejected exactly by what it claims
   (`Verdicts.JudgedByItsClaim`), and a worker is sent a shard exactly if it is idle, registered, its user has
   ten thousand, and some queued job is open (`Effects.PickSendsIff`).
9. *Files are read as they are written*: any formula, written with a header and one clause a line, is valid and
   read back by the model checker and by a solver (`Reading.WrittenIsRead`); comments change nothing wherever they
   stand (`Reading.CommentsAreIgnored`) and nothing after `%` counts (`Reading.TrailerEndsTheFormula`); what a
   solver prints comes out as its verdict and its model (`Kissat.PrintedIsParsed`).

## Where the code and its comments differ

* The guard against a second reward asks for rows with the reason `worker_reward`
  (`internal/grpc/balance.go:313-319`), but the rows written say `worker_reward_debit` and
  `worker_reward_credit` (lines 241 and 249). `Books.BooksAlwaysBalance` proves that the query
  never finds a row; that a shard is paid once follows from the scheduler instead.
* `rewardWorkerForJob` is described as paying only the one winning SAT shard
  (`internal/grpc/balance.go:297-300`); the code pays every accepted shard, SAT or UNSAT, and so does the model.
* `chooseDepthCeil` is described by the smallest power of two that reaches `maxWorkers`. Above
  2^62 no positive `int` reaches it, and the doubling wraps around; only the two limits stop the
  loop. `Cubes.Depth` has this case.
* `completedJobs` is set before the UNSAT transaction commits (`internal/grpc/scheduler.go:763-769`),
  so it does not imply a stored verdict, and no theorem says it does.
* `ApplyCube` counts a clause line by its last field being spelled `0`, while the validator accepts
  any spelling of zero, and it takes a header for a clause if the header ends in `0` and its `p` is not
  followed by a space. This is the condition in theorem 2.

## Model

| member | source | states |
|---|---|---|
| GoText.AtoiOfItoa | internal/sat/kissat.go:121-124 | reading a printed 64-bit integer gives it back |
| GoText.FieldsOfJoin | internal/sat/kissat.go:125 | splitting space-joined words gives the words back |
| GoText.OnlyZeroPrintsZero | internal/sat/cubeapply.go:55-61 | zero is the only integer printed as `0` |
| GoText.AtoiReads | internal/sat/dimacs.go:80-86 | exactly the 64-bit integers are read, and exactly from an optional sign, any number of zeros, and the printed digits |
| GoText.TrimSpaceStrips | internal/sat/dimacs.go:39 | trimming removes the space around a text and nothing else |
| GoText.FieldsSkip | internal/sat/dimacs.go:73 | leading space gives no field |
| GoText.SplitAtNewline | internal/sat/kissat.go:91 | splitting cuts at each newline |
| Cnf.ModelsWithUnits | internal/sat/cubeapply.go:11-13 | the models of formula and units are those of the formula that make the cube true |
| Dimacs.CheckClauseLine | internal/sat/dimacs.go:72-100 | a clause line passes iff its last token, and no other, is zero and its literals are within the header's range |
| Dimacs.ParseHeader | internal/sat/dimacs.go:47-64 | a header passes iff it is `p cnf` with a positive and a non-negative 64-bit integer, which are returned |
| Dimacs.ScanLine | internal/sat/dimacs.go:47-101 | one line of the validator: either the lines so far can still be a valid file, with its counters, or no continuation can |
| Dimacs.ValidateDIMACS | internal/sat/dimacs.go:25-116 | accepts exactly the valid files: a header, then at least the declared number of clause lines, of which that many are well shaped, with blank lines and comments in any place (`Reading.ValidMeans`, `Reading.CommentsAreIgnored`) |
| Dimacs.NormalisedIs | internal/sat/dimacs.go:132-145 | the normalised file is the longest prefix without a `%` line |
| Dimacs.PrepareCNFForSolving | internal/sat/dimacs.go:118-151 | writes the normalised file |
| Dimacs.NormalisingIsIdempotent | internal/sat/dimacs.go:132-145 | normalising twice is normalising once, and the formula stays the same |
| Reading.ValidMeans | internal/sat/dimacs.go:39-110 | a file is valid iff, of its lines that are neither blank nor start with `c` or `%`, the first reads `p cnf` and two numbers and at least as many follow as it declares, these (or all, if it declares none) being literals within its range and a final zero |
| Reading.CommentsAreIgnored | internal/sat/dimacs.go:41-44 | inserting anywhere a line that is blank or starts with `c` changes neither validity nor the formula, for the model checker or a solver |
| Reading.TrailerEndsTheFormula | internal/sat/verify_sat.go:71-74 | from a `%` line on nothing belongs to the formula, while the validator skips only that line |
| Reading.WrittenIsRead | internal/sat/dimacs.go:25-116 | every formula, written with its header and one clause a line, is valid and read back as itself by the model checker and by a solver |
| ShardFile.ValidAndTidy | internal/sat/dimacs.go:47-101 | what validation leaves open about a file is whether it can be recounted |
| CubeApply.ScanBody | internal/sat/cubeapply.go:30-64 | the first pass returns the lines before `%`, the first header's index and variables, and the number of counted lines |
| CubeApply.ApplyCube | internal/sat/cubeapply.go:14-100 | the output is the body with its header recounted, then one unit line per cube literal |
| CubeApply.RewriteHeader | internal/sat/cubeapply.go:70-74 | the in-place rewrite changes the header line only, and only if there is one with positive variables |
| CubeApply.AppendUnits | internal/sat/cubeapply.go:76-79 | unit lines are appended in the cube's order |
| CubeApply.HeaderLineTokens | internal/sat/cubeapply.go:73 | the rewritten header reads back as a header with the numbers written |
| CubeApply.UnitLineTokens | internal/sat/cubeapply.go:78 | an appended line reads back as the literal and `0` |
| CubeApply.PreparingKeepsTheCube | internal/sat/cubeapply.go:35-38 | because the body was cut at `%` before the units were appended, normalising the result drops none of them |
| ShardFile.RecountedLines | internal/sat/cubeapply.go:70-74 | recounting replaces the header of an accepted upload and nothing else |
| ShardFile.PreparedLines | internal/sat/cubeapply.go:30-79 | the significant lines of the prepared file are the new header, the upload's clause lines, the units |
| ShardFile.ReadLines | internal/sat/verify_sat.go:60-104 | on clause lines the solver's stream and the model checker's line reading give the same clauses in the same order |
| ShardFile.PreparedClauses | internal/sat/verify_sat.go:60-78 | the model checker's reading of the prepared file is the upload's clauses, then the units |
| ShardFile.RecountSuffices | internal/sat/cubeapply.go:30-79 | for recountable uploads a solver reads the prepared file as the upload's clauses and the units, with the header count right |
| ShardFile.RecountNecessary | internal/sat/cubeapply.go:55-61 | if a solver reads the prepared file so, the upload was recountable |
| ShardFile.PreparedMeansFormulaAndCube | internal/sat/cubeapply.go:11-79 | for every accepted upload, the prepared file means formula and cube iff the upload is recountable |
| ShardFile.RecountableIsCanonical | internal/sat/cubeapply.go:55-61 | where the header is not counted, that is to say that every line below it is a clause ended by `0` |
| ShardFile.PreparedIsValid | internal/sat/dimacs.go:25-116 | the prepared file of a recountable upload passes the validator again, its header declaring all its clauses |
| Cubes.ShardsAreValid | internal/sat/dimacs.go:25-116 | so does the prepared file of each of its shards, for any number of workers |
| ShardFile.UndeclaredClauseIsMiscounted | internal/sat/cubeapply.go:58-60 | a valid upload with a clause ended by `00` beyond the declared count: for no cube does a solver read its prepared file as formula and cube |
| ShardFile.TabbedHeaderIsMiscounted | internal/sat/cubeapply.go:58-60 | a valid upload, all clauses ended by `0`, whose header is counted as a clause: for no cube does a solver read its prepared file as formula and cube |
| Cubes.ChooseDepthCeil | internal/sat/cube.go:40-65 | the doubling loop ends with the closed form `Depth`, also where doubling wraps |
| Cubes.CeilLog2IsSmallest | internal/sat/cube.go:37-39 | the closed form's logarithm is the exponent of the least power of two that reaches the target |
| Cubes.DepthMeetsTheTarget | internal/sat/cube.go:37-65 | depth is at most the number of variables and the cap; 2^depth is at least the target and less than twice it iff neither limit is below the target's logarithm, and otherwise the lower limit is the depth |
| Cubes.ShardCount | internal/sat/cube.go:37-90 | a job has less than twice as many shards as workers were asked for and at most 2^20, and at least as many as workers unless it has that many or one for each truth assignment |
| Cubes.ReadNumVars | internal/sat/cube.go:12-35 | returns the third field of the first line that starts with `p`, if it is an integer |
| Cubes.NumVarsOfUpload | internal/sat/cube.go:20-29 | on an accepted upload that is the header's number of variables |
| Cubes.GenerateCubes | internal/sat/cube.go:72-112 | returns all cubes over the first `Depth` variables, in mask order |
| Cubes.BuildCube | internal/sat/cube.go:100-107 | the inner loop turns a mask into its cube, bit by bit |
| Cubes.CubesPartition | internal/sat/cube.go:90-111 | every truth assignment makes exactly one cube true |
| Cubes.CubesAreDistinct | internal/sat/cube.go:98-109 | no cube is generated twice |
| Cubes.TrueIn | internal/sat/cube.go:99-107 | each cube is consistent |
| Cubes.CubesInRange | internal/sat/cube.go:92-107 | all cube literals are non-zero and within the file's variables |
| Cubes.SplitPreservesSatisfiability | internal/sat/cube.go:67-111 | a formula is satisfiable iff formula and cube is for some generated cube |
| VerifySat.BuildMap | internal/sat/verify_sat.go:20-32 | builds the partial assignment in which the last literal on a variable wins, with 32-bit negation |
| VerifySat.LastLiteralWins | internal/sat/verify_sat.go:20-32 | the value of a variable is the sign of the last literal on it |
| VerifySat.OnlyReportedVariables | internal/sat/verify_sat.go:20-32 | a variable without a literal has no value |
| VerifySat.CheckCube | internal/sat/verify_sat.go:34-47 | passes iff no cube literal is contradicted |
| VerifySat.CheckClause | internal/sat/verify_sat.go:76-108 | passes iff a literal before the terminator holds |
| VerifySat.CheckLiteral | internal/sat/verify_sat.go:89-103 | a literal holds iff its variable is assigned accordingly, with 64-bit negation |
| VerifySat.CheckLines | internal/sat/verify_sat.go:58-109 | passes iff every clause of the file has a literal that holds |
| VerifySat.VerifySatAssignment | internal/sat/verify_sat.go:19-116 | accepts exactly by these two conditions |
| VerifySat.AcceptedSatisfies | internal/sat/verify_sat.go:49-109 | every total extension of an accepted assignment satisfies the file's formula |
| VerifySat.ExtendToCube | internal/sat/verify_sat.go:34-47 | an assignment that contradicts no literal of a consistent cube extends to one that makes the cube true |
| VerifySat.AcceptedShardIsSatisfiable | internal/sat/verify_sat.go:34-109 | if a generated cube's shard was accepted, formula and cube is satisfiable |
| VerifySat.CheckIsExact | internal/sat/verify_sat.go:34-109 | on assignments that give every variable of the formula a value, accepted are exactly those whose extension is a model and that contradict no cube literal |
| VerifySat.AcceptedIffAllExtensions | internal/sat/verify_sat.go:34-109 | on partial assignments that leave no variable open that a clause holds with both signs, accepted are exactly those all of whose extensions are models and that contradict no cube literal |
| VerifySat.ModelIsAccepted | internal/sat/verify_sat.go:19-116 | a complete report of a model of formula and cube is accepted |
| Kissat.ParseKissatOutput | internal/sat/kissat.go:88-129 | returns the last status line's answer and, for SAT, the non-zero integers of the value lines |
| Kissat.ReadIntegers | internal/sat/kissat.go:106-112 | keeps the non-zero integers of a value line, in order |
| Kissat.PrintedIsParsed | internal/sat/kissat.go:88-129 | a status line and a model printed over any number of value lines give the verdict and the whole model |
| Kissat.ParseAssignment | internal/grpc/scheduler.go:455-470 | reads a non-blank list of integers, cut to 32 bits, or fails on any other word |
| Kissat.AssignmentIsReadIff | internal/grpc/scheduler.go:455-470 | an assignment is read iff there is a word and all words are integers, and then as these, cut to 32 bits |
| Kissat.ReadingInvertsPrinting | internal/sat/kissat.go:105-126 | reading what was printed gives the model back, cut to 32 bits, unless the model is empty |
| Ledger.Accounts.AddUser | internal/web/handlers_auth.go:52-56 | a new user has balance zero |
| Ledger.Accounts.ChangeUserBalance | internal/grpc/balance.go:126-182 | commits exactly when `Change` is defined, with its balances and row; a debit fails exactly when the balance does not cover it; a failure changes nothing |
| Ledger.Accounts.TransferUserBalance | internal/grpc/balance.go:187-254 | commits exactly when `Transfer` is defined, with both rows, also for payer equal to payee; a failure changes nothing |
| Ledger.ReadDimacsHeader | internal/grpc/balance.go:45-83 | returns the numbers of the first line that starts with `p` and a space, if it is a proper header |
| Ledger.DeclaredSizeOfUpload | internal/grpc/balance.go:59-77 | on a validated upload these are the validated header's numbers if that header starts with `p` and a space; otherwise, if only clauses follow, there are none |
| Ledger.ComputeReward | internal/grpc/balance.go:347-360 | the fee the header gives, in 64 bits, if it is positive |
| Ledger.ChangeKeepsBalanced | internal/grpc/balance.go:126-182 | a change keeps every balance the non-negative sum of its user's rows |
| Ledger.TransferKeepsBalanced | internal/grpc/balance.go:187-254 | so does a transfer |
| Ledger.NewUserKeepsBalanced | internal/web/handlers_auth.go:52-56 | so does a new user |
| Ledger.TransferConserves | internal/grpc/balance.go:203-227 | a transfer keeps the sum over all users and touches no third user |
| DbSafety.CountsSayAll | internal/grpc/scheduler.go:714-738 | the three counts pass iff the job has shards, all are completed, and none has a SAT result |
| DbSafety.CountsRefute | internal/grpc/scheduler.go:714-743 | in sound tables, counts that pass mean that every cube of the job's split was refuted by a proof |
| DbSafety.InsertKeeps | internal/grpc/scheduler.go:112-144 | the splitting transaction keeps the tables sound: the job's rows are then exactly its cubes, each once |
| DbSafety.StoreSatKeeps | internal/grpc/scheduler.go:472-526 | the SAT transaction keeps the tables sound and takes nothing back |
| DbSafety.StoreUnsatKeeps | internal/grpc/scheduler.go:682-769 | the UNSAT transaction keeps the tables sound and takes nothing back |
| DbSafety.ShardStatusKeeps | internal/grpc/scheduler.go:425-435 | writing any status but `completed`, even late, keeps the tables sound |
| Safety.StepSafe | internal/grpc/scheduler.go:73-789 | every step keeps the invariant: sound tables, genuine shards in memory, and evidence behind whatever a goroutine is about to store |
| Safety.RunSafe | internal/grpc/scheduler.go:73-789 | it holds in every state of every run |
| Verdicts.RefutedIsUnsatisfiable | internal/grpc/scheduler.go:743-755 | if every cube of a well-formed job was refuted and drat-trim is sound, the formula is unsatisfiable |
| Verdicts.SatVerdictIsRight | internal/grpc/scheduler.go:278-316 | a SAT verdict's assignment satisfies the uploaded formula in every total extension |
| Verdicts.SatVerdictOnFile | internal/grpc/scheduler.go:278-316 | and likewise the formula of the job's stored file |
| Verdicts.UnsatVerdictIsRight | internal/grpc/scheduler.go:626-770 | an UNSAT verdict on a tidy upload means that the uploaded formula is unsatisfiable |
| Verdicts.UnsatVerdictOnFile | internal/grpc/scheduler.go:626-770 | and likewise the formula of the job's stored file |
| Verdicts.VerdictsAreAboutUploads | internal/web/handlers_jobs.go:110-127 | every verdict is about a job that was uploaded before |
| Verdicts.JudgedByItsClaim | internal/grpc/scheduler.go:262-390 | a result is stored iff the lookups work and its claim holds, and rejected iff its text names nothing or the lookups show the claim to be false; a failed lookup of a readable claim is never held against the worker |
| Verdicts.EvidenceExcludes | internal/grpc/scheduler.go:295-309 | a model and a proof cannot both be accepted for one shard |
| Verdicts.ShardVerdictNeverFlips | internal/grpc/scheduler.go:482-704 | no run turns a stored result from SAT to UNSAT or back, although both writers overwrite |
| Verdicts.HonestModelIsAccepted | internal/grpc/scheduler.go:262-305 | a solver's complete 32-bit model of formula and cube, printed by the worker, is never rejected |
| Verdicts.HonestProofIsAccepted | internal/grpc/scheduler.go:324-397 | nor is the id of an uploaded proof that drat-trim accepts |
| Finality.StepExtends | internal/grpc/scheduler.go:482-755 | no step removes or changes a job's file, a shard's cube, a proof or a verdict, nor removes a result |
| Finality.VerdictIsFinal | internal/grpc/scheduler.go:509-515 | a verdict, once written, is the job's verdict in all later states, also after restarts |
| Finality.UploadIsKept | internal/web/handlers_jobs.go:110-127 | in every state after an upload, the job's file is the upload before its first `%` line, with the upload's owner and number of workers |
| Finality.EveryJobWasUploaded | internal/web/handlers_jobs.go:110-127 | jobs come from uploads only |
| Finality.StepBegins | internal/grpc/scheduler.go:241-404 | which goroutine steps an event can start: no handler skips a stage |
| Finality.RunConnected | internal/grpc/worker_service.go:31-45 | in every state registered connections are live, slots belong to connections not yet departed, ids are not reused, and a shard being sent is of an open job |
| Finality.NothingStranded | internal/grpc/worker_service.go:41-45 | once a disconnect handler has left its critical section, no shard is recorded or being sent against that connection again |
| Finality.NoWorkAfterCompletion | internal/grpc/scheduler.go:168-182 | while the server runs a completed job stays completed and no shard of it is sent |
| Finality.PickTakesTheFirstLive | internal/grpc/scheduler.go:168-182 | a pick drops a prefix of completed shards and takes the first live one; the other live shards keep their order |
| Finality.RefusalKeepsTheQueue | internal/grpc/scheduler.go:187-213 | every refusal restores the live queue exactly, and only a registered worker with the balance is sent anything |
| Finality.SendKeepsTheQueue | internal/grpc/scheduler.go:215-228 | a failed send puts the shard back in front, a successful one fills the worker's slot with it |
| Placement.PickKeeps | internal/grpc/scheduler.go:160-213 | picking loses no live shard and duplicates none |
| Placement.StepPlaced | internal/grpc/scheduler.go:73-789 | no step of an honest worker, a failing server or a restarting one puts a shard in two places, and none of a working server loses one |
| Placement.NoShardInTwoPlaces | internal/grpc/scheduler.go:73-789 | when workers keep to the protocol, each shard is in at most one place, whatever fails |
| Placement.EveryShardInOnePlace | internal/grpc/scheduler.go:73-789 | as long as the server's own work on results has not failed either, each shard of an open job is in exactly one place |
| Settlement.CommitSatClaims | internal/grpc/scheduler.go:306-318 | storing a model makes the shard's first and only claim to a reward |
| Settlement.CommitClaims | internal/grpc/scheduler.go:392-401 | so does storing a proof |
| Settlement.SettleClaims | internal/grpc/balance.go:301-382 | settling turns the claim into at most one reward row |
| Settlement.EveryShardAcceptedOnce | internal/grpc/scheduler.go:306-401 | when workers keep to the protocol, a shard with a stored result never has another one stored, across failed commits and restarts |
| Settlement.EveryShardPaidOnce | internal/grpc/balance.go:301-382 | in the same runs no two reward credits are for one shard, and a paid shard has a verified result and no open claim |
| Books.StepKeepsBooks | internal/grpc/balance.go:262-382 | every step keeps the books balanced and writes no row with the guard's reason |
| Books.BooksAlwaysBalance | internal/web/handlers_wallet.go:12-64 | in every state each balance is the non-negative sum of its user's rows, and the reward guard finds no row |
| Books.OnlyWalletsAndPenaltiesChangeTheTotal | internal/grpc/balance.go:262-382 | no step but wallet operations and penalties changes the sum over all users |
| Accountability.RunAttributed | internal/grpc/scheduler.go:222-228 | in every state a live connection's slot carries the user it is registered under |
| Accountability.ConnectionKeepsItsUser | internal/grpc/worker_service.go:31-42 | while the server runs, a connection once registered under a user is never registered under another |
| Accountability.RunTraced | internal/grpc/scheduler.go:241-404 | in every state each pending penalty stems from a result its connection sent and the server rejected, and each result being stored or paid for from one its connection sent and the server verified |
| Accountability.PenaltiesAreDeserved | internal/grpc/balance.go:262-291 | a penalty charges only the user whose connection, holding a shard, had sent a result the server rejected, and changes nothing else |
| Accountability.TransferMovesTheFee | internal/grpc/balance.go:203-251 | a transfer debits the first and credits the second user by the amount, with the two rows in that order |
| Accountability.RewardsAreEarned | internal/grpc/balance.go:301-382 | a reward is for a shard of the job whose verified result is stored; ten a variable and one a clause go from the job's owner to the user whose connection had sent a result on that shard that the server verified |
| Accountability.RewardsGoToTheHolder | internal/grpc/balance.go:301-382 | when workers keep to the protocol, that user's connection held this very shard when it sent the result |
| Effects.SatCommitDecides | internal/grpc/scheduler.go:472-526 | in every run a committed model is its shard's result, completes shard and job, and is the job's verdict unless there was one; nothing else changes |
| Effects.UnsatCommitDecides | internal/grpc/scheduler.go:682-769 | a committed proof likewise, and job and verdict exactly if the counts had passed |
| Effects.CompletedJobsHaveVerdicts | internal/grpc/scheduler.go:506-523 | in every state of every run a completed job, and a job with a stored model, has a verdict |
| Effects.LastRefutationDecides | internal/grpc/scheduler.go:714-743 | the counts pass exactly when all other shards of the job are completed and none of them has a model |
| Effects.PickSendsIff | internal/grpc/scheduler.go:160-213 | a worker is sent a shard iff it is idle and registered, its user's balance can be read and is at least 10,000, and some queued shard's job is open; it is the first such shard |
| Effects.PickRefuses | internal/grpc/scheduler.go:163-213 | a refusal costs the queue at most leading shards of completed jobs |
| Effects.ValidJobIsSplit | internal/grpc/scheduler.go:100-144 | a valid job gets a pending row and a queued shard for each of its cubes, in order, or nothing if the transaction fails |
| Effects.PunishCharges | internal/grpc/balance.go:262-291 | a penalty takes 10,000 from a user who has them, whatever the reason, with one row, and otherwise leaves the books; the shard is re-enqueued in any case |
| Effects.SettlePays | internal/grpc/balance.go:301-382 | if the job has a fee, the client can pay it and the worker's user take it, it is paid, with both rows; otherwise the books stay |
| Effects.RegisteredUsersOpened | internal/grpc/worker_service.go:25-40 | in every state each connection is registered under the user who opened it, since the last restart |
| Registry.WorkerRegistry.constructor | internal/grpc/registry.go:19-23 | no worker is registered and no id used |
| Registry.WorkerRegistry.NewID | internal/grpc/registry.go:27-32 | the id is one more than the last one |
| Registry.WorkerRegistry.Set | internal/grpc/registry.go:34-38 | registers the connection and leaves the others |
| Registry.WorkerRegistry.Get | internal/grpc/registry.go:40-45 | the connection, if it is registered |
| Registry.WorkerRegistry.Delete | internal/grpc/registry.go:47-51 | removes that connection only |
| Registry.WorkerRegistry.IDs | internal/grpc/registry.go:53-61 | every registered id, each once |
| Scheduler.SimpleScheduler.constructor | internal/grpc/scheduler.go:63-71 | the empty server is the first state of a run |
| Scheduler.SimpleScheduler.MaybeAssignWork | internal/grpc/scheduler.go:160-239 | the object's state becomes that of a pick for this worker and, if it took a shard, a send |
| Scheduler.SimpleScheduler.TakeFor | internal/grpc/scheduler.go:160-213 | pop, balance check and lookup are the pick step; the shard in hand is the one it says |
| Scheduler.SimpleScheduler.SendTo | internal/grpc/scheduler.go:215-239 | the send and the slot, or the shard back in front, are the send step |
| Scheduler.SimpleScheduler.PopLive | internal/grpc/scheduler.go:168-182 | the pop loop is `PickLive` |
| Scheduler.SimpleScheduler.WorkerHasMinBalance | internal/grpc/balance.go:92-118 | true iff the worker is registered and its user has at least 10,000 |
| Scheduler.SimpleScheduler.TakeResult | internal/grpc/scheduler.go:242-250 | the slot is cleared, whatever shard the result names, and the user remembered |
| Scheduler.SimpleScheduler.VerifySatResult | internal/grpc/scheduler.go:262-303 | penalty, silent drop or proof of a SAT result, as `JudgeSat` says |
| Scheduler.SimpleScheduler.VerifyUnsatResult | internal/grpc/scheduler.go:321-390 | penalty, silent drop or proof of an UNSAT result, as `JudgeUnsat` says, on the file `ApplyCube` and normalising produce |
| Scheduler.SimpleScheduler.JudgeReported | internal/grpc/scheduler.go:262-390 | the judgement is the verify step |
| Scheduler.SimpleScheduler.HandleJobResult | internal/grpc/scheduler.go:241-404 | its steps: receive, judge, then nothing, or punish and re-enqueue, or store; SAT is marked after its commit, UNSAT before |
| Scheduler.SimpleScheduler.PenalizeWorker | internal/grpc/balance.go:262-291 | takes 10,000 from a user who has them, with its row, whatever the reason, and nothing from others; this is the punish step |
| Scheduler.SimpleScheduler.StoreSatShardResult | internal/grpc/scheduler.go:472-526 | result, shard, job and the job's first verdict are stored, or nothing |
| Scheduler.SimpleScheduler.MarkJobCompletedAndCancelOthers | internal/grpc/scheduler.go:528-576 | marks the job and cancels exactly the other workers that hold one of its shards |
| Scheduler.SimpleScheduler.CountShards | internal/grpc/scheduler.go:689-743 | the counts are taken after the transaction's own writes |
| Scheduler.SimpleScheduler.MarkRefuted | internal/grpc/scheduler.go:763-766 | the job is marked before the commit |
| Scheduler.SimpleScheduler.StoreUnsatShardResult | internal/grpc/scheduler.go:682-769 | result and shard are stored, and job and first verdict iff the counts passed, or nothing |
| Scheduler.SimpleScheduler.ReopenShard | internal/grpc/scheduler.go:582-605 | the shard's row is set pending and a copy with its job and cube made, unless a statement fails |
| Scheduler.SimpleScheduler.AppendPending | internal/grpc/scheduler.go:607-613 | shards are appended at the end of the queue |
| Scheduler.SimpleScheduler.ReenqueueShard | internal/grpc/scheduler.go:578-624 | reopen, append, then one offer to each registered worker |
| Scheduler.SimpleScheduler.NudgeWorkers | internal/grpc/scheduler.go:617-621 | every registered worker is asked once, and nothing else happens |
| Scheduler.SimpleScheduler.MarkShardAssigned | internal/grpc/scheduler.go:421-439 | the late status write touches only that shard's status |
| Scheduler.SimpleScheduler.RewardWorkerForJob | internal/grpc/balance.go:301-386 | its steps: the registry lookup and, if the worker is still there, the settlement |
| Scheduler.SimpleScheduler.GetWorkerUserID | internal/grpc/scheduler.go:54-61 | the user of a registered worker, which is the first step |
| Scheduler.SimpleScheduler.PayWorker | internal/grpc/balance.go:308-386 | guard and transfer are the second step |
| Scheduler.SimpleScheduler.TransferReward | internal/grpc/balance.go:313-381 | moves the fee from client to worker, with both rows, whenever it can be paid, and otherwise leaves the books as they are |
| Scheduler.SimpleScheduler.SplitIntoShards | internal/grpc/scheduler.go:78-144 | an invalid file inserts nothing; otherwise all cubes' rows or none |
| Scheduler.SimpleScheduler.GenerateRows | internal/grpc/scheduler.go:100-144 | one row per generated cube under the ids handed out, and the same shards for the queue |
| Scheduler.SimpleScheduler.EnqueueJob | internal/grpc/scheduler.go:73-158 | its steps: a failed job marked and abandoned, or all shards inserted, queued and offered |
| Scheduler.SimpleScheduler.HandleDisconnect | internal/grpc/scheduler.go:772-789 | the slot is cleared and the shard it held, if any, re-enqueued |
| Scheduler.SimpleScheduler.Work | internal/grpc/worker_service.go:22-76 | its steps: connect, register, offer, one turn for each message, unregister, disconnect and re-enqueue; at the end the connection is gone, unregistered, and holds no shard |
| Scheduler.SimpleScheduler.ReceiveAll | internal/grpc/worker_service.go:50-75 | a hello is answered by an offer, a result is handled and followed by an offer, any other message does nothing |
| Scheduler.SimpleScheduler.AcceptUpload | internal/web/handlers_jobs.go:110-127 | the new pending row has the upload's lines before its first `%` line, its owner and its number of workers; nothing else changes |
| Scheduler.SimpleScheduler.ChangeWallet | internal/web/handlers_wallet.go:12-64 | deposits, withdrawals and upload charges are the same guarded change |
| Scheduler.SimpleScheduler.StoredVerdictIsRight | internal/grpc/scheduler.go:241-770 | a verdict in the object's tables is right about what was uploaded, at any time |
| Scheduler.SimpleScheduler.AccountsBalance | internal/grpc/balance.go:126-254 | the object's accounts balance, at any time |

## Left out

- Kissat and drat-trim: foreign programs. Kissat's output is any text, drat-trim any predicate; where a theorem needs its soundness, it says so.
- Files and streams: opening, writing, the scanners' line-length limits (64 KiB in `ApplyCube`, 1 MiB in the validator) and read errors. In particular a SAT result is rejected, with a penalty, when the server cannot read its own copy of the CNF (`internal/sat/verify_sat.go:50-53`); the model's files can always be read.
- Text: lines are sequences of characters; invalid UTF-8 is not modelled.
- gRPC, HTTP, authentication, sessions, templates, dashboards, timeouts, contexts and logging.
- Postgres isolation: a transaction is one step that succeeds wholly or changes nothing, except that the UNSAT transaction reads its counts one step before it writes, so commits of others fall in between. Columns nothing decides on (timestamps, attempt counts, worker names, original file names, `AssignedWorkerID`) are not modelled.
- Liveness: that a job finishes. Concurrent counting transactions and late `running` writes can delay it, and a cancelled worker sends no result. Cancellations are computed (`MarkJobCompletedAndCancelOthers`) but have no effect on the server's state.
- Integer width of ids: connection ids, row ids and lengths of files are unbounded; `Accepted` uploads have at most 2^61 lines.
- Scheduler.SimpleScheduler.Work: shows one connection's goroutine alone; what other goroutines do between its steps is covered by the state machine, whose steps its methods take.
- Placement.NoShardInTwoPlaces: needs workers that keep to the protocol, because the server clears a worker's slot without comparing the shard it held with the one the result names (`internal/grpc/scheduler.go:243-250`). The same holds for Settlement.EveryShardAcceptedOnce and Settlement.EveryShardPaidOnce.
- Placement.EveryShardInOnePlace: needs in addition that the server's lookups and writes of results have worked and that it has not restarted, because it does not re-enqueue after its own failures (`internal/grpc/scheduler.go:284-289, 307-311, 379-382`) and does not reload its queue.
- Scheduler.SimpleScheduler.PayWorker: the guard's query, the job lookup and the transfer are one step; the query never finds a row and job rows never change.
- Verdicts.UnsatVerdictIsRight: assumes a recountable upload (`Tidy`), which theorem 2 shows to be exactly what the shard files need.
- Scheduler.SimpleScheduler.VerifyUnsatResult: the lookups and the check of one result are one step; the rows they read never change once they exist.
- Scheduler.SimpleScheduler.ChangeWallet: the web server and the scheduler each have a copy of `changeUserBalance` with the same body; both are `Ledger.Accounts.ChangeUserBalance`. The upload price formula is a parameter.
- Resuming after a restart: the server does not reload its queue, and the model's restart step loses it as well.
