# Go Forth: what the authoritative match promises, proved

Go Forth is a game of simultaneous plans: two seats lock in troops, orders and
spells in secret, a server fights the round, and every accepted cast goes on a
record that must replay to the same battle. This project is a Dafny model of the
server's match, of the troop AI and battle geometry it fights with, and of the
plan screen that builds what it is sent, together with proofs of what their
documentation promises. `dafny verify dfyconfig.toml` checks all of it.

Values are datatypes with a function for each operation; the objects the server
changes in place are classes whose methods are proved to do what those functions
say. Theorems about whole runs are about the functions, and hold of the classes
through the methods' contracts.

## The modules

**The match.** `Session` is the phase machine and its invariants; `LiveMatch`
the mutable session that refines it. `Round`, `Battle` and `SpellQueue` are the
round under it, the runner under that, and the queue of scheduled casts;
`Ledger`, `Energy` and `Recording` what it keeps beside them. `Plan`, `Cards`,
`Opening`, `BattleMap` and `Zones` take a plan from JSON to an opening world. `Replay` and
`ReplayProof` hold the central result, by simulation: the record, fed to the
replay, stays in step with the live round through every tick and cast; `Rerun` is
what replaying any record whatever comes to.
`LiveReplay` is the replay's own loops and `Storage` the record's JSON.
`ExactlyOnce`, `TakenTwice`, `Secrecy`, `MatchSecrecy` and `MatchFacts` are properties
of whole runs, and `Instance` is a server that meets what they assume of one.
`RoundLaws`, `MatchScore`, `Phases`, `Views` and `Fielding` say what a verdict, a
cast, a finished round, a phase, a snapshot and an opening are, field by field.

**The troop AI.** `Coordination` allocates defenders and `Allocation` says what
every allocation keeps. `Observing`, `Pursuit`, `Candidates`, `Scoring` and
`Deciding` are one unit's decision; `Legality` is what it may be offered and
`Chases` how long it may run after anything. `Guarding`, `Offers` and `Steadiness`
read allocations, offers and decisions off the units on the field.

**The ground.** `Geometry`, `Blocking`, `Tunnelling`, `Formation` and `Stations`
place and move units; `Effects` and `Resolution` apply cards to them, and `EffectLaws` and
`Burning` are what no card can break. `CardFacts` is what each effect does to each
unit, and `Ranks` the shape of a troop.

**The plan screen.** `PlanEditor` is the client's reducer, over the catalogue the
server judges the same plan by, `Edits` what each
edit does, and `Suggestion` the plan it opens on. `Clock` is the loop that makes a match move.

`Common`, `Ordering` and `Runs` are shared vocabulary: stable sorting that
forgets the order of its input, and invariants over runs.

## What the code does not do as its documentation says

- The ledger forgets a seat's oldest answer after 512 newer ids. A command not asked
  again meanwhile is answered alike exactly inside that window. At 512 it is decided
  afresh, and is accepted and recorded a second time exactly when the round then
  running has nothing against it; a match in which that happens is exhibited.
- `api/app/sim/blocking.py` says a barricade cannot be tunnelled below a speed of
  1000. A step goes through a disc it neither starts nor ends in exactly when the
  centre lies beside the step and nearer its line than the radius, and for every step
  however short and every radius there is such a disc. What is true is that short
  steps only graze: one of length d comes no nearer than the root of r² - d²/4. Three
  units across a 26-unit disc is the concrete case. Nor does a step cut short at one
  barricade stay out of another it would cross; when it ends inside one is also exact.
- `api/app/sim/ai/candidates.py` says only a pushing troop is offered the enemy
  base. Advances and retreats are checked; a withdrawal is not, and a unit not ordered
  to push is offered the base to move to exactly when backing off to useful range from
  an enemy it answers lands there. Holding names the unit's own position and is not
  checked either, so a unit standing on the base is offered it by holding.
- `api/app/sim/ai/decide.py` has a branch for an advance that is already engaging.
  No such candidate is ever generated.
- Recovery also starts when a quarry dies or leaves, not only on the bounds of
  leash, progress and time.
- The plan screen keeps pool and capacity depending on the roster and on the plan it
  opens on. Fielding does not check that a default entourage fits, and adding a summon
  checks one troop and a pool of one, then adds it to every troop of that mage. From a
  plan of distinct mages only the entourages matter. The server's suggestion repeats
  mages exactly when the roster is shorter than the cap, and with the shipped roster
  it is three troops of one mage: adding one hound to it fields six of four. Which
  single edits keep a plan covered, whoever it fields, is exact.
- Clearing the chip corner needs a chip strictly smaller than its lane on an axis.

## Model

| member | source | states |
|---|---|---|
| `ReplayProof.ReplayReproducesRun` | api/app/match/run_record.py:369-469 | for every run of a match, any interleaving of lock-ins, new, retried and refused casts, ticks and abandonment, replaying its record raises nothing and ends each finished round in the very state the live round ended in, every recorded cast taken |
| `ReplayProof.StoredRunReplays` | api/app/match/run_record.py:197-235 | the same of the record written to JSON and read back |
| `ReplayProof.RecordTellsTheTruth` | api/app/match/run_record.py:272-328 | each finished round is recorded with its own ending, accepted casts in order and remaining base HP; only the last entry can be unfinished |
| `ReplayProof.ReplayRefusedExactlyElsewhere` | api/app/match/run_record.py:379-394 | where an id names one map, a recorded run is refused exactly by a server of other rules, other content or another map |
| `ReplayProof.OpenedMirrors` | api/app/match/session.py:279-311 | a round just started is one its own record entry reopens |
| `ReplayProof.AcceptedMirrors` | api/app/match/session.py:349-372 | an accepted cast, live and on record, leaves the two in step |
| `ReplayProof.SteppedMirrors` | api/app/match/round.py:234-248 | a tick short of the ending keeps record and round in step |
| `ReplayProof.FinishedReplays` | api/app/match/run_record.py:403-465 | the entry of a finished round replays to that round, all casts spent |
| `Replay.FreshnessIsForgotten` | api/app/match/run_record.py:429-439 | how stale a tap was decided only whether it was taken: submitted at the world's own tick it does the same |
| `Replay.TurnsIgnoreLater` | api/app/match/run_record.py:423-446 | casts recorded for later ticks change nothing the replay did before them |
| `Replay.MirrorsFinish` | api/app/match/run_record.py:423-467 | the tick that ends the live round ends the replay, in the same state, with no cast unreached |
| `Replay.RefusedAtTheDoorExactly` | api/app/match/run_record.py:379-394 | any record on any server, whatever their maps hold, is turned away for rules, content or map exactly when a version or the map's id differs |
| `Rerun.ReplayTakesWhatIsRecorded` | api/app/match/run_record.py:403-469 | any record, any server: a replay that raises nothing has run every round up to the first unfinished one, and in each taken every recorded cast and no other, at its tick, for its side, under its id, spell and place, in order of tick and order, numbered 1..n |
| `Rerun.EntryReplaysExactly` | api/app/match/run_record.py:420-463 | what replaying any entry comes to: the round met cast by cast, and the fault of the first cast that is refused when its tick comes, or whose tick is past or comes after the round is over |
| `LiveReplay.FeedRound` | api/app/match/run_record.py:424-445 | the inner loop submits exactly the casts due on the tick to come, in order, stopping at the first refusal |
| `LiveReplay.FightRound` | api/app/match/run_record.py:420-446 | the outer loop fights a round to its end, feeding and stepping |
| `LiveReplay.ReplayOne` | api/app/match/run_record.py:403-465 | one entry reopened and fought, or the fault that stops it |
| `LiveReplay.ReplayRecord` | api/app/match/run_record.py:369-469 | the whole replay as a loop, equal to the specification the theorems are about |
| `Storage.StoredRecordReadsBack` | api/app/match/run_record.py:197-235 | every record, finished or not, reads back from its JSON as itself |
| `Storage.RoundReadsBack` | api/app/match/run_record.py:136-167 | so does every round of one |
| `Storage.CastReadsBack` | api/app/match/run_record.py:90-111 | and every cast |
| `Storage.MatchEndingReadsBack` | api/app/match/wire.py:328-348 | each match ending has its own wire form |
| `Storage.EndingReadsBack` | api/app/match/run_record.py:363-366 | and each round ending |
| `Recording.RunRecorder.RoundStarted` | api/app/match/run_record.py:272-291 | a started round is appended and becomes the current one |
| `Recording.RunRecorder.CastAccepted` | api/app/match/run_record.py:293-308 | a cast is appended to the current round, or to none when there is none |
| `Recording.RunRecorder.RoundFinished` | api/app/match/run_record.py:310-315 | the current round gets its ending and bases and stops being current |
| `Recording.RunRecorder.MatchFinished` | api/app/match/run_record.py:317-328 | the match ending, reason, rounds won and bases are set |
| `Session.ActInv` | api/app/match/session.py:125-590 | every action keeps every invariant of a match: plans kept are legal, ledgers bounded, bases standing while it runs, record and phase in agreement |
| `Session.RunFromInv` | api/app/match/session.py:125-590 | and so does every run |
| `Session.OpenSessionInv` | api/app/match/session.py:128-188 | a match opens in order |
| `Session.LockInInv` | api/app/match/session.py:255-277 | locking in keeps the invariant, and the battle a second lock starts never fails to |
| `Session.BattleAlwaysStarts` | api/app/match/session.py:279-311 | in every state a match can plan in, its battle starts: plans are found, the world builds, no carried base is rejected |
| `Session.CastInv` | api/app/match/session.py:315-372 | casting keeps the invariant |
| `Session.TickInv` | api/app/match/session.py:425-461 | so does time passing |
| `Session.FinishRoundInv` | api/app/match/session.py:463-515 | so does finishing a round |
| `Session.EndingEarned` | api/app/match/session.py:517-545 | a match that ends on a round ended for the reason its result states |
| `Session.BasesOutliveRound` | api/app/match/session.py:463-491 | a round that ended short of a base falling leaves both bases in (0, max] |
| `Phases.LockInTakenExactly` | api/app/match/session.py:255-277 | a lock-in is taken exactly while planning, from a seat not locked, for a plan that parses and is legal; any other leaves the match as it was |
| `Phases.FirstLockKeepsPlan` | api/app/match/session.py:255-277 | it keeps, prices and locks that seat's plan and touches nothing of the other's |
| `Phases.SecondLockStarts` | api/app/match/session.py:279-311 | the second begins the battle on the very plans locked: world, loadouts, pools and record entry all from them |
| `Phases.StartsOnPlansInForce` | api/app/match/session.py:279-311 | however a battle begins, it is on what each seat kept, or the suggestion where it kept none |
| `Phases.PhasesWaitExactly` | api/app/match/session.py:425-461 | planning ends by itself exactly at tick 1200 once all seats are claimed, a result shows exactly 60 ticks and gives way to a blank plan screen, a match over stays over |
| `Phases.FreshCastHears` | api/app/match/session.py:331-372 | what a seat hears of a new cast in each phase |
| `Phases.RoundOverTells` | api/app/match/session.py:463-515 | a decided round leaves its own number, verdict, bases and score, carries its bases, and names the match's terminal reason |
| `Phases.AbandoningTells` | api/app/match/session.py:554-590 | an abandoned match goes to whom it is given, on the bases and rounds as they stand |
| `LiveMatch.MatchSession.constructor` | api/app/match/session.py:128-188 | the session opens in the specified state |
| `LiveMatch.MatchSession.LockIn` | api/app/match/session.py:255-277 | the mutable session locks in exactly as specified, and a refusal changes nothing |
| `LiveMatch.MatchSession.StartBattle` | api/app/match/session.py:279-311 | starts the battle as specified |
| `LiveMatch.MatchSession.Cast` | api/app/match/session.py:315-385 | answers and changes state exactly as specified, a known id from the ledger |
| `LiveMatch.MatchSession.Decide` | api/app/match/session.py:331-372 | an id not seen before is decided and recorded as specified |
| `LiveMatch.MatchSession.Answer` | api/app/match/session.py:374-385 | the answer is written to the ledger and is the message sent |
| `LiveMatch.MatchSession.Tick` | api/app/match/session.py:425-461 | one tick as specified in every phase |
| `LiveMatch.MatchSession.FinishRound` | api/app/match/session.py:463-515 | a decided round is scored, recorded and possibly ends the match, as specified |
| `LiveMatch.MatchSession.NextRound` | api/app/match/session.py:547-552 | the next plan screen, with plans, locks and round cleared |
| `LiveMatch.MatchSession.Abandon` | api/app/match/session.py:554-590 | abandoning ends the match at once, and not twice |
| `ExactlyOnce.RetryHoldsExactlyInsideWindow` | api/app/match/session.py:315-385 | a command not asked again meanwhile gets its first answer back, the match untouched, exactly while fewer than 512 newer ids of the seat lie between; from 512 on it is decided and written down afresh |
| `ExactlyOnce.RetryChangesNothing` | api/app/match/session.py:315-330 | inside the window that holds whatever happened in between, further retries of the command included |
| `ExactlyOnce.AnswerForgottenAfterRun` | api/app/match/commands.py:103-119 | an answer no longer asked for is gone after any run that spends as many ids as its place allows |
| `ExactlyOnce.AnswerSurvivesRun` | api/app/match/commands.py:92-119 | an answer in the ledger survives any run that spends fewer ids than its place allows |
| `ExactlyOnce.NoCommandTakenTwice` | api/app/match/session.py:315-372 | in any match, if a command is on record as accepted twice, in one round or across rounds, its seat spent at least 512 newer ids between the two actions that were taken |
| `TakenTwice.TakenAgainExactly` | api/app/match/session.py:315-372 | a command not asked again meanwhile is taken and recorded once more exactly when 512 newer ids were spent and the round then running refuses nothing about it |
| `TakenTwice.ResendIsTakenTwice` | api/app/match/session.py:315-372 | wherever a round would take a cast twice in a row, sending it, spending 512 ids on refused casts and sending it again puts it on record twice |
| `Instance.SomeCommandIsTakenTwice` | api/app/match/commands.py:103-119 | and some match on some server does |
| `Ledger.LedgerIsNewestOfHistory` | api/app/match/commands.py:103-119 | the ledger is always the newest entries of an unbounded first-answer history |
| `Ledger.AnswerHeldInsideWindow` | api/app/match/commands.py:92-119 | inside the window the first answer is found unchanged |
| `Ledger.AnswerForgottenPastWindow` | api/app/match/commands.py:103-119 | past it an id not asked again is forgotten |
| `Ledger.CommandLedger.FindAnswer` | api/app/match/commands.py:99-101 | the stored answer, or none |
| `Ledger.CommandLedger.Record` | api/app/match/commands.py:103-119 | first answer wins; a new one is appended and the oldest evicted until the bound holds |
| `Secrecy.SameSnapshots` | api/app/match/session.py:594-652 | two sessions that differ only in the other seat's plan, lock, loadout, energy and ledger, and in the server's record, give one seat the same snapshot |
| `Views.SnapshotCarries` | api/app/match/session.py:594-633 | what every snapshot carries: seat, round, score and live bases, and the phase's own view |
| `Views.BattleShown` | api/app/match/wire.py:178-211 | in battle: the clock, score and casts, every living unit once with its own numbers in order of id, and the seat's own energy and loadout |
| `Views.LanesShown` | api/app/sim/zones.py:50-85 | a lane shows as held by a side exactly when it alone has a living mage in the square about the lane's middle |
| `Views.PlanningShown` | api/app/match/session.py:614-698 | while planning: the seat's own lock and loadout, and once locked its own units as its plan would open on both sides, nobody else's |
| `Views.PlanShown` | api/app/match/session.py:635-652 | the plan shown is the suggestion with the seat's own plan over it |
| `Secrecy.PlanningHidesTheOtherSeat` | api/app/match/session.py:614-687 | two runs in which a seat did the same things leave it the same snapshot, whatever the other planned, locked or tried, for as long as both are planning |
| `Secrecy.BattleHidesTheOtherSeat` | api/app/match/wire.py:178-211 | from the whistle on, the snapshot is a function of the seat's own doings, time and spells seen landing: refused and repeated casts, energy and loadout of the other never show |
| `Secrecy.WhistleTheSame` | api/app/match/session.py:279-311 | two planning states a seat cannot tell apart, against the same troops with any spells, start battles it cannot tell apart |
| `Secrecy.RoundHidesTheOtherSeat` | api/app/match/session.py:594-698 | from the plan screen through the battle: runs in which a seat did the same, met the same troops and saw the same land leave it the same snapshot, so of the other's plan only the troops ever show |
| `MatchSecrecy.MatchHidesTheOtherSeat` | api/app/match/session.py:594-698 | two whole matches, however many rounds, in which a seat did the same, faced the same troops at each whistle and saw the same spells land have sent it the same snapshot |
| `MatchSecrecy.MatchFollowsSights` | api/app/match/session.py:594-698 | and so from any two states of a match the seat cannot tell apart |
| `Secrecy.UnlandedUnseen` | api/app/match/session.py:315-372 | a refused or repeated cast by the other seat changes nothing this one can see |
| `Secrecy.OwnCastTheSame` | api/app/match/session.py:315-385 | the answer a seat gets is decided by what it can see |
| `MatchFacts.BasesNeverRecover` | api/app/match/session.py:463-491 | no base ever recovers, within a round or between rounds |
| `MatchFacts.RoundsOpenOnWhatWasLeft` | api/app/match/session.py:279-311 | the first recorded round opened on full bases and each later one on what the one before left |
| `MatchFacts.TestProfileStops` | api/app/match/session.py:517-545 | a test profile finishes at most its number of rounds |
| `MatchFacts.MatchesEndAsRuled` | api/app/match/session.py:517-545 | a match still going has nobody with rounds enough; one that is over ended as its result says |
| `MatchScore.RoundsGoToTheirWinners` | api/app/match/session.py:463-491 | over every match each side's count is the number of finished rounds that ended in its favour |
| `MatchScore.MatchesGoToTheirWinners` | api/app/match/session.py:517-545 | a match over ended for what its rounds came to: a fallen base under that round's winner, a test profile on its last round, else exactly enough rounds won by the side that won the last; until then nobody has enough and no base fell |
| `MatchFacts.SeatsPayForWhatTheyCast` | api/app/match/round.py:329-393 | over any course of a round a seat's energy stays in [0, cap] and what it spent is exactly what its accepted casts cost |
| `Energy.PoolRefinesBalance` | api/app/match/round.py:70-104 | the two ledgers refine one balance: min(cap, balance + gain), and balance - cost |
| `Energy.LedgersRefineBalance` | api/app/match/round.py:70-104 | and do over every history of accruals and affordable payments |
| `Energy.SeatEnergy.Accrue` | api/app/match/round.py:96-98 | accrual as specified |
| `Energy.SeatEnergy.Spend` | api/app/match/round.py:103-104 | spending as specified |
| `Round.RoundEndsWithinLimit` | api/app/match/round.py:234-248 | left alone a round is over by the tick its clock allows |
| `Round.RoundStepInvariant` | api/app/match/round.py:234-292 | a step keeps the queue sorted, orders 1..n and ticks nondecreasing; a stopped runner always means a decided ending; bases never rise |
| `Round.RoundCastInvariant` | api/app/match/round.py:329-393 | a cast, taken or refused, keeps them too and moves neither clock nor bases |
| `Round.EndingIsImpartial` | api/app/match/round.py:250-325 | deciding the ending commutes with swapping north and south |
| `Round.FallenBaseNeverWins` | api/app/match/round.py:250-292 | a base at zero always ends the match and never under its own side's win; both down is a draw |
| `RoundLaws.VerdictsExactly` | api/app/match/round.py:250-285 | when each verdict short of the clock is given, read off bases, living units and zone score: base down, side wiped out, or the higher score at 240 or more |
| `RoundLaws.ClockVerdictsExactly` | api/app/match/round.py:280-325 | when time decides, for the higher score, then the higher base, then nobody; and when the round goes on |
| `RoundLaws.CastTakenExactly` | api/app/match/round.py:329-393 | a cast is taken exactly when the round is on, the tap within 40 ticks or undated, the spell held, the place on the map and the pool enough; each refusal exactly when its test is the first to fail |
| `RoundLaws.CastDoesExactly` | api/app/match/round.py:355-393 | an accepted cast queues one injection for the next tick, of that spell, place and side, charges that seat its price, and adds one line to the casts; nothing else changes |
| `RoundLaws.QueueHoldsCastsToCome` | api/app/match/round.py:329-393 | over any course of a round the queue is exactly the accepted casts whose tick has not come, each as accepted |
| `RoundLaws.LandsOnItsTick` | api/app/sim/phases/spells.py:24-49 | so what lands on a tick is exactly what was accepted for it |
| `RoundLaws.TickPaysExactly` | api/app/match/round.py:234-248 | a tick pays a seat four a second, up to the cap |
| `RoundLaws.RunnerStopsExactly` | api/app/sim/run_battle.py:108-185 | when a battle stops of itself and what it reports: a base at nothing, north first, then a side with no units |
| `Round.AuthoritativeRound.Step` | api/app/match/round.py:234-248 | the mutable round steps as specified |
| `Round.AuthoritativeRound.Cast` | api/app/match/round.py:329-393 | and takes or refuses a cast as specified |
| `Battle.StepBattleContract` | api/app/sim/run_battle.py:97-105 | a tick goes up by one, takes the due spells off the front of the queue and raises no base |
| `Battle.RunnerStepKeepsQueue` | api/app/sim/run_battle.py:164-185 | stepping keeps the spell queue sorted |
| `Battle.BattleRunner.Step` | api/app/sim/run_battle.py:164-185 | the runner steps as specified |
| `Battle.BattleRunner.RunToEnd` | api/app/sim/run_battle.py:187-189 | running to the end always gets there |
| `Battle.BattleRunner.Inject` | api/app/sim/run_battle.py:191-210 | an injection is refused when late or unknown, else inserted in order |
| `SpellQueue.LiveCastsFireAsIfScheduled` | api/app/sim/run_battle.py:191-210 | any interleaving of live injections and ticks fires, tick by tick, what scheduling everything up front would have |
| `SpellQueue.ArrivalOrderIsForgotten` | api/app/sim/spells.py:62-77 | two injections inserted in either order leave the same queue |
| `SpellQueue.BisectRight` | api/app/sim/run_battle.py:205-210 | the binary search finds where everything not greater ends |
| `SpellQueue.InsertAtIsInsertRight` | api/app/sim/run_battle.py:205-210 | inserting there is inserting behind every equal key |
| `SpellQueue.TakeDue` | api/app/sim/phases/spells.py:24-49 | the loop takes exactly the due front of the queue |
| `SpellQueue.OrderIsTotal` | api/app/sim/spells.py:62-77 | the key orders all injections |
| `Plan.ParsePlan` | api/app/match/plan.py:69-115 | the parser, entry by entry, or its first fault |
| `Plan.StoredPlanReadsBack` | api/app/match/plan.py:69-145 | whatever parsed, the stored plan parses back to itself |
| `Plan.TidyPlanReadsBack` | api/app/match/plan.py:118-145 | every plan the parser can produce reads back from its JSON |
| `Plan.ParsedPlanIsTidy` | api/app/match/plan.py:69-115 | what it produces: trimmed names, slots within the limit |
| `Plan.ValidatePlan` | api/app/match/plan.py:189-244 | the running checks accept exactly the legal plans: cap, known mages, legal orders, school support, capacity, the shared pool, eligible spells |
| `Edits.LegalExactly` | api/app/match/plan.py:189-244 | what a legal plan is, field by field: one troop to the cap, each of a known mage with an order on the map and known summons of its schools within its capacity, no summon fielded oftener than owned, every spell on the roster and one its mages grant |
| `Plan.LoadoutComesFromCatalog` | api/app/match/plan.py:277-301 | every spell in a loadout is the catalogue's, at the catalogue's price |
| `Opening.LegalPlansOpen` | api/app/sim/world.py:350-452 | any two legal plans build a world on a coherent catalogue, refused exactly when a carried base is spent or above its maximum |
| `Opening.OpenedMeansSound` | api/app/sim/world.py:350-452 | whatever opens was given a coherent map, sound cards and standing bases, and its unit ids are all distinct |
| `Fielding.PlansOpenAsListed` | api/app/sim/world.py:350-452 | legal plans open on exactly the units they list, north's then south's, troop by troop, each mage before its summons, on its own card at full strength; carried bases, tick 0, no score, empty queue |
| `Fielding.LoadoutAsSlotted` | api/app/match/plan.py:277-301 | a loadout is the spells the slots name, in order, each at the catalogue's id, name and price, its text from the mages that carry the tags it reads |
| `Fielding.ContributorsExactly` | api/app/match/plan.py:248-260 | a mage contributes to a spell exactly by each tag of its own that the spell reads |
| `Cards.IndexedExactlyWhenSound` | api/app/sim/units.py:53-101 | cards are indexed exactly when none is defined twice and none is faulty by itself, each under its own id |
| `Cards.CardsExactlyWhenSound` | api/app/sim/world.py:355-362 | a battle accepts its cards exactly when they are so and every ability they name is known |
| `Cards.BuildUnitTypeCatalog` | api/app/sim/units.py:91-101 | the loop indexes the cards or stops at the first fault, as specified |
| `Opening.UnitIdInjective` | api/app/sim/world.py:364-387 | no two members of a battle can share an id |
| `BattleMap.ValidateMapConfig` | api/app/sim/map.py:149-196 | the loops accept exactly the coherent maps |
| `BattleMap.ShippedMapIsValid` | api/app/sim/map.py:99-124 | the shipped map is one |
| `Zones.ZoneOccupancy` | api/app/sim/zones.py:55-85 | one pass over the units gives each lane the occupancy counted lane by lane |
| `Zones.HeldMeansAloneOnHotspot` | api/app/sim/zones.py:50-52 | a lane is held by a side exactly when it has a living mage on the hotspot and the other has none |
| `Zones.OnlyOneZone` | api/app/sim/map.py:203-212 | on a valid map the lane found is the only one a position is in |
| `Clock.Run` | api/app/match/clock.py:73-101 | the pacing loop leaves each turn on the specified deadline |
| `Clock.NoTickIsEarly` | api/app/match/clock.py:73-87 | the n-th tick comes no sooner than n intervals after the start |
| `Clock.CatchUpIsBounded` | api/app/match/clock.py:80-87 | between any two ticks the clock moves an interval for each, short of ten at most |
| `PlanEditor.EditKeepsExactly` | client/src/plan/planReducer.ts:22-126 | from any plan within pool and capacity, mages repeated or not, an edit keeps both exactly when it is safe: what fielding draws fits its mage, what is added the pool has for every troop of that mage and each has room, or the screen refuses it |
| `PlanEditor.SessionKeepsExactly` | client/src/plan/planReducer.ts:22-126 | a whole session from any such plan stays within both throughout exactly when every edit was safe as it was made |
| `PlanEditor.EditKeepsApart` | client/src/plan/planReducer.ts:22-126 | no edit of any plan makes a mage lead twice, passes the cap or puts one spell in both slots |
| `Edits.FieldingDoes` | client/src/plan/planReducer.ts:52-92 | fielding adds one troop at the end, with of each default summon as many as are wanted and left, on the first free lane or else the base; or is refused |
| `Edits.UnfieldingDoes` | client/src/plan/planReducer.ts:27-31 | unfielding removes that mage's troops and keeps every other, in order |
| `Edits.AddingDoes` | client/src/plan/planReducer.ts:94-111 | adding gives every troop of the mage one more of the summon and touches no other |
| `Edits.AddRefusedExactly` | client/src/plan/planReducer.ts:94-105 | it is refused exactly when none is left or the mage's first troop has not the room |
| `Edits.RemovingDoes` | client/src/plan/planReducer.ts:34-38 | removing takes one of the summon from every troop of the mage that has it |
| `Edits.OrderingDoes` | client/src/plan/planReducer.ts:39-40 | ordering sets the order of that mage's troops alone |
| `Edits.EquippingDoes` | client/src/plan/planReducer.ts:113-128 | a spell the plan may take goes in the slot and out of the other; any other changes nothing |
| `Edits.ClearingDoes` | client/src/plan/planReducer.ts:43-44 | clearing empties that slot alone |
| `Edits.AddThenRemove` | client/src/plan/planReducer.ts:94-111 | adding a summon and removing it leaves every troop with what it had |
| `PlanEditor.EveryEditKeeps` | client/src/plan/planReducer.ts:22-126 | so where mages are distinct and default entourages fit, every edit keeps mages distinct and within the cap, the pool, each troop's capacity and the slots |
| `PlanEditor.EditingKeepsExactlyIfEntouragesFit` | client/src/plan/planReducer.ts:52-76 | from any starting plan of distinct mages, all editing sessions keep all that exactly if every default entourage fits its mage |
| `Suggestion.SuggestsDistinctExactly` | api/app/match/fixtures.py:210-240 | the plan the server suggests fields distinct mages exactly when the roster has as many as the cap |
| `Suggestion.OpeningPlanIsLegal` | api/app/match/fixtures.py:210-240 | with the shipped roster the suggestion is one the server would field, on any map |
| `Suggestion.OpeningPlanCanBeOverdrawn` | client/src/plan/planReducer.ts:94-111 | and there one allowed edit, a hound more for the one mage, fields six hounds of four and makes it a plan no server fields |
| `PlanEditor.ServerAcceptsExactly` | api/app/match/plan.py:189-244 | a plan within cap, pool and capacity, mages repeated or not, is legal on the server exactly when it has a troop, admissible orders, supported summons and no stranded spell |
| `PlanEditor.RemainingSummons` | client/src/plan/derive.ts:132-140 | the loops compute what the roster has left of each summon |
| `PlanEditor.DrawEntourage` | client/src/plan/planReducer.ts:59-65 | the entourage is drawn in order from what is left |
| `PlanEditor.SmallerPoolDrawsLess` | client/src/plan/planReducer.ts:59-65 | a smaller pool never draws a costlier entourage |
| `PlanEditor.NewTroopTakesFreeLane` | client/src/plan/planReducer.ts:78-92 | a new troop is sent to the first lane nobody holds, else to the base |
| `Coordination.ComposeProfile` | api/app/sim/ai/coordination.py:95-126 | the loop sums every tag's shift and clamps; the bounds always hold |
| `Coordination.GatherNeeds` | api/app/sim/ai/coordination.py:289-314 | the needs, one per enemy with a victim, worst first |
| `Coordination.Troop.Coordinate` | api/app/sim/ai/coordination.py:198-259 | the troop's assignments are rebuilt in place as specified |
| `Coordination.Troop.KeepAssignments` | api/app/sim/ai/coordination.py:222-237 | the first loop keeps the first still-good assignments the budget allows |
| `Coordination.Troop.StaffNeeds` | api/app/sim/ai/coordination.py:239-257 | the second answers needs in order while the budget lasts |
| `Guarding.NeedsExactly` | api/app/sim/ai/coordination.py:289-333 | each need is an armed enemy that menaces one of ours, for the one guarded first: a mage before a summon, then the least of its health left, then the lower id; and every such enemy is in one |
| `Guarding.NeedsInOrder` | api/app/sim/ai/coordination.py:336-340 | no need for a summon precedes one for a mage, the more hurt ward first within a kind |
| `Guarding.AssignmentsReadOff` | api/app/sim/ai/coordination.py:356-368 | every assignment sends a living armed member, not the ward, with that enemy in reach, or in reach and leash if it can walk |
| `Guarding.NearestIsSent` | api/app/sim/ai/coordination.py:371-395 | whoever is newly sent is nearest of all left free that could go, ties to the lower id |
| `Guarding.NobodyIsSpared` | api/app/sim/ai/coordination.py:239-257 | with budget to spare no unanswered need has anyone free that could answer |
| `Guarding.HonouredExactly` | api/app/sim/ai/coordination.py:222-237 | a standing assignment is good exactly while its need stands for the same ward, its window is open and the unit could still answer |
| `Guarding.BudgetExactly` | api/app/sim/ai/coordination.py:218-220 | the budget is the defenders or half the living rounded down, whichever is less |
| `Guarding.LeaderIsLowest` | api/app/sim/ai/coordination.py:168-190 | habits are read from the lowest-id living mage that has any |
| `Guarding.ProfileAddsUp` | api/app/sim/ai/coordination.py:95-126 | each habit is its baseline and every tag's shift, kept in its bounds |
| `Allocation.NeedsAreTheThreats` | api/app/sim/ai/coordination.py:289-333 | the needs are exactly the living armed enemies threatening a living member, each on behalf of the neediest it threatens |
| `Allocation.TickIsSound` | api/app/sim/ai/coordination.py:198-259 | after any tick: sorted by unit, one per unit and per target, each to a fit member for a real need, never more than the defenders or half the living |
| `Allocation.BudgetGoesToTheWorst` | api/app/sim/ai/coordination.py:239-257 | needs are settled strictly worst first, each new one by the nearest free unit; leftover budget means no unanswered need has a free fit defender |
| `Allocation.CommitmentIsHonoured` | api/app/sim/ai/coordination.py:222-237 | a good assignment inside its window is kept unless the budget shrank; anything else is let go |
| `Allocation.NeverSwappedMidway` | api/app/sim/ai/coordination.py:28-36 | over any number of ticks that keep its premise and the budget, an assignment stands unchanged |
| `Allocation.RunStaysOrderly` | api/app/sim/ai/coordination.py:198-259 | over every run of ticks the assignments stay in order and distinct |
| `Allocation.NobodyDefendsItself` | api/app/sim/ai/coordination.py:356-368 | nobody is asked to defend itself, and nobody dead or unarmed is asked |
| `Allocation.CoordinationForgetsOrder` | api/app/sim/ai/coordination.py:276-286 | with distinct ids, how the world lists its units changes no assignment |
| `Observing.ObservationForgetsOrder` | api/app/sim/ai/observe.py:100-132 | what a unit sees, and so every candidate and decision, does not depend on how the world lists its units |
| `Observing.EnemiesStayDistinct` | api/app/sim/ai/observe.py:114-116 | it sees exactly the living enemies, each once |
| `Candidates.GenerateCandidates` | api/app/sim/ai/candidates.py:393-432 | the candidate list as the server builds, deduplicates and sorts it |
| `Candidates.Deduplicate` | api/app/sim/ai/candidates.py:426-430 | the first candidate under each key is kept |
| `Candidates.ApproachAll` | api/app/sim/ai/candidates.py:408-412 | approaches and screens for every answerable enemy, in order |
| `Candidates.WithdrawFrom` | api/app/sim/ai/candidates.py:295-344 | withdrawals from those worth backing off from |
| `Candidates.AttackAll` | api/app/sim/ai/candidates.py:417-420 | a swing for each enemy in reach |
| `Legality.CandidatesAreSorted` | api/app/sim/ai/candidates.py:393-432 | candidates come out in strict key order, nothing twice, every offer under its key, holding always among them |
| `Offers.CandidatesAreTheOffers` | api/app/sim/ai/candidates.py:173-432 | what a unit chooses among is exactly what it is due, one for each key: holding, its post, closing on, screening against or backing off from what it answers, giving ground, swinging at what it reaches, casting what it can pay for |
| `Offers.ScreensCover` | api/app/sim/ai/positioning.py:128-190 | a screen covers the ally its assignment names, else the ally nearest the threat, else its post |
| `Legality.RecoveryStopsChasing` | api/app/sim/ai/candidates.py:144-170 | a recovering unit is offered no advance at any enemy |
| `Legality.AdvanceIsNeverEngaging` | api/app/sim/ai/candidates.py:209-261 | no advance at an enemy is called engaging, so the branch for it in committing is never taken |
| `Legality.CapabilitiesComeFirst` | api/app/sim/ai/candidates.py:402-422 | what cannot move is offered no step, what cannot strike no blow, an empty gauge no cast |
| `Legality.EveryTargetInReachIsOffered` | api/app/sim/ai/candidates.py:417-420 | every enemy in an armed unit's reach is offered |
| `Legality.AdvanceClosesIn` | api/app/sim/ai/candidates.py:229-260 | an advance at an enemy, approach or screen, ends nearer it than it began |
| `Legality.WithdrawalOpensTheGap` | api/app/sim/ai/candidates.py:295-344 | a withdrawal ends at useful range and opens the gap exactly when the two are not on one spot |
| `Legality.BaseStaysOffLimits` | api/app/sim/ai/candidates.py:122-132 | a unit not ordered to push is never offered the base to advance on or retreat to |
| `Legality.BaseIsOfferedExactly` | api/app/sim/ai/candidates.py:295-344 | a unit not ordered to push is offered the base to move to exactly when it answers an enemy it outranges, nearer than useful range and closing in, with useful range landing on the base; and to hold on, exactly when it stands there |
| `Legality.WithdrawalCanHeadForTheBase` | api/app/sim/ai/candidates.py:336-342 | the concrete case: an archer, a brawler two units off, and the base where the archer backs off to |
| `Scoring.WakeWeights` | api/app/sim/ai/scoring.py:419-474 | the loops move the weights by exactly the says they record, then clamp |
| `Scoring.InfluencesExplainWeights` | api/app/sim/ai/scoring.py:442-466 | each weight before the clamp is the standing one plus what the recorded influences say of it |
| `Scoring.HeardExactly` | api/app/sim/ai/scoring.py:442-466 | the recorded influences are exactly what every matching rule of every tag says |
| `Scoring.ScoreIsTheMean` | api/app/sim/ai/scoring.py:477-508 | a score is the weighted mean of the four verdicts cut to [-1, 1], nothing where the weights sum to nothing |
| `Scoring.LoneCareDecides` | api/app/sim/ai/scoring.py:477-508 | a unit that weighs one thing scores by that verdict alone |
| `Scoring.ScoreIsBounded` | api/app/sim/ai/scoring.py:477-508 | every score is in [-1, 1] whatever the verdicts, rules and strengths, unless a standing weight no personality touches is negative |
| `Scoring.ResolvedIsInRange` | api/app/sim/ai/profiles.py:726-756 | composed standing weights are always in range |
| `Scoring.BoundedExactlyWhenNotNegative` | api/app/sim/ai/scoring.py:437-438 | with no personality to clamp them, standing weights keep every judge's scores in bounds exactly when none is negative or they sum to nothing |
| `Deciding.Select` | api/app/sim/ai/decide.py:114-120 | the loop finds the first highest score |
| `Deciding.BestIs` | api/app/sim/ai/decide.py:114-120 | nothing scores higher and everything earlier scores lower |
| `Deciding.RegretIsBounded` | api/app/sim/ai/decide.py:123-248 | the action taken is a candidate scoring at most 0.10 below any other; with jitter, at most the larger of 0.10 and the jitter |
| `Steadiness.DecidedExactly` | api/app/sim/ai/decide.py:84-248 | a decision in full: the first best, jitter and all; unless beaten by more than 0.02 the enemy chased in bounds, then last tick's action; and standing unless a step is worth 0.06 more |
| `Steadiness.HabitIsKept` | api/app/sim/ai/decide.py:158-203 | what a unit was doing it goes on doing while that scores within 0.02 of the best, unless it was moving and stands |
| `Steadiness.ChaseIsKept` | api/app/sim/ai/decide.py:123-155 | a chase in bounds is left only for habit, standing, or what beats it by more than 0.02 |
| `Deciding.StepsAreWorthTaking` | api/app/sim/ai/decide.py:206-248 | a step is taken only when worth 0.06 more than standing |
| `Deciding.Creature.Think` | api/app/sim/phases/decision.py:64-84 | the mutable unit decides as specified and stores intent, chase and recovery |
| `Chases.ChaseAfterDecision` | api/app/sim/ai/decide.py:251-289 | what one decision does to a chase: a held one means no recovery and no bound broken; a bound broken starts recovery; recovery counts down |
| `Chases.ReleasedExactlyOutOfBounds` | api/app/sim/ai/pursuit.py:168-201 | a chase is released exactly when a bound is broken |
| `Chases.ReleaseReasonsExactly` | api/app/sim/ai/pursuit.py:168-201 | which bound is named, and in what order they are asked: 96 from where it began, a second without a tenth of the gap shut, three seconds in all |
| `Chases.GoneReleases` | api/app/sim/ai/pursuit.py:168-201 | and a quarry no longer there |
| `Chases.CommittedExactly` | api/app/sim/ai/decide.py:251-289 | what a decision in bounds leaves of the chase, and what it is called, by what was chosen |
| `Chases.RecoveryLasts` | api/app/sim/ai/decide.py:292-295 | recovery is two seconds of whole ticks, never less than one |
| `Chases.OnlyBoundsCostRecovery` | api/app/sim/ai/decide.py:265-289 | a chase that ends starts recovery exactly if a bound ended it; dropped or switched by choice it costs nothing |
| `Chases.HeldMeansRested` | api/app/sim/ai/decide.py:274-289 | over every run a unit holding a chase is not recovering |
| `Chases.EveryChaseHasABeginning` | api/app/sim/ai/pursuit.py:204-212 | over every run a held chase began where its leash is tied and was inside every bound at each decision since |
| `Chases.NoChaseOutlastsTimeout` | api/app/sim/ai/pursuit.py:197-199 | no chase is carried on at three seconds or more |
| `Chases.BoundBuysRecovery` | api/app/sim/ai/pursuit.py:148-165 | after a bound ends a chase, none is held and no advance at an enemy taken for the full recovery period |
| `Geometry.Triangle` | api/app/sim/geometry.py:16-19 | the triangle inequality |
| `Geometry.WalkCovers` | api/app/sim/geometry.py:22-32 | a walk covers exactly its step short of arriving, and never overshoots |
| `Geometry.PointStands` | api/app/sim/geometry.py:35-56 | a planted point stands exactly its reach from its origin, on the bearing's line |
| `Blocking.ClampToBlockers` | api/app/sim/blocking.py:44-65 | the loop lowers the allowance blocker by blocker to the specified one |
| `Blocking.BlockersExactly` | api/app/sim/blocking.py:35-41 | a unit respects exactly the living barricades of the other side |
| `Blocking.ClampShortensOnly` | api/app/sim/blocking.py:44-65 | the end is on the segment, as far along as allowed, and is the destination exactly when no barricade stops the step |
| `Blocking.ClampKeepsClear` | api/app/sim/blocking.py:11-16 | it is at least a radius from every barricade that held the destination and not the start |
| `Blocking.ClampForgetsOrder` | api/app/sim/blocking.py:35-41 | however the world lists its barricades |
| `Blocking.EndsInsideExactlyOnChord` | api/app/sim/blocking.py:44-65 | a clamped step ends inside a disc exactly when the distance walked falls on the chord the step's line cuts from it |
| `Blocking.ShortenedStepCanEndInsideAnother` | api/app/sim/blocking.py:44-65 | so a step cut short at one barricade can end inside another |
| `Tunnelling.TunnelsExactlyBeside` | api/app/sim/blocking.py:21-25 | a step goes through a disc it neither starts nor ends in exactly when the centre lies beside the step and nearer its line than the radius, and such a disc never stops it |
| `Tunnelling.EveryStepTunnelsSomeDisc` | api/app/sim/blocking.py:21-25 | at any speed: for every step and every radius some disc that wide is gone through, the clamp leaving the step as it was |
| `Tunnelling.TunnellingIsShallow` | api/app/sim/blocking.py:21-25 | but a step of length d that goes through a disc of radius r stays outside the square root of r² - d²/4 all along |
| `Tunnelling.WalkStaysClear` | api/app/sim/blocking.py:11-16 | and what does stop a step is never entered at any point of the walk, not only at its end |
| `Blocking.GrazingStepCrossesDisc` | api/app/sim/blocking.py:21-25 | the concrete case: three units, which the fastest card covers in a tick, across the shipped 26-unit disc |
| `EffectLaws.CardIsLawful` | api/app/sim/resolution.py:292-305 | any card on any field: damage conserved, defeats told, bases reported, friends unhurt |
| `EffectLaws.DamageIsConserved` | api/app/sim/resolution.py:107-138 | victims' meters rise by what is reported dealt and by what a living caster's meter rises; a survivor lost exactly what it took |
| `EffectLaws.EveryDefeatToldOnce` | api/app/sim/resolution.py:126-138 | exactly the fallen are reported and emitted, once each, and left on zero |
| `EffectLaws.BaseChangeIsReported` | api/app/sim/resolution.py:141-158 | the base change reported is the real one; never up, never below zero, never one's own |
| `EffectLaws.EffectIsLawful` | api/app/sim/resolution.py:282-305 | and so for each primitive by itself |
| `CardFacts.BlastHitsExactly` | api/app/sim/resolution.py:213-219 | a blast unit by unit: each living enemy in the radius loses the whole blow, down to zero, more if a mage; everyone else keeps all; the enemy base is chipped exactly when counted and reached |
| `CardFacts.BurnLightsExactly` | api/app/sim/resolution.py:179-240 | a burn unit by unit: those in the radius or the spread of one that is burn with the stronger of old and new on each axis, at the card's strength and length; nothing else changes |
| `CardFacts.GroundLeftBurning` | api/app/sim/resolution.py:243-258 | burning ground: one patch more under a fresh number, centred, sized and lasting as the card says, credited to the caster |
| `CardFacts.RefillFeedsExactly` | api/app/sim/resolution.py:271-278 | a refill: each living friend in the radius with an ability gains the amount once, the caster only if included |
| `CardFacts.ShoveCarriesExactly` | api/app/sim/resolution.py:161-176 | a shove: each movable living enemy in the radius off the origin goes straight away by the distance, back onto the map; nobody else moves |
| `CardFacts.DashCoversExactly` | api/app/sim/resolution.py:198-210 | a dash covers exactly its reach, or up to where it means to stop, and the origin follows when it should; otherwise nothing |
| `CardFacts.DeclaredOrder` | api/app/sim/resolution.py:292-305 | effects happen in the order declared |
| `CardFacts.KillsGoToTheCaster` | api/app/sim/resolution.py:107-138 | every unit a card fells is credited to its caster, or to nobody |
| `Burning.BurnSpreadsOneHop` | api/app/sim/resolution.py:222-240 | lit are exactly the enemies in radius and those within the spread of one of them; the rest untouched |
| `Burning.MergedAllIsStrongest` | api/app/sim/resolution.py:179-195 | after any applications each axis is the strongest there was, credit to one of the strongest |
| `Burning.BurnsForgetOrder` | api/app/sim/resolution.py:179-195 | whatever their order or repetition |
| `Burning.DashStopsShort` | api/app/sim/resolution.py:198-210 | a dash covers at most its reach, never ends nearer than it means to, and never moves an emplacement |
| `Burning.ShoveStaysOnMap` | api/app/sim/resolution.py:161-176 | a shove stays on the map, carries no further than it says, and leaves one on the origin in place |
| `Resolution.Body.Ignite` | api/app/sim/resolution.py:179-195 | a burn is refreshed in place as specified |
| `Resolution.Cast.DamageUnit` | api/app/sim/resolution.py:107-138 | a blow in place as specified |
| `Resolution.Cast.DamageBase` | api/app/sim/resolution.py:141-158 | a base chipped in place as specified |
| `Resolution.Cast.Blast` | api/app/sim/resolution.py:213-219 | an area blow, victim by victim |
| `Resolution.Cast.Kindle` | api/app/sim/resolution.py:222-240 | a burn and its spread |
| `Resolution.Cast.Dash` | api/app/sim/resolution.py:198-210 | a dash |
| `Resolution.Cast.ScorchGround` | api/app/sim/resolution.py:243-258 | burning ground |
| `Resolution.Cast.Shove` | api/app/sim/resolution.py:261-268 | a knockback |
| `Resolution.Cast.Refill` | api/app/sim/resolution.py:271-278 | an energy refill |
| `Resolution.Cast.Apply` | api/app/sim/resolution.py:292-305 | the whole card in place, each effect on the field the last one left |
| `Formation.SlotsApart` | api/app/sim/formation.py:84-92 | any two slots of any troop are a column apart or half a rank apart |
| `Formation.SlotsFitBand` | api/app/sim/formation.py:76-92 | every slot keeps half a column clear of the band's edges |
| `Ranks.ColumnsExactly` | api/app/sim/formation.py:68-73 | a rank is as wide as the troop, the band and fourteen allow, and no narrower |
| `Ranks.SummonsFillRanks` | api/app/sim/formation.py:76-107 | summons fill one rank before the next, each centred and 24 behind the last |
| `Ranks.MagesFillRanks` | api/app/sim/formation.py:104-115 | mages likewise, behind the last rank of summons by 24, or 12 when pushing |
| `Ranks.SetBackExactly` | api/app/sim/formation.py:173-205 | how far back a slot asks to open: half a column, its depth, and under Defend all the depth to spare |
| `Ranks.PushStandsAtTheirBase` | api/app/sim/formation.py:229-255 | pushing, a unit stands off the enemy base by its place in the formation, kept on the map |
| `Ranks.DefendStandsInOwnStrip` | api/app/sim/formation.py:229-255 | defending, off the middle of its own strip, kept in it |
| `Ranks.HoldStandsInItsLane` | api/app/sim/formation.py:229-255 | holding, off the middle of its lane, kept in it and out of the chip corner |
| `Formation.MagesBehindSummons` | api/app/sim/formation.py:117-125 | mages stand at least half a rank behind every summon |
| `Formation.PartsTile` | api/app/sim/formation.py:168-170 | the parts of a span tile it without overlap |
| `Formation.BandShares` | api/app/sim/world.py:329-347 | two passes give each troop its place among those that share its order |
| `Formation.SharedBandsDoNotOverlap` | api/app/sim/formation.py:141-170 | troops of one order get parts of their own that do not overlap |
| `Stations.NeverNearerExactly` | api/app/sim/formation.py:173-226 | how near two units can open, of one troop or two, however deep: no draws bring them nearer than a gap exactly when what their slots and the strip leave between them, across less both draws and in depth, is at least that |
| `Stations.TroopOpensSpread` | api/app/sim/formation.py:173-226 | in a troop whose deepest rank fits the strip, no draws open two units nearer than half a rank |
| `Stations.TooDeepCanStack` | api/app/sim/formation.py:217-226 | in one that does not, two units of one column both past the back of the strip can open on one spot |
| `Stations.TroopsOpenSpread` | api/app/sim/formation.py:173-226 | units of two troops whose parts do not overlap, however deep, never open nearer than half a column, or half its part if narrower, from each, less both draws |
| `Stations.OpensOnItsSlot` | api/app/sim/formation.py:173-226 | each unit opens on its own slot by its draw, or at the back of the strip where its slot lies deeper |
| `Stations.OpensUnmovedExactlyWhenItFits` | api/app/sim/formation.py:173-226 | the strip moves no unit of a troop, whatever the draws, exactly when the deepest rank fits in it |
| `Stations.ClearExactlyWhenThereIsRoom` | api/app/sim/map.py:273-287 | leaving the chip corner keeps the lane exactly when the chip is strictly smaller than the lane on some axis |
| `Stations.HoldingStationsScore` | api/app/sim/formation.py:229-243 | every Hold station is in its lane and out of the chip corner |
| `Stations.LoneMageHoldsTheHotspot` | api/app/sim/formation.py:229-243 | a one-mage Hold troop stations its mage on the hotspot's centre exactly when the chip does not reach it |
| `Stations.LoneMageHoldsOnShippedMap` | api/app/sim/map.py:99-124 | on the shipped map it never does |

## Left out

- The simulation phases other than decisions, coordination, barricades and card
  effects: a battle tick is a record of functions with a contract (the tick is
  theirs to read, the due spells land, no base rises), the same in live play and replay.
- Floating-point rounding: numbers are exact reals, and the square root is a
  parameter assumed to be one.
- The random generator: draws are parameters, and a world is a function of its seed.
- The text of card effects and of refusals: an uninterpreted function, and error cases without their sentences.
- Sockets, the hub, accounts, the lobby, persistence and diagnostics notes.
- Scheduling between coroutines: a session's operations happen one at a time, as they do on its event loop.
- The preview of a deployment is not claimed to be the real opening: the second side's jitter depends on how many units the first drew for.
- An exception thrown part-way through starting a battle would leave plans set; that it is never thrown is proved, so the state it would leave is not modelled.
- Reading stored records that no server of this version wrote: text where a number belongs reads as an error rather than being converted.
- Threat pressure and the line of retreat it gives: one uninterpreted function of the observation.
- The four factor verdicts and when a personality's rule applies: uninterpreted functions of observation and candidate, so bounds on scores and regret hold for all of them.
- Aliasing between a world's units and the lists built from them outside card effects, which is the part that mutates units through such lists.
- Sets of ids are finite sets and dictionaries are maps or lists in insertion order; hash order is never read.
- ReplayProof.ReplayRefusedExactlyElsewhere: takes servers whose maps share an id to hold the same map, as the source compares ids alone; what replays on another map under the same id is not claimed.
- PlanEditor.ServerAcceptsExactly: spell ids are taken to be distinct, which the screen and the server each assume when they look one up.
- Legality.RecoveryStopsChasing: enemies are taken to have distinct ids, as every battle's opening is proved to give them.
- Stations.OpensOnItsSlot: takes a troop's part of the strip to be at least two units wide, room for one draw either way.
- Opening.LegalPlansOpen: the behaviour library attached to units, and the runner's checks of its spell, ability and school tables, are fixed content and no function of a plan, so they are not part of this model.
- Resonance, placements and summaries on the plan screen, and the other derived texts: labels over the same state.
