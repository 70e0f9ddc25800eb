/** The record of a run and the recorder that writes it (`api/app/match/run_record.py`). */
module Recording {
  import opened Common
  import opened JsonText
  import opened Plan
  import opened Round

  const RECORD_VERSION: int := 1
  const RULES_VERSION: int := 1
  const CONTENT_VERSION: int := 1

  datatype RecordedCast = RecordedCast(
    order: nat, tick: nat, side: Side, commandId: string, spellId: string, at: Vec2)

  datatype RecordedRound = RecordedRound(
    number: nat,
    seed: int,
    startingEnergy: real,
    baseHpAtStart: PerSide<real>,
    plans: PerSide<Json>,
    loadouts: PerSide<seq<LoadoutSpell>>,
    casts: seq<RecordedCast>,
    ending: Option<RoundEnding>,
    baseHpAtEnd: Option<PerSide<real>>)

  datatype MatchEnding =
    | MatchBaseDestroyed(winner: Option<Side>)
    | RoundsWon(side: Side)
    | TestComplete(roundWinner: Option<Side>)
    | Abandoned(forfeitTo: Option<Side>)

  datatype TerminalReason = BaseFellReason | AbandonedReason | RoundStopped(reason: RoundReason)

  datatype RunRecord = RunRecord(
    runId: string,
    matchId: string,
    gameMode: string,
    testProfile: bool,
    mapId: string,
    tickRate: int,
    maxBattleSeconds: real,
    rounds: seq<RecordedRound>,
    ending: Option<MatchEnding>,
    terminalReason: Option<TerminalReason>,
    roundsWon: Option<PerSide<nat>>,
    baseHp: Option<PerSide<real>>,
    recordVersion: int,
    rulesVersion: int,
    contentVersion: int)

  /** The record so far, and which of its rounds is still being written. */
  datatype Recorder = Recorder(record: RunRecord, current: Option<nat>) {

    predicate WellFormed() {
      current.Some? ==> current.value < |record.rounds|
    }

    function RoundStarted(entry: RecordedRound): Recorder {
      Recorder(record.(rounds := record.rounds + [entry]), Some(|record.rounds|))
    }

    function CastAccepted(cast: RecordedCast): (after: Recorder)
      ensures after.current == current && |after.record.rounds| == |record.rounds|
    {
      if current.None? || current.value >= |record.rounds| then this
      else
        var entry := record.rounds[current.value];
        this.(record := record.(rounds := record.rounds[current.value := entry.(casts := entry.casts + [cast])]))
    }

    function RoundFinished(ending: RoundEnding, baseHp: PerSide<real>): Recorder {
      if current.None? || current.value >= |record.rounds| then this
      else
        var entry := record.rounds[current.value].(ending := Some(ending), baseHpAtEnd := Some(baseHp));
        Recorder(record.(rounds := record.rounds[current.value := entry]), None)
    }

    function MatchFinished(ending: MatchEnding, reason: TerminalReason, won: PerSide<nat>, baseHp: PerSide<real>): Recorder {
      this.(record := record.(ending := Some(ending), terminalReason := Some(reason), roundsWon := Some(won), baseHp := Some(baseHp)))
    }
  }

  class RunRecorder {
    var record: RunRecord
    var current: Option<nat>

    function View(): Recorder
      reads this
    {
      Recorder(record, current)
    }

    constructor (record: RunRecord)
      ensures View() == Recorder(record, None)
    {
      this.record, current := record, None;
    }

    method RoundStarted(entry: RecordedRound)
      modifies this
      ensures View() == old(View()).RoundStarted(entry)
    {
      current := Some(|record.rounds|);
      record := record.(rounds := record.rounds + [entry]);
    }

    method CastAccepted(cast: RecordedCast)
      modifies this
      ensures View() == old(View()).CastAccepted(cast)
    {
      if current.None? || current.value >= |record.rounds| { return; }
      var entry := record.rounds[current.value];
      record := record.(rounds := record.rounds[current.value := entry.(casts := entry.casts + [cast])]);
    }

    method RoundFinished(ending: RoundEnding, baseHp: PerSide<real>)
      modifies this
      ensures View() == old(View()).RoundFinished(ending, baseHp)
    {
      if current.None? || current.value >= |record.rounds| { return; }
      var entry := record.rounds[current.value].(ending := Some(ending), baseHpAtEnd := Some(baseHp));
      record := record.(rounds := record.rounds[current.value := entry]);
      current := None;
    }

    method MatchFinished(ending: MatchEnding, reason: TerminalReason, won: PerSide<nat>, baseHp: PerSide<real>)
      modifies this
      ensures View() == old(View()).MatchFinished(ending, reason, won, baseHp)
    {
      record := record.(ending := Some(ending), terminalReason := Some(reason), roundsWon := Some(won), baseHp := Some(baseHp));
    }
  }
}
