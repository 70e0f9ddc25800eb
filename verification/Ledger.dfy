/** The command ledger (`api/app/match/commands.py`): one answer per command id,
    kept for the newest ids of each seat. */
module Ledger {
  import opened Common

  const MAX_ENTRIES_PER_SEAT: nat := 512

  datatype Rejection =
    | NotEnoughEnergy | NotEquipped | OutOfBounds | RoundOver
    | NotYourSeat | NotConnected | Stale | WrongPhase

  datatype LedgerEntry = LedgerEntry(
    commandId: string,
    accepted: bool,
    reason: Option<Rejection>,
    roundNumber: Option<int>,
    tick: Option<int>,
    order: Option<int>)

  datatype Message = CastOutcomeMessage(accepted: bool, commandId: string, reason: Option<Rejection>)

  /** The same answer every time it is asked for. */
  function ToMessage(entry: LedgerEntry): Message {
    if entry.accepted then CastOutcomeMessage(true, entry.commandId, None)
    else CastOutcomeMessage(false, entry.commandId, entry.reason)
  }

  /** One seat's ids in age order, oldest first, as an insertion-ordered dictionary keeps them. */
  type SeatLog = seq<LedgerEntry>

  ghost predicate DistinctIds(seat: SeatLog) {
    forall i, j :: 0 <= i < j < |seat| ==> seat[i].commandId != seat[j].commandId
  }

  function Find(seat: SeatLog, id: string): (found: Option<LedgerEntry>)
    ensures found.Some? ==> found.value in seat && found.value.commandId == id
    ensures found.None? ==> forall e :: e in seat ==> e.commandId != id
  {
    if seat == [] then None
    else if seat[0].commandId == id then Some(seat[0])
    else Find(seat[1..], id)
  }

  function Newest(seat: SeatLog, max: nat): SeatLog {
    if |seat| > max then seat[|seat| - max..] else seat
  }

  /** What `record` leaves a seat holding. */
  function Recorded(max: nat, seat: SeatLog, entry: LedgerEntry): SeatLog {
    if Find(seat, entry.commandId).Some? then seat else Newest(seat + [entry], max)
  }

  lemma {:induction false} FindAt(seat: SeatLog, i: nat)
    requires i < |seat| && DistinctIds(seat)
    ensures Find(seat, seat[i].commandId) == Some(seat[i])
  {
    if i > 0 {
      assert seat[0].commandId != seat[i].commandId;
      FindAt(seat[1..], i - 1);
    }
  }

  class CommandLedger {
    const max: nat
    var entries: PerSide<SeatLog>

    constructor (max: nat)
      ensures this.max == max && entries == Both([])
    {
      this.max := max;
      entries := Both([]);
    }

    method FindAnswer(side: Side, id: string) returns (found: Option<LedgerEntry>)
      ensures found == Find(entries.At(side), id)
    {
      var seat := entries.At(side);
      var i := 0;
      while i < |seat|
        invariant 0 <= i <= |seat|
        invariant Find(seat, id) == Find(seat[i..], id)
      {
        if seat[i].commandId == id { return Some(seat[i]); }
        i := i + 1;
      }
      found := None;
    }

    /** Keeps the answer, never overwriting; returns what the ledger now holds for the id. */
    method Record(side: Side, entry: LedgerEntry) returns (stored: LedgerEntry)
      modifies this
      ensures entries == old(entries).With(side, Recorded(max, old(entries.At(side)), entry))
      ensures var known := Find(old(entries.At(side)), entry.commandId);
              stored == if known.Some? then known.value else entry
    {
      var existing := FindAnswer(side, entry.commandId);
      if existing.Some? { return existing.value; }
      var seat := entries.At(side) + [entry];
      ghost var full := seat;
      while |seat| > max
        invariant |seat| <= |full| && seat == full[|full| - |seat|..]
        invariant |full| > max ==> |seat| >= max
        invariant |full| <= max ==> seat == full
      {
        seat := seat[1..];
      }
      entries := entries.With(side, seat);
      stored := entry;
    }
  }

  // ---- what a whole run of answers leaves behind ----

  ghost function RecordAll(max: nat, seat: SeatLog, asks: seq<LedgerEntry>): SeatLog
    decreases |asks|
  {
    if asks == [] then seat else RecordAll(max, Recorded(max, seat, asks[0]), asks[1..])
  }

  /** What one ask adds to the history: nothing, if it is a retry. */
  function FreshOne(seat: SeatLog, ask: LedgerEntry): SeatLog {
    if Find(seat, ask.commandId).None? then [ask] else []
  }

  /** The answers that were given for the first time: the unbounded history. */
  ghost function Fresh(max: nat, seat: SeatLog, asks: seq<LedgerEntry>): SeatLog
    decreases |asks|
  {
    if asks == [] then []
    else FreshOne(seat, asks[0]) + Fresh(max, Recorded(max, seat, asks[0]), asks[1..])
  }

  lemma RecordedIsNewest(max: nat, seat: SeatLog, ask: LedgerEntry)
    requires |seat| <= max
    ensures Recorded(max, seat, ask) == Newest(seat + FreshOne(seat, ask), max)
  {
    assert seat + [] == seat;
  }

  lemma RecordedStaysDistinct(max: nat, seat: SeatLog, entry: LedgerEntry)
    requires DistinctIds(seat) && |seat| <= max
    ensures DistinctIds(Recorded(max, seat, entry)) && |Recorded(max, seat, entry)| <= max
  {
    var longer := seat + [entry];
    if Find(seat, entry.commandId).None? {
      forall i, j | 0 <= i < j < |longer| ensures longer[i].commandId != longer[j].commandId {
        if j == |seat| { assert seat[i] in seat; }
      }
    }
  }

  lemma NewestOfNewest(s: SeatLog, rest: SeatLog, max: nat)
    ensures Newest(Newest(s, max) + rest, max) == Newest(s + rest, max)
  {
    if |s| > max {
      var cut := |s| - max;
      assert Newest(s, max) + rest == (s + rest)[cut..];
    }
  }

  lemma {:induction false} LedgerStaysDistinct(max: nat, seat: SeatLog, asks: seq<LedgerEntry>)
    requires DistinctIds(seat) && |seat| <= max
    ensures DistinctIds(RecordAll(max, seat, asks)) && |RecordAll(max, seat, asks)| <= max
    decreases |asks|
  {
    if asks != [] {
      RecordedStaysDistinct(max, seat, asks[0]);
      LedgerStaysDistinct(max, Recorded(max, seat, asks[0]), asks[1..]);
    }
  }

  /** The ledger is always the newest `max` entries of everything it ever answered afresh. */
  lemma {:induction false} LedgerIsNewestOfHistory(max: nat, seat: SeatLog, asks: seq<LedgerEntry>)
    requires |seat| <= max
    ensures RecordAll(max, seat, asks) == Newest(seat + Fresh(max, seat, asks), max)
    decreases |asks|
  {
    hide Recorded, FreshOne;
    if asks == [] {
      assert seat + [] == seat;
    } else {
      var ask, later := asks[0], asks[1..];
      RecordedIsNewest(max, seat, ask);
      var next := Recorded(max, seat, ask);
      LedgerIsNewestOfHistory(max, next, later);
      var rest := Fresh(max, next, later);
      NewestOfNewest(seat + FreshOne(seat, ask), rest, max);
      assert seat + (FreshOne(seat, ask) + rest) == (seat + FreshOne(seat, ask)) + rest;
    }
  }

  /** An answer is repeated word for word while fewer than `max` newer ids have been
      taken from that seat, counting from the moment it was given. */
  lemma AnswerHeldInsideWindow(max: nat, seat: SeatLog, i: nat, asks: seq<LedgerEntry>)
    requires DistinctIds(seat) && |seat| <= max && i < |seat|
    requires |seat| - i + |Fresh(max, seat, asks)| <= max
    ensures Find(RecordAll(max, seat, asks), seat[i].commandId) == Some(seat[i])
  {
    LedgerIsNewestOfHistory(max, seat, asks);
    LedgerStaysDistinct(max, seat, asks);
    var all := seat + Fresh(max, seat, asks);
    var kept := RecordAll(max, seat, asks);
    var at := if |all| > max then i - (|all| - max) else i;
    assert kept[at] == all[i] == seat[i];
    FindAt(kept, at);
  }

  /** And past that many, an id nobody has asked about again is forgotten. */
  lemma AnswerForgottenPastWindow(max: nat, seat: SeatLog, i: nat, asks: seq<LedgerEntry>)
    requires DistinctIds(seat) && |seat| <= max && i < |seat|
    requires forall a :: a in asks ==> a.commandId != seat[i].commandId
    requires |seat| - i + |Fresh(max, seat, asks)| > max
    ensures Find(RecordAll(max, seat, asks), seat[i].commandId) == None
  {
    LedgerIsNewestOfHistory(max, seat, asks);
    FreshAreAsked(max, seat, asks);
    var news := Fresh(max, seat, asks);
    var all := seat + news;
    var kept := RecordAll(max, seat, asks);
    forall e | e in kept ensures e.commandId != seat[i].commandId {
      var k :| 0 <= k < |kept| && kept[k] == e;
      var j := k + (|all| - |kept|);
      assert kept[k] == all[j];
      if j < |seat| { assert j > i; } else { assert e in news; }
    }
  }

  lemma {:induction false} FreshAreAsked(max: nat, seat: SeatLog, asks: seq<LedgerEntry>)
    ensures forall e :: e in Fresh(max, seat, asks) ==> e in asks
    decreases |asks|
  {
    if asks != [] { FreshAreAsked(max, Recorded(max, seat, asks[0]), asks[1..]); }
  }
}
