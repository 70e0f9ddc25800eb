/** The queue of scheduled casts (`api/app/sim/spells.py`, `phases/spells.py` and
    `BattleRunner.inject`): the order two injections compare in, the opening
    schedule, insertion of a cast taken live, and what each tick fires. */
module SpellQueue {
  import opened Common
  import opened Ordering

  datatype SpellInjection = SpellInjection(tick: int, spellId: string, location: Vec2, side: Side)

  function SideName(side: Side): string {
    if side == North then "north" else "south"
  }

  /** `injection_order`: the whole envelope, tick first. */
  predicate OrderLeq(a: SpellInjection, b: SpellInjection) {
    if a.tick != b.tick then a.tick < b.tick
    else if a.spellId != b.spellId then TextLeq(a.spellId, b.spellId)
    else if a.side != b.side then a.side == North
    else if a.location.x != b.location.x then a.location.x < b.location.x
    else a.location.y <= b.location.y
  }

  /** The key is the whole envelope, so it is a total order and not only a preorder. */
  lemma OrderIsTotal()
    ensures TotalPreorder(OrderLeq)
    ensures forall s: seq<SpellInjection> :: KeysDistinct(OrderLeq, s)
  {
    forall a, b ensures OrderLeq(a, b) || OrderLeq(b, a) {
      TextTotal(a.spellId, b.spellId);
    }
    forall a, b, c | OrderLeq(a, b) && OrderLeq(b, c) ensures OrderLeq(a, c) {
      OrderTransitive(a, b, c);
    }
    forall a, b | OrderLeq(a, b) && OrderLeq(b, a) ensures a == b {
      if a.spellId != b.spellId && a.tick == b.tick { TextAntisymmetric(a.spellId, b.spellId); }
    }
  }

  lemma OrderTransitive(a: SpellInjection, b: SpellInjection, c: SpellInjection)
    requires OrderLeq(a, b) && OrderLeq(b, c)
    ensures OrderLeq(a, c)
  {
    if a.tick == b.tick == c.tick {
      if TextLeq(a.spellId, b.spellId) && TextLeq(b.spellId, c.spellId) {
        TextTransitive(a.spellId, b.spellId, c.spellId);
      }
      if a.spellId == c.spellId && a.spellId != b.spellId { TextAntisymmetric(a.spellId, b.spellId); }
    }
  }

  /** `schedule_injections`: refuse an unknown spell or an opening-state tick, then sort. */
  function ScheduleInjections(injections: seq<SpellInjection>, catalog: set<string>): Result<seq<SpellInjection>, string> {
    if exists s :: s in injections && s.spellId !in catalog then Err("not in the spell catalog")
    else if exists s :: s in injections && s.tick < 1 then Err("tick 0 is the opening state")
    else Ok(Sort(OrderLeq, injections))
  }

  /** `bisect.bisect_right` over the keys: where an equal key would go last. */
  method BisectRight(pending: seq<SpellInjection>, x: SpellInjection) returns (at: nat)
    requires Sorted(OrderLeq, pending)
    ensures at <= |pending|
    ensures forall k :: 0 <= k < at ==> OrderLeq(pending[k], x)
    ensures forall k :: at <= k < |pending| ==> !OrderLeq(pending[k], x)
  {
    OrderIsTotal();
    var lo, hi := 0, |pending|;
    while lo < hi
      invariant 0 <= lo <= hi <= |pending|
      invariant forall k :: 0 <= k < lo ==> OrderLeq(pending[k], x)
      invariant forall k :: hi <= k < |pending| ==> !OrderLeq(pending[k], x)
    {
      var mid := (lo + hi) / 2;
      if OrderLeq(pending[mid], x) {
        forall k | 0 <= k <= mid ensures OrderLeq(pending[k], x) {
          assert k == mid || OrderLeq(pending[k], pending[mid]);
        }
        lo := mid + 1;
      } else {
        forall k | mid <= k < |pending| ensures !OrderLeq(pending[k], x) {
          assert k == mid || OrderLeq(pending[mid], pending[k]);
        }
        hi := mid;
      }
    }
    at := lo;
  }

  /** Inserting at the bisection point is the stable sorted insertion. */
  lemma {:induction false} InsertAtIsInsertRight(pending: seq<SpellInjection>, x: SpellInjection, at: nat)
    requires at <= |pending|
    requires forall k :: 0 <= k < at ==> OrderLeq(pending[k], x)
    requires forall k :: at <= k < |pending| ==> !OrderLeq(pending[k], x)
    ensures pending[..at] + [x] + pending[at..] == InsertRight(OrderLeq, x, pending)
  {
    if at > 0 {
      InsertAtIsInsertRight(pending[1..], x, at - 1);
      assert pending[..at] + [x] + pending[at..]
          == [pending[0]] + (pending[1..][..at - 1] + [x] + pending[1..][at - 1..]);
    }
  }

  /** How many injections at the front are due by `now`. */
  function DueCount(pending: seq<SpellInjection>, now: int): (due: nat)
    ensures due <= |pending|
    ensures forall k :: 0 <= k < due ==> pending[k].tick <= now
    ensures due < |pending| ==> pending[due].tick > now
  {
    if pending == [] || pending[0].tick > now then 0 else 1 + DueCount(pending[1..], now)
  }

  lemma DueCountUnique(pending: seq<SpellInjection>, now: int, due: nat)
    requires due <= |pending|
    requires forall k :: 0 <= k < due ==> pending[k].tick <= now
    requires due < |pending| ==> pending[due].tick > now
    ensures DueCount(pending, now) == due
  {
  }

  /** The spells phase's scan: take what is due off the front. */
  method TakeDue(pending: seq<SpellInjection>, now: int)
    returns (landing: seq<SpellInjection>, left: seq<SpellInjection>)
    ensures landing == pending[..DueCount(pending, now)]
    ensures left == pending[DueCount(pending, now)..]
  {
    var due := 0;
    while due < |pending| && pending[due].tick <= now
      invariant 0 <= due <= |pending|
      invariant forall k :: 0 <= k < due ==> pending[k].tick <= now
    {
      due := due + 1;
    }
    DueCountUnique(pending, now, due);
    landing, left := pending[..due], pending[due..];
  }

  // ---- a battle's casts, arriving between ticks ----

  datatype QueueEvent = Arrive(injection: SpellInjection) | TickOver

  /** What `inject` takes: a known spell, strictly ahead of the current tick. */
  predicate Admissible(x: SpellInjection, now: int, catalog: set<string>) {
    x.spellId in catalog && x.tick > now
  }

  /** What fires at each tick of a live battle, one batch per tick. */
  ghost function Fired(now: int, pending: seq<SpellInjection>, catalog: set<string>, events: seq<QueueEvent>)
    : seq<seq<SpellInjection>>
    decreases |events|
  {
    if events == [] then []
    else match events[0]
      case Arrive(x) =>
        Fired(now, if Admissible(x, now, catalog) then InsertRight(OrderLeq, x, pending) else pending,
              catalog, events[1..])
      case TickOver =>
        var due := DueCount(pending, now + 1);
        [pending[..due]] + Fired(now + 1, pending[due..], catalog, events[1..])
  }

  /** Every injection the battle took, in arrival order. */
  ghost function Taken(now: int, catalog: set<string>, events: seq<QueueEvent>): seq<SpellInjection>
    decreases |events|
  {
    if events == [] then []
    else match events[0]
      case Arrive(x) =>
        (if Admissible(x, now, catalog) then [x] else []) + Taken(now, catalog, events[1..])
      case TickOver => Taken(now + 1, catalog, events[1..])
  }

  ghost function TicksOnly(events: seq<QueueEvent>): seq<QueueEvent> {
    if events == [] then []
    else if events[0].TickOver? then [TickOver] + TicksOnly(events[1..])
    else TicksOnly(events[1..])
  }

  lemma {:induction false} TakenAreAhead(now: int, catalog: set<string>, events: seq<QueueEvent>)
    ensures forall x :: x in Taken(now, catalog, events) ==> Admissible(x, now, catalog)
    decreases |events|
  {
    if events != [] {
      TakenAreAhead(if events[0].TickOver? then now + 1 else now, catalog, events[1..]);
    }
  }

  lemma BeyondDue(p: seq<SpellInjection>, now: int)
    requires Sorted(OrderLeq, p)
    ensures forall x :: x in p[DueCount(p, now)..] ==> x.tick > now
  {
    var due := DueCount(p, now);
    forall x | x in p[due..] ensures x.tick > now {
      var j :| due <= j < |p| && p[j] == x;
      assert j == due || OrderLeq(p[due], p[j]);
    }
  }

  lemma SortBehindDue(front: seq<SpellInjection>, back: seq<SpellInjection>, now: int)
    requires Sorted(OrderLeq, front)
    requires forall x :: x in front ==> x.tick <= now
    requires forall x :: x in back ==> x.tick > now
    ensures Sort(OrderLeq, front + back) == front + Sort(OrderLeq, back)
  {
    forall a, b | a in front && b in back ensures OrderLeq(a, b) {}
    OrderIsTotal();
    SortBehindFront(OrderLeq, front, back);
  }

  lemma SortedAreIn(s: seq<SpellInjection>)
    ensures forall x :: x in Sort(OrderLeq, s) ==> x in s
    ensures Sorted(OrderLeq, Sort(OrderLeq, s))
  {
    OrderIsTotal();
    SortKeeps(OrderLeq, s);
  }

  /** Nothing still to arrive can be due this tick, so the front is already final. */
  lemma FrontIsFinal(now: int, p: seq<SpellInjection>, late: seq<SpellInjection>)
    requires Sorted(OrderLeq, p)
    requires forall x :: x in late ==> x.tick > now
    ensures var due := DueCount(p, now);
            Sort(OrderLeq, p + late) == p[..due] + Sort(OrderLeq, p[due..] + late)
  {
    var due := DueCount(p, now);
    BeyondDue(p, now);
    SortBehindDue(p[..due], p[due..] + late, now);
    assert p + late == p[..due] + (p[due..] + late);
  }

  lemma DueIsFinal(now: int, p: seq<SpellInjection>, late: seq<SpellInjection>)
    requires Sorted(OrderLeq, p)
    requires forall x :: x in late ==> x.tick > now
    ensures DueCount(Sort(OrderLeq, p + late), now) == DueCount(p, now)
  {
    hide Sorted, Sort, OrderLeq;
    FrontIsFinal(now, p, late);
    var due := DueCount(p, now);
    BeyondDue(p, now);
    SortedAreIn(p[due..] + late);
    var rest := Sort(OrderLeq, p[due..] + late);
    assert rest != [] ==> rest[0] in rest;
    DueCountUnique(p[..due] + rest, now, due);
  }

  lemma {:induction false} LiveFromHere(now: int, p: seq<SpellInjection>, catalog: set<string>, events: seq<QueueEvent>)
    requires Sorted(OrderLeq, p)
    ensures Fired(now, p, catalog, events)
         == Fired(now, Sort(OrderLeq, p + Taken(now, catalog, events)), catalog, TicksOnly(events))
    decreases |events|
  {
    OrderIsTotal();
    var taken := Taken(now, catalog, events);
    if events == [] {
    } else if events[0].TickOver? {
      var due := DueCount(p, now + 1);
      var later := Taken(now + 1, catalog, events[1..]);
      assert taken == later;
      TakenAreAhead(now + 1, catalog, events[1..]);
      FrontIsFinal(now + 1, p, later);
      DueIsFinal(now + 1, p, later);
      LiveFromHere(now + 1, p[due..], catalog, events[1..]);
      var all := Sort(OrderLeq, p + later);
      var rest := Sort(OrderLeq, p[due..] + later);
      assert all == p[..due] + rest;
      assert all[..due] == p[..due] && all[due..] == rest;
      var ticks := TicksOnly(events);
      assert ticks == [TickOver] + TicksOnly(events[1..]);
      assert ticks[1..] == TicksOnly(events[1..]);
    } else {
      var x := events[0].injection;
      var later := Taken(now, catalog, events[1..]);
      if Admissible(x, now, catalog) {
        var p' := InsertRight(OrderLeq, x, p);
        InsertKeeps(OrderLeq, x, p);
        LiveFromHere(now, p', catalog, events[1..]);
        assert taken == [x] + later;
        SortForgetsOrder(OrderLeq, p' + later, p + taken);
      } else {
        assert taken == later;
        LiveFromHere(now, p, catalog, events[1..]);
      }
    }
  }

  /** A cast taken live fires exactly when, and in exactly the place, it would have
      fired had every cast been known and scheduled before the battle began. */
  lemma LiveCastsFireAsIfScheduled(catalog: set<string>, events: seq<QueueEvent>)
    ensures var up := ScheduleInjections(Taken(0, catalog, events), catalog);
            && up.Ok?
            && Fired(0, [], catalog, events) == Fired(0, up.value, catalog, TicksOnly(events))
  {
    var taken := Taken(0, catalog, events);
    TakenAreAhead(0, catalog, events);
    LiveFromHere(0, [], catalog, events);
    assert [] + taken == taken;
  }

  /** Two casts landing between the same two ticks may arrive in either order. */
  lemma ArrivalOrderIsForgotten(p: seq<SpellInjection>, x: SpellInjection, y: SpellInjection)
    requires Sorted(OrderLeq, p)
    ensures InsertRight(OrderLeq, y, InsertRight(OrderLeq, x, p))
         == InsertRight(OrderLeq, x, InsertRight(OrderLeq, y, p))
  {
    OrderIsTotal();
    InsertKeeps(OrderLeq, x, p);
    InsertKeeps(OrderLeq, y, p);
    InsertKeeps(OrderLeq, y, InsertRight(OrderLeq, x, p));
    InsertKeeps(OrderLeq, x, InsertRight(OrderLeq, y, p));
    SortedUnique(OrderLeq, InsertRight(OrderLeq, y, InsertRight(OrderLeq, x, p)),
                 InsertRight(OrderLeq, x, InsertRight(OrderLeq, y, p)));
  }
}
