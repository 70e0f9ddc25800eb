/** A seat's spell pool (`SeatEnergy` in `api/app/match/round.py`): two running
    ledgers, and the single clipped balance they stand for. */
module Energy {
  import opened Common

  const ENERGY_CAP: real := 120.0
  const ENERGY_PER_SECOND: real := 4.0

  datatype Pool = Pool(start: real, cap: real, generated: real, spent: real) {

    function Current(): real {
      start + generated - spent
    }

    function Accrued(gain: real): Pool {
      this.(generated := generated + Min(gain, Max(0.0, cap - Current())))
    }

    predicate CanAfford(cost: real) {
      Current() >= cost
    }

    function Spend(cost: real): Pool {
      this.(spent := spent + cost)
    }

    ghost predicate InRange() {
      0.0 <= Current() <= cap
    }
  }

  /** The books and the balance agree: accruing is `min(cap, balance + gain)`,
      spending is a subtraction, and the pool never leaves `[0, cap]`. */
  lemma PoolRefinesBalance(pool: Pool, gain: real, cost: real)
    requires pool.InRange() && gain >= 0.0
    ensures pool.Accrued(gain).Current() == Min(pool.cap, pool.Current() + gain)
    ensures pool.Accrued(gain).InRange()
    ensures pool.Spend(cost).Current() == pool.Current() - cost
    ensures 0.0 <= cost && pool.CanAfford(cost) ==> pool.Spend(cost).InRange()
  {
  }

  datatype Entry = Accrue(gain: real) | Pay(cost: real)

  /** A history of accruals and affordable payments. */
  ghost function Books(pool: Pool, history: seq<Entry>): Pool
    decreases |history|
  {
    if history == [] then pool
    else
      var next := match history[0]
        case Accrue(gain) => pool.Accrued(gain)
        case Pay(cost) => if pool.CanAfford(cost) then pool.Spend(cost) else pool;
      Books(next, history[1..])
  }

  /** The same history kept as one number. */
  ghost function Balance(cap: real, balance: real, history: seq<Entry>): real
    decreases |history|
  {
    if history == [] then balance
    else
      var next := match history[0]
        case Accrue(gain) => Min(cap, balance + gain)
        case Pay(cost) => if balance >= cost then balance - cost else balance;
      Balance(cap, next, history[1..])
  }

  ghost function Paid(cap: real, balance: real, history: seq<Entry>): real
    decreases |history|
  {
    if history == [] then 0.0
    else match history[0]
      case Accrue(gain) => Paid(cap, Min(cap, balance + gain), history[1..])
      case Pay(cost) =>
        if balance >= cost then cost + Paid(cap, balance - cost, history[1..])
        else Paid(cap, balance, history[1..])
  }

  /** Over any history the two ledgers are the one clipped balance, `spent` is
      exactly what was paid, and the pool stays in range. */
  lemma {:induction false} LedgersRefineBalance(pool: Pool, history: seq<Entry>)
    requires pool.InRange()
    requires forall e :: e in history ==> (e.Accrue? ==> e.gain >= 0.0) && (e.Pay? ==> e.cost >= 0.0)
    ensures var after := Books(pool, history);
            && after.InRange()
            && after.Current() == Balance(pool.cap, pool.Current(), history)
            && after.spent == pool.spent + Paid(pool.cap, pool.Current(), history)
    decreases |history|
  {
    if history != [] {
      assert history[0] in history;
      var next := match history[0]
        case Accrue(gain) => pool.Accrued(gain)
        case Pay(cost) => if pool.CanAfford(cost) then pool.Spend(cost) else pool;
      LedgersRefineBalance(next, history[1..]);
    }
  }

  class SeatEnergy {
    const start: real
    const cap: real
    var generated: real
    var spent: real

    function View(): Pool
      reads this
    {
      Pool(start, cap, generated, spent)
    }

    constructor (start: real, cap: real)
      ensures View() == Pool(start, cap, 0.0, 0.0)
    {
      this.start, this.cap := start, cap;
      generated, spent := 0.0, 0.0;
    }

    function Current(): (c: real)
      reads this
      ensures c == View().Current()
    {
      start + generated - spent
    }

    method Accrue(gain: real)
      modifies this
      ensures View() == old(View()).Accrued(gain)
    {
      generated := generated + Min(gain, Max(0.0, cap - Current()));
    }

    method Spend(cost: real)
      modifies this
      ensures View() == old(View()).Spend(cost)
    {
      spent := spent + cost;
    }
  }
}
