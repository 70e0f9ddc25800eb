/** The plan a seat is handed at the start of a round (`api/app/match/fixtures.py`): what the
    plan screen opens on, and what editing from there can and cannot do. */
module Suggestion {
  import opened Common
  import opened BattleMap
  import opened Plan
  import opened PlanEditor

  const METEOR: string := "meteor"

  /** The orders suggested in turn: hold each lane, then push. */
  function OrdersOf(zones: seq<ZoneConfig>): (orders: seq<Order>)
    ensures |orders| == |zones| + 1
  {
    seq(|zones|, k requires 0 <= k < |zones| => HoldZone(zones[k].id)) + [PushEnemyBase]
  }

  /** Entry `k` of a list dealt round and round. */
  function Dealt<T>(items: seq<T>, k: nat): (item: T)
    requires items != []
    ensures item in items
    ensures k < |items| ==> item == items[k]
    ensures k == |items| ==> item == items[0]
  {
    items[k % |items|]
  }

  /** `opening_plan_json`: the roster's mages and the map's orders, each dealt in turn. */
  function Suggested(mages: seq<MageOption>, cap: nat, config: MapConfig): Draft
    requires mages != []
  {
    Draft(seq(cap, k requires 0 <= k < cap =>
            PlannedTroop(Dealt(mages, k).id, Dealt(mages, k).defaultEntourage, Dealt(OrdersOf(config.zones), k))),
          Some(METEOR), None)
  }

  ghost predicate DistinctMages(mages: seq<MageOption>) {
    forall i, j :: 0 <= i < j < |mages| ==> mages[i].id != mages[j].id
  }

  /** The suggestion fields a mage twice exactly when the roster is shorter than the cap. */
  lemma SuggestsDistinctExactly(mages: seq<MageOption>, cap: nat, config: MapConfig)
    requires mages != [] && DistinctMages(mages)
    ensures MagesDistinct(Suggested(mages, cap, config).troops) <==> cap <= |mages|
  {
    var troops := Suggested(mages, cap, config).troops;
    hide Dealt, OrdersOf;
    if cap > |mages| { assert troops[0].mageId == troops[|mages|].mageId; }
  }

  // ---- the shipped roster ----

  const EMBER_ADEPT: MageOption :=
    MageOption("ember-adept", "Ember Adept", ["fire"], ["pyromancer", "aggressive"], 3, ["cinder-hound", "ember-sprite"])

  const SUMMONS: seq<SummonOption> := [
    SummonOption("cinder-hound", "Cinder Hound", ["fire"], 1),
    SummonOption("ember-sprite", "Ember Sprite", ["fire"], 1),
    SummonOption("ash-ram", "Ash Ram", ["fire"], 2),
    SummonOption("slag-wall", "Slag Wall", ["fire", "artifice"], 2)]

  const METEOR_SPELL: SpellOption :=
    SpellOption(METEOR, "Meteor", 35.0, "A burst of fire, and ground that keeps burning.", Signature("ember-adept"), ["pyromancer"])

  const ROSTER: Catalog := Catalog(
    3, 2, [EMBER_ADEPT], SUMMONS,
    map["cinder-hound" := 4, "ember-sprite" := 3, "ash-ram" := 2, "slag-wall" := 1], [METEOR_SPELL],
    (s: SpellOption, c: seq<(string, string)>) => s.text,
    (n: nat, m: MapConfig) => PlanToJson(Submitted(Suggested([EMBER_ADEPT], 3, m))))

  /** What the plan screen opens on: three troops of the one mage there is. */
  function Opened(config: MapConfig): Draft {
    Suggested(ROSTER.mages, ROSTER.mageCap, config)
  }

  const ENTOURAGE: seq<string> := ["cinder-hound", "ember-sprite"]

  lemma TwoNames()
    ensures "cinder-hound" != "ember-sprite"
    ensures Owned(ROSTER, "cinder-hound") == 4 && Owned(ROSTER, "ember-sprite") == 3
    ensures SummonById(ROSTER.summons, "cinder-hound") == Some(SUMMONS[0])
    ensures SummonById(ROSTER.summons, "ember-sprite") == Some(SUMMONS[1])
  {
    assert "cinder-hound"[0] != "ember-sprite"[0];
    assert "cinder-hound"[0] != "ash-ram"[0] && "cinder-hound"[0] != "slag-wall"[0];
    assert "ember-sprite"[0] != "ash-ram"[0] && "ember-sprite"[0] != "slag-wall"[0];
  }

  lemma EntourageCosts()
    ensures CostAll(ROSTER, ENTOURAGE) == 2
  {
    TwoNames();
    CostAppend(ROSTER, [], "cinder-hound");
    CostAppend(ROSTER, ["cinder-hound"], "ember-sprite");
    assert ENTOURAGE == ["cinder-hound"] + ["ember-sprite"] && [] + ["cinder-hound"] == ["cinder-hound"];
  }

  lemma ThreeAlike(a: PlannedTroop, b: PlannedTroop, c: PlannedTroop, id: string)
    requires a.summonIds == b.summonIds == c.summonIds && a.mageId == b.mageId == c.mageId
    ensures Used([a, b, c], id) == 3 * multiset(a.summonIds)[id]
    ensures TroopsOf([a, b, c], a.mageId) == 3
  {
    assert [a, b, c][1..] == [b, c] && [b, c][1..] == [c] && [c][1..] == [];
    assert Used([c], id) == multiset(c.summonIds)[id] && Used([b, c], id) == multiset(b.summonIds)[id] + Used([c], id);
    assert TroopsOf([c], a.mageId) == 1 && TroopsOf([b, c], a.mageId) == 2;
  }

  lemma OpenedTroops(config: MapConfig)
    ensures |Opened(config).troops| == 3
    ensures forall t :: t in Opened(config).troops ==> t.mageId == "ember-adept" && t.summonIds == ENTOURAGE
    ensures forall id :: Used(Opened(config).troops, id) == 3 * multiset(ENTOURAGE)[id]
    ensures TroopsOf(Opened(config).troops, "ember-adept") == 3
  {
    hide Dealt, Used, TroopsOf, OrdersOf;
    var troops := Opened(config).troops;
    forall k | 0 <= k < 3 ensures troops[k].mageId == "ember-adept" && troops[k].summonIds == ENTOURAGE {
      assert Dealt([EMBER_ADEPT], k) in [EMBER_ADEPT];
    }
    assert troops == [troops[0], troops[1], troops[2]];
    forall id ensures Used(troops, id) == 3 * multiset(ENTOURAGE)[id] && TroopsOf(troops, "ember-adept") == 3 {
      ThreeAlike(troops[0], troops[1], troops[2], id);
    }
  }

  /** The roster's one entourage fits its mage, so the roster is not what breaks. */
  lemma RosterFits()
    ensures EntouragesFit(ROSTER)
  {
    TwoNames();
    EntourageCosts();
    assert ENTOURAGE[..1] == ["cinder-hound"] && ["cinder-hound"][..0] == [];
    assert Drawn(ROSTER, [], ["cinder-hound"]) == ["cinder-hound"];
    assert Drawn(ROSTER, [], ENTOURAGE) == ENTOURAGE;
  }

  lemma RosterCosts()
    ensures CostsSensible(ROSTER)
  {
  }

  lemma OpenedCovered(config: MapConfig)
    ensures Covered(ROSTER, Opened(config).troops)
  {
    OpenedTroops(config);
    TwoNames();
    EntourageCosts();
    hide CostAll, Used, Owned;
  }

  /** One edit the screen allows on the plan it opened on, and six hounds are fielded of four. */
  lemma OpeningPlanCanBeOverdrawn(config: MapConfig)
    ensures EntouragesFit(ROSTER) && CostsSensible(ROSTER)
    ensures |Opened(config).troops| <= ROSTER.mageCap && Covered(ROSTER, Opened(config).troops)
    ensures var edit := AddSummon("ember-adept", "cinder-hound");
            var after := Reduce(ROSTER, Opened(config), edit);
      && !EditSafe(ROSTER, Opened(config), edit)
      && Used(after.troops, "cinder-hound") == 6 && Owned(ROSTER, "cinder-hound") == 4
      && forall judge: MapConfig :: !Legal(ROSTER, judge, Submitted(after))
  {
    RosterFits();
    RosterCosts();
    OpenedTroops(config);
    OpenedCovered(config);
    TwoNames();
    EntourageCosts();
    var start, edit := Opened(config), AddSummon("ember-adept", "cinder-hound");
    FoundTroop(start.troops, "ember-adept");
    assert FindTroop(start.troops, "ember-adept") == Some(start.troops[0]);
    assert Remaining(ROSTER, start.troops, "cinder-hound") == 1;
    hide Used, Owned, CostAll;
    var after := Reduce(ROSTER, start, edit);
    UsedAdding(start.troops, "ember-adept", "cinder-hound", "cinder-hound");
    MapTroopAt(start.troops, "ember-adept", Adding("cinder-hound"));
    assert after.troops[0].summonIds == ENTOURAGE + ["cinder-hound"];
    assert after.troops[0] in after.troops && "cinder-hound" in after.troops[0].summonIds;
  }

  /** The suggestion itself is always one the server would field, whatever the map. */
  lemma OpeningPlanIsLegal(config: MapConfig)
    ensures Legal(ROSTER, config, Submitted(Opened(config)))
  {
    OpenedTroops(config);
    OpenedCovered(config);
    TwoNames();
    hide Dealt, OrdersOf, Covered, Legal;
    var start := Opened(config);
    assert "fire" in EMBER_ADEPT.schools && "fire" in SUMMONS[0].schools && "fire" in SUMMONS[1].schools;
    forall t | t in start.troops ensures OrderLegal(t.order, config) {
      var k :| 0 <= k < 3 && start.troops[k] == t;
      SuggestedOrderLegal(config, t.order);
    }
    MeteorEligible(start);
    ServerAcceptsExactly(ROSTER, config, start);
  }

  lemma SuggestedOrderLegal(config: MapConfig, order: Order)
    requires order in OrdersOf(config.zones)
    ensures OrderLegal(order, config)
  {
    if order.HoldZone? {
      var k :| 0 <= k < |config.zones| && config.zones[k].id == order.zoneId;
      assert config.zones[k] in config.zones;
    }
  }

  lemma MeteorEligible(d: Draft)
    requires d.troops != [] && d.troops[0].mageId == "ember-adept"
    ensures CanEquip(ROSTER, d, METEOR)
  {
    assert MageById(ROSTER.mages, "ember-adept") == Some(EMBER_ADEPT);
    assert FieldedMages(ROSTER, d.troops)[0] == EMBER_ADEPT;
    assert METEOR_SPELL in ROSTER.spells;
  }
}
