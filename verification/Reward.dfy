/** Pricing of a claim (internal/boss/reward.go) and the bound on what one boss can pay out. */
module Reward {
  import opened Ids
  import opened Totals
  import opened Durable

  const TIER_LEGENDARY_PCT := 20.0
  const TIER_EPIC_PCT := 10.0
  const TIER_RARE_PCT := 5.0
  const TIER_UNCOMMON_PCT := 1.0

  function TierFor(pct: real): Tier {
    if pct >= TIER_LEGENDARY_PCT then Legendary
    else if pct >= TIER_EPIC_PCT then Epic
    else if pct >= TIER_RARE_PCT then Rare
    else if pct >= TIER_UNCOMMON_PCT then Uncommon
    else Common
  }

  function RewardFor(tier: Tier): Payload {
    match tier
    case Legendary => Payload(10000, ["Behemoth Crown", "Legendary Chest"])
    case Epic => Payload(5000, ["Epic Chest"])
    case Rare => Payload(2000, ["Rare Chest"])
    case Uncommon => Payload(500, ["Uncommon Chest"])
    case Common => Payload(100, ["Common Chest"])
  }

  /** A contribution as a percentage of the boss's maximum HP. */
  function Pct(damage: int, maxHp: int): real
    requires maxHp > 0
  {
    damage as real / maxHp as real * 100.0
  }

  /** Comparing a percentage is comparing integers. */
  lemma PctReaches(damage: int, maxHp: int, bound: int)
    requires maxHp > 0
    ensures Pct(damage, maxHp) >= bound as real <==> damage * 100 >= bound * maxHp
  {
    var d, m, b := damage as real, maxHp as real, bound as real;
    var q := d / m;
    assert q * m == d;
    assert (damage * 100) as real == d * 100.0;
    assert (bound * maxHp) as real == b * m;
    if q * 100.0 >= b {
      assert (q * 100.0 - b) * m >= 0.0;
    } else {
      assert (b - q * 100.0) * m > 0.0;
    }
    assert (q * 100.0 - b) * m == d * 100.0 - b * m;
  }

  lemma PctMonotone(less: int, more: int, maxHp: int)
    requires maxHp > 0 && less <= more
    ensures Pct(less, maxHp) <= Pct(more, maxHp)
  {
    var x, y, m := less as real, more as real, maxHp as real;
    assert (y - x) / m >= 0.0;
    assert y / m == x / m + (y - x) / m;
  }

  /** A larger contribution never earns a smaller reward. */
  lemma RewardMonotone(less: int, more: int, maxHp: int)
    requires maxHp > 0 && less <= more
    ensures RewardFor(TierFor(Pct(less, maxHp))).gold <= RewardFor(TierFor(Pct(more, maxHp))).gold
  {
    PctMonotone(less, more, maxHp);
  }

  /**
    The least damage for each reward: exactly a fifth, a tenth, a twentieth and a hundredth of
    the boss's HP, in whole numbers.
   */
  lemma LeastDamage(damage: int, maxHp: int)
    requires maxHp > 0
    ensures var gold := RewardFor(TierFor(Pct(damage, maxHp))).gold;
            && (gold == 10000 <==> 5 * damage >= maxHp)
            && (gold >= 5000 <==> 10 * damage >= maxHp)
            && (gold >= 2000 <==> 20 * damage >= maxHp)
            && (gold >= 500 <==> 100 * damage >= maxHp)
            && (gold == 100 <==> 100 * damage < maxHp)
  {
    PctReaches(damage, maxHp, 20);
    PctReaches(damage, maxHp, 10);
    PctReaches(damage, maxHp, 5);
    PctReaches(damage, maxHp, 1);
  }

  /** The whole price list, in damage and HP: what each range of damage is called and what it gets. */
  ghost predicate PaidFor(tier: Tier, payload: Payload, damage: int, maxHp: int) {
    && (tier == Legendary <==> maxHp <= 5 * damage)
    && (tier == Epic <==> 5 * damage < maxHp <= 10 * damage)
    && (tier == Rare <==> 10 * damage < maxHp <= 20 * damage)
    && (tier == Uncommon <==> 20 * damage < maxHp <= 100 * damage)
    && (tier == Common <==> 100 * damage < maxHp)
    && (payload == Payload(10000, ["Behemoth Crown", "Legendary Chest"]) <==> maxHp <= 5 * damage)
    && (payload == Payload(5000, ["Epic Chest"]) <==> 5 * damage < maxHp <= 10 * damage)
    && (payload == Payload(2000, ["Rare Chest"]) <==> 10 * damage < maxHp <= 20 * damage)
    && (payload == Payload(500, ["Uncommon Chest"]) <==> 20 * damage < maxHp <= 100 * damage)
    && (payload == Payload(100, ["Common Chest"]) <==> 100 * damage < maxHp)
  }

  lemma PriceList(damage: int, maxHp: int)
    requires maxHp > 0
    ensures var tier := TierFor(Pct(damage, maxHp)); PaidFor(tier, RewardFor(tier), damage, maxHp)
  {
    PctReaches(damage, maxHp, 20);
    PctReaches(damage, maxHp, 10);
    PctReaches(damage, maxHp, 5);
    PctReaches(damage, maxHp, 1);
  }

  /** Tier and payload are those of the percentage. */
  predicate FairPrice(tier: Tier, pct: real, payload: Payload) {
    tier == TierFor(pct) && payload == RewardFor(tier)
  }

  /** Every tier above common pays at most 500 gold per percent; a legendary took 20 percent. */
  lemma TierPrice(pct: real, damage: int, maxHp: int)
    requires maxHp > 0 && pct <= Pct(damage, maxHp)
    ensures TierFor(pct) != Common ==> RewardFor(TierFor(pct)).gold * maxHp <= damage * 50000
    ensures TierFor(pct) == Legendary ==> 20 * maxHp <= damage * 100
  {
    PctReaches(damage, maxHp, 20);
    PctReaches(damage, maxHp, 10);
    PctReaches(damage, maxHp, 5);
    PctReaches(damage, maxHp, 1);
  }

  // ---------------------------------------------------------------- payout of one boss

  /** Claims of one boss, each fairly priced at no more than what its player contributed. */
  predicate Backed(rows: map<PlayerId, ClaimRow>, totals: map<PlayerId, int>, maxHp: int)
    requires maxHp > 0
  {
    forall p :: p in rows ==>
      && p in totals && rows[p].pct <= Pct(totals[p], maxHp)
      && FairPrice(rows[p].tier, rows[p].pct, rows[p].payload)
  }

  function Gold(rows: map<PlayerId, ClaimRow>): map<PlayerId, int> {
    map p | p in rows :: rows[p].payload.gold
  }

  function AtTier(rows: map<PlayerId, ClaimRow>, tier: Tier): set<PlayerId> {
    set p | p in rows && rows[p].tier == tier
  }

  lemma FiveOfTwenty(n: int, twenties: int, m: int, total: int)
    requires twenties == n * 20 && twenties * m <= total * 100
    ensures n * m <= 5 * total
  {
    assert (n * 20) * m == 20 * (n * m);
  }

  function TwentyEach(players: set<PlayerId>): map<PlayerId, int> {
    map p | p in players :: 20
  }

  lemma TwentiesTotal(players: set<PlayerId>)
    ensures Total(TwentyEach(players)) == |players| * 20
  {
    TotalSetAside(TwentyEach(players), players, 20);
    assert TwentyEach(players) - players == map[];
  }

  /** Five legendary claims use up a boss's HP. */
  lemma LegendaryBound(rows: map<PlayerId, ClaimRow>, totals: map<PlayerId, int>, maxHp: int)
    requires maxHp > 0 && Backed(rows, totals, maxHp)
    requires forall p :: p in totals ==> totals[p] >= 0
    ensures |AtTier(rows, Legendary)| * maxHp <= 5 * Total(totals)
  {
    var legends := AtTier(rows, Legendary);
    forall p | p in legends ensures 20 * maxHp <= totals[p] * 100 {
      TierPrice(rows[p].pct, totals[p], maxHp);
    }
    TotalScaled(TwentyEach(legends), totals, maxHp, 100);
    TwentiesTotal(legends);
    FiveOfTwenty(|legends|, Total(TwentyEach(legends)), maxHp, Total(totals));
  }

  lemma RichRow(rows: map<PlayerId, ClaimRow>, totals: map<PlayerId, int>, maxHp: int, p: PlayerId)
    requires maxHp > 0 && Backed(rows, totals, maxHp) && p in rows && rows[p].tier != Common
    ensures rows[p].payload.gold * maxHp <= totals[p] * 50000
  {
    TierPrice(rows[p].pct, totals[p], maxHp);
  }

  function Rich(rows: map<PlayerId, ClaimRow>): map<PlayerId, int> {
    Gold(rows) - AtTier(rows, Common)
  }

  lemma CommonGold(rows: map<PlayerId, ClaimRow>, totals: map<PlayerId, int>, maxHp: int)
    requires maxHp > 0 && Backed(rows, totals, maxHp)
    ensures Total(Gold(rows)) == Total(Rich(rows)) + |AtTier(rows, Common)| * 100
  {
    TotalSetAside(Gold(rows), AtTier(rows, Common), 100);
  }

  lemma RichGold(rows: map<PlayerId, ClaimRow>, totals: map<PlayerId, int>, maxHp: int)
    requires maxHp > 0 && Backed(rows, totals, maxHp)
    requires forall p :: p in totals ==> totals[p] >= 0
    ensures Total(Rich(rows)) * maxHp <= Total(totals) * 50000
  {
    var rich := Rich(rows);
    forall p | p in rich ensures p in totals && rich[p] * maxHp <= totals[p] * 50000 {
      RichRow(rows, totals, maxHp, p);
    }
    TotalScaled(rich, totals, maxHp, 50000);
  }

  lemma Regroup(gold: int, common: int, rich: int, maxHp: int, total: int)
    requires gold == rich + common * 100 && rich * maxHp <= total * 50000
    ensures (gold - 100 * common) * maxHp <= 50000 * total
  {
    assert gold - 100 * common == rich;
  }

  /** Claims above common pay at most 500 gold per percent, common ones 100 each. */
  lemma GoldBound(rows: map<PlayerId, ClaimRow>, totals: map<PlayerId, int>, maxHp: int)
    requires maxHp > 0 && Backed(rows, totals, maxHp)
    requires forall p :: p in totals ==> totals[p] >= 0
    ensures (Total(Gold(rows)) - 100 * |AtTier(rows, Common)|) * maxHp <= 50000 * Total(totals)
  {
    CommonGold(rows, totals, maxHp);
    RichGold(rows, totals, maxHp);
    Regroup(Total(Gold(rows)), |AtTier(rows, Common)|, Total(Rich(rows)), maxHp, Total(totals));
  }

  /**
    What `damage` in total can pay: every five legendary claims use up a boss's HP, and beyond
    100 gold per common claim at most 500 gold is paid per percent.
   */
  ghost predicate PaysWithin(rows: map<PlayerId, ClaimRow>, damage: int, maxHp: int) {
    && |AtTier(rows, Legendary)| * maxHp <= 5 * damage
    && (Total(Gold(rows)) - 100 * |AtTier(rows, Common)|) * maxHp <= 50000 * damage
  }

  lemma PayoutBound(rows: map<PlayerId, ClaimRow>, totals: map<PlayerId, int>, maxHp: int)
    requires maxHp > 0 && Backed(rows, totals, maxHp)
    requires forall p :: p in totals ==> totals[p] >= 0
    ensures PaysWithin(rows, Total(totals), maxHp)
  {
    LegendaryBound(rows, totals, maxHp);
    GoldBound(rows, totals, maxHp);
  }

  lemma Cancel(x: int, bound: int, m: int)
    requires m > 0 && x * m <= bound * m
    ensures x <= bound
  {
    assert x > bound ==> (x - bound) * m > 0;
  }

  /** Without overshoot: at most five legendary claims, and 50,000 gold beyond the common ones. */
  lemma ExactPayout(rows: map<PlayerId, ClaimRow>, maxHp: int)
    requires maxHp > 0 && PaysWithin(rows, maxHp, maxHp)
    ensures |AtTier(rows, Legendary)| <= 5
    ensures Total(Gold(rows)) <= 50000 + 100 * |AtTier(rows, Common)|
  {
    Cancel(|AtTier(rows, Legendary)|, 5, maxHp);
    Cancel(Total(Gold(rows)) - 100 * |AtTier(rows, Common)|, 50000, maxHp);
  }

  /** The percentages of all contributors, added up. */
  ghost function PctSum(totals: map<PlayerId, int>, maxHp: int): real
    requires maxHp > 0
  {
    TotalOf(totals, d => Pct(d, maxHp))
  }

  lemma PctAdds(a: int, b: int, maxHp: int)
    requires maxHp > 0
    ensures Pct(a + b, maxHp) == Pct(a, maxHp) + Pct(b, maxHp)
  {
    var x, y, m := a as real, b as real, maxHp as real;
    assert (a + b) as real == x + y;
    assert (x + y) / m == x / m + y / m;
  }

  lemma PctSumIsPctOfTotal(totals: map<PlayerId, int>, maxHp: int)
    requires maxHp > 0
    ensures PctSum(totals, maxHp) == Pct(Total(totals), maxHp)
  {
    var share := d => Pct(d, maxHp);
    forall x, y ensures Adds(share, x, y) { PctAdds(x, y, maxHp); }
    TotalOfAdds(totals, share);
  }

  /** When the contributions sum to exactly the boss's HP, the percentages total 100. */
  lemma PercentagesTotal100(totals: map<PlayerId, int>, maxHp: int)
    requires maxHp > 0 && Total(totals) == maxHp
    ensures Pct(Total(totals), maxHp) == 100.0
    ensures PctSum(totals, maxHp) == 100.0
  {
    PctSumIsPctOfTotal(totals, maxHp);
    var m := maxHp as real;
    assert m / m == 1.0;
  }
}
