/**
 * The behaviour attached to the items of src/utils/definitions/itemDefinitions.js:
 * `getRandomInt`, `getWeightedRandom`, `applyReward`, the clover adjustment of a
 * loot table, the `open` of kits and lootboxes and the `use` of boosters and
 * clovers. Each `Math.random()` call reads the next number of `rolls`, values
 * in [0, 1) supplied by the caller; `Date.now()` is the parameter `now`, in
 * milliseconds. Reward messages, names and emoji are left out.
 */
module Rewards {

  import opened Util
  import Stacks
  import Escrow
  import opened Profile
  import opened ItemDefinitions
  import InventoryPart

  /** All rolls are values `Math.random()` can return. */
  predicate Rolls(rolls: seq<real>) {
    forall k :: 0 <= k < |rolls| ==> 0.0 <= rolls[k] < 1.0
  }

  /** A roll scaled to a length: `Math.random() * n`. */
  function Scale(u: real, n: real): real { u * n }

  // ----- getRandomInt ---------------------------------------------------------

  /**
   * `getRandomInt(min, max)` when `Math.random()` returns `u`. Every call site
   * passes integers, on which `Math.ceil` and `Math.floor` are the identity.
   */
  function GetRandomInt(min: int, max: int, u: real): int {
    Scale(u, (max - min + 1) as real).Floor + min
  }

  /** The result lies between the bounds, both included. */
  lemma GetRandomIntInRange(min: int, max: int, u: real)
    requires min <= max && 0.0 <= u < 1.0
    ensures min <= GetRandomInt(min, max, u) <= max
  {
    var n := (max - min + 1) as real;
    assert 0.0 <= u * n;
    assert n - u * n == (1.0 - u) * n;
    assert u * n < n;
  }

  /**
   * Each value `k` of the range is returned exactly for the rolls of the
   * interval `[(k - min) / n, (k - min + 1) / n)`, `n` the size of the range:
   * every value is equally likely.
   */
  lemma GetRandomIntUniform(min: int, max: int, k: int, u: real)
    requires min <= k <= max
    ensures var n := (max - min + 1) as real;
      GetRandomInt(min, max, u) == k <==> (k - min) as real / n <= u < (k - min + 1) as real / n
  {
    var n := (max - min + 1) as real;
    var a := (k - min) as real;
    assert u * n - a == (u - a / n) * n;
    assert u * n - (a + 1.0) == (u - (a + 1.0) / n) * n;
  }

  // ----- getWeightedRandom ----------------------------------------------------

  /** `items.reduce((sum, item) => sum + item.weight, 0)`. */
  function TotalWeight(t: seq<LootEntry>): real {
    if t == [] then 0.0 else t[0].weight + TotalWeight(t[1..])
  }

  /** The weight of the first `n` entries. */
  function CumWeight(t: seq<LootEntry>, n: nat): real
    requires n <= |t|
  {
    TotalWeight(t[..n])
  }

  predicate NonNegativeWeights(t: seq<LootEntry>) {
    forall i :: 0 <= i < |t| ==> t[i].weight >= 0.0
  }

  /**
   * What the loop of `getWeightedRandom` returns once `random` is `x`: the
   * value of the first entry whose weight exceeds what is left of `x`, or null.
   */
  function Pick(t: seq<LootEntry>, x: real): Option<RewardSpec> {
    if t == [] then None
    else if x < t[0].weight then Some(t[0].value)
    else Pick(t[1..], x - t[0].weight)
  }

  /** `getWeightedRandom(items)` when `Math.random()` returns `u`. */
  method GetWeightedRandom(items: seq<LootEntry>, u: real) returns (r: Option<RewardSpec>)
    ensures r == Pick(items, Scale(u, TotalWeight(items)))
  {
    var random := Scale(u, TotalWeight(items));
    ghost var start := random;
    var i := 0;
    while i < |items|
      invariant 0 <= i <= |items|
      invariant Pick(items[i..], random) == Pick(items, start)
    {
      assert items[i..][0] == items[i] && items[i..][1..] == items[i + 1..];
      if random < items[i].weight {
        return Some(items[i].value);
      }
      random := random - items[i].weight;
      i := i + 1;
    }
    assert items[i..] == [];
    return None;
  }

  lemma {:induction false} TotalNonNegative(t: seq<LootEntry>)
    requires NonNegativeWeights(t)
    ensures TotalWeight(t) >= 0.0
  {
    if t != [] {
      TotalNonNegative(t[1..]);
    }
  }

  /** The prefix sums split off the first entry. */
  lemma CumTail(t: seq<LootEntry>, n: nat)
    requires t != [] && n < |t|
    ensures CumWeight(t, n + 1) == t[0].weight + CumWeight(t[1..], n)
  {
    assert t[..n + 1][1..] == t[1..][..n];
  }

  /** The draw returns null exactly when `x` is at least the total weight. */
  lemma {:induction false} PickNoneIff(t: seq<LootEntry>, x: real)
    requires NonNegativeWeights(t) && x >= 0.0
    ensures Pick(t, x).None? <==> x >= TotalWeight(t)
  {
    if t != [] {
      TotalNonNegative(t[1..]);
      if x >= t[0].weight {
        PickNoneIff(t[1..], x - t[0].weight);
      }
    }
  }

  /**
   * Entry `i` owns the interval `[CumWeight(t, i), CumWeight(t, i + 1))`, whose
   * length is its weight: every `x` in it draws that entry.
   */
  lemma {:induction false} PickInInterval(t: seq<LootEntry>, x: real, i: nat)
    requires NonNegativeWeights(t) && i < |t|
    requires CumWeight(t, i) <= x < CumWeight(t, i + 1)
    ensures Pick(t, x) == Some(t[i].value)
  {
    CumTail(t, i);
    if i == 0 {
      assert t[..0] == [];
    } else {
      CumTail(t, i - 1);
      TotalNonNegative(t[1..][..i - 1]);
      PickInInterval(t[1..], x - t[0].weight, i - 1);
    }
  }

  /** Conversely, whatever is drawn is the value of the entry whose interval holds `x`. */
  lemma {:induction false} PickFromInterval(t: seq<LootEntry>, x: real)
    requires NonNegativeWeights(t) && x >= 0.0
    ensures Pick(t, x).Some? ==>
      exists i :: 0 <= i < |t| && CumWeight(t, i) <= x < CumWeight(t, i + 1) && Pick(t, x) == Some(t[i].value)
  {
    if t != [] {
      CumTail(t, 0);
      assert t[..0] == [];
      if x < t[0].weight {
        assert CumWeight(t, 0) <= x < CumWeight(t, 1);
      } else if Pick(t[1..], x - t[0].weight).Some? {
        PickFromInterval(t[1..], x - t[0].weight);
        var j :| 0 <= j < |t[1..]| && CumWeight(t[1..], j) <= x - t[0].weight < CumWeight(t[1..], j + 1)
                 && Pick(t[1..], x - t[0].weight) == Some(t[1..][j].value);
        CumTail(t, j);
        CumTail(t, j + 1);
        assert CumWeight(t, j + 1) <= x < CumWeight(t, j + 2);
      }
    }
  }

  /** With non-negative weights a draw succeeds exactly when the total weight is positive. */
  lemma DrawSucceedsIffPositiveTotal(t: seq<LootEntry>, u: real)
    requires NonNegativeWeights(t) && 0.0 <= u < 1.0
    ensures Pick(t, Scale(u, TotalWeight(t))).Some? <==> TotalWeight(t) > 0.0
  {
    var total := TotalWeight(t);
    var x := Scale(u, total);
    TotalNonNegative(t);
    assert 0.0 <= x;
    assert total - x == (1.0 - u) * total;
    PickNoneIff(t, x);
    if total > 0.0 {
      assert (1.0 - u) * total > 0.0;
    }
  }

  // ----- the luck clover -------------------------------------------------------

  /** The qualities a clover boosts in a lootbox, and in the fortune chest. */
  const StandardBoost: set<Quality> := {Good, Rare, Epic}
  const FortuneBoost: set<Quality> := {Rare, Epic}

  /** `activeCloverEffect && activeCloverEffect.affectsLootboxCategories.includes(itemId)`. */
  predicate CloverApplies(clover: Option<LuckClover>, itemId: string) {
    clover.Some? && itemId in clover.value.affectsLootboxCategories
  }

  /** `parseFloat(x.toFixed(1))`: the nearest tenth, halves away from zero. */
  function Round1(x: real): (r: real)
    ensures -0.05 <= r - x <= 0.05
    ensures x >= 0.0 ==> r >= 0.0
    ensures x >= 0.1 ==> r >= 0.1
  {
    if x >= 0.0 then (x * 10.0 + 0.5).Floor as real / 10.0
    else -(((-x) * 10.0 + 0.5).Floor as real / 10.0)
  }

  /** The loot table after the clover: each boosted entry's weight multiplied by the factor and rounded. */
  function AdjustForClover(t: seq<LootEntry>, boosted: set<Quality>, clover: Option<LuckClover>, itemId: string): seq<LootEntry> {
    if !CloverApplies(clover, itemId) then t
    else seq(|t|, i requires 0 <= i < |t| => Boost(t[i], boosted, clover.value.luckBoostFactor))
  }

  /** One entry under a clover with the factor. */
  function Boost(e: LootEntry, boosted: set<Quality>, factor: real): LootEntry {
    if e.quality in boosted then e.(weight := Round1(e.weight * factor)) else e
  }

  /**
   * The clover changes weights and nothing else: entries keep their order,
   * values and qualities; an entry that is not boosted keeps its weight; a
   * boosted one gets its weight times the factor, to a twentieth. A clover
   * that does not list the box leaves the table as it is.
   */
  lemma CloverAdjustment(t: seq<LootEntry>, boosted: set<Quality>, clover: Option<LuckClover>, itemId: string)
    ensures var a := AdjustForClover(t, boosted, clover, itemId);
      |a| == |t|
      && (forall i :: 0 <= i < |t| ==> a[i].value == t[i].value && a[i].quality == t[i].quality)
      && (forall i :: 0 <= i < |t| && !(CloverApplies(clover, itemId) && t[i].quality in boosted) ==> a[i] == t[i])
      && (forall i :: 0 <= i < |t| && CloverApplies(clover, itemId) && t[i].quality in boosted ==>
            -0.05 <= a[i].weight - t[i].weight * clover.value.luckBoostFactor <= 0.05)
    ensures !CloverApplies(clover, itemId) ==> AdjustForClover(t, boosted, clover, itemId) == t
  {
    if CloverApplies(clover, itemId) {
      var a := AdjustForClover(t, boosted, clover, itemId);
      forall i | 0 <= i < |t| ensures a[i] == Boost(t[i], boosted, clover.value.luckBoostFactor) {
      }
    }
  }

  /** A clover that does not lower weights keeps a table well formed. */
  lemma CloverKeepsTableWellFormed(t: seq<LootEntry>, boosted: set<Quality>, clover: Option<LuckClover>, itemId: string)
    requires WellFormedTable(t) && (clover.Some? ==> clover.value.luckBoostFactor >= 1.0)
    ensures WellFormedTable(AdjustForClover(t, boosted, clover, itemId))
  {
    if CloverApplies(clover, itemId) {
      var a := AdjustForClover(t, boosted, clover, itemId);
      forall i | 0 <= i < |a| ensures WellFormedEntry(a[i]) {
        assert a[i] == Boost(t[i], boosted, clover.value.luckBoostFactor);
        BoostKeepsEntryWellFormed(t[i], boosted, clover.value.luckBoostFactor);
      }
    }
  }

  lemma BoostKeepsEntryWellFormed(e: LootEntry, boosted: set<Quality>, factor: real)
    requires WellFormedEntry(e) && factor >= 1.0
    ensures WellFormedEntry(Boost(e, boosted, factor))
  {
    var w := e.weight;
    assert w * factor - w == w * (factor - 1.0);
    assert w * (factor - 1.0) >= 0.0;
  }

  // ----- rewards --------------------------------------------------------------

  /** A reward with its quantity resolved: `{ type, id, quantity }` (`id` is "" for currencies). */
  datatype Reward = Reward(kind: RewardKind, id: string, quantity: int)

  /**
   * The quantity of a drawn value: a roll in its range when it has one,
   * otherwise its fixed quantity, and 1 when it has neither.
   */
  function ResolveQuantity(v: RewardSpec, u: real): int {
    if v.quantityRange.Some? then GetRandomInt(v.quantityRange.value.lo, v.quantityRange.value.hi, u)
    else if v.quantity.None? then 1
    else v.quantity.value
  }

  function Resolve(v: RewardSpec, u: real): Reward {
    Reward(v.kind, v.id, ResolveQuantity(v, u))
  }

  /** A well-formed entry always yields at least one unit, and never more than its range allows. */
  lemma ResolveQuantityLaws(e: LootEntry, u: real)
    requires WellFormedEntry(e) && 0.0 <= u < 1.0
    ensures ResolveQuantity(e.value, u) >= 1
    ensures e.value.quantityRange.Some? ==>
      e.value.quantityRange.value.lo <= ResolveQuantity(e.value, u) <= e.value.quantityRange.value.hi
    ensures e.value.quantityRange.None? && e.value.quantity.Some? ==> ResolveQuantity(e.value, u) == e.value.quantity.value
  {
    if e.value.quantityRange.Some? {
      GetRandomIntInRange(e.value.quantityRange.value.lo, e.value.quantityRange.value.hi, u);
    }
  }

  /** The part of a profile rewards change. */
  datatype Wallet = Wallet(inventory: seq<Stacks.Stack>, stars: real, shards: real)

  function WalletOf(p: UserProfile): Wallet
    reads p
  {
    Wallet(p.inventory, p.stars, p.shards)
  }

  /**
   * `applyReward`: items go to the inventory (`addItemToInventory`, which
   * ignores a quantity below one), stars are added and rounded to hundredths,
   * shards are added, any other type changes nothing.
   */
  function Credit(w: Wallet, r: Reward): Wallet {
    match r.kind
    case ItemReward =>
      if r.quantity > 0 then w.(inventory := Stacks.Deposit(w.inventory, r.id, r.quantity)) else w
    case StarsReward => w.(stars := Escrow.Round2(w.stars + r.quantity as real))
    case ShardsReward => w.(shards := w.shards + r.quantity as real)
    case OtherReward(_) => w
  }

  /** The rewards applied one after the other. */
  function CreditAll(w: Wallet, rs: seq<Reward>): Wallet {
    if rs == [] then w else Credit(CreditAll(w, rs[..|rs| - 1]), rs[|rs| - 1])
  }

  /**
   * What one reward does to the wallet: an item reward of `q` adds exactly `q`
   * of that item, leaves every other item as it was and keeps a tidy
   * inventory tidy; a star reward on a balance of whole hundredths adds exactly
   * `q`; a shard reward adds `q`; each touches nothing else.
   */
  lemma CreditLaws(w: Wallet, r: Reward, other: string)
    ensures r.kind.ItemReward? && r.quantity > 0 ==>
      Stacks.Count(Credit(w, r).inventory, r.id) == Stacks.Count(w.inventory, r.id) + r.quantity
      && (other != r.id ==> Stacks.Lookup(Credit(w, r).inventory, other) == Stacks.Lookup(w.inventory, other))
      && (Stacks.Tidy(w.inventory) ==> Stacks.Tidy(Credit(w, r).inventory))
    ensures r.kind.ItemReward? ==> Credit(w, r).stars == w.stars && Credit(w, r).shards == w.shards
    ensures r.kind.StarsReward? && Escrow.IsCents(w.stars) ==>
      Credit(w, r) == w.(stars := w.stars + r.quantity as real)
    ensures r.kind.ShardsReward? ==> Credit(w, r) == w.(shards := w.shards + r.quantity as real)
    ensures r.kind.OtherReward? || (r.kind.ItemReward? && r.quantity <= 0) ==> Credit(w, r) == w
  {
    if r.kind.ItemReward? && r.quantity > 0 {
      ItemCreditLaws(w, r, other);
    }
    if r.kind.StarsReward? && Escrow.IsCents(w.stars) {
      StarsCreditLaws(w, r);
    }
  }

  /** An item reward of positive quantity deposits it. */
  lemma ItemCreditLaws(w: Wallet, r: Reward, other: string)
    requires r.kind.ItemReward? && r.quantity > 0
    ensures Credit(w, r).inventory == Stacks.Deposit(w.inventory, r.id, r.quantity)
    ensures Stacks.Count(Credit(w, r).inventory, r.id) == Stacks.Count(w.inventory, r.id) + r.quantity
    ensures other != r.id ==> Stacks.Lookup(Credit(w, r).inventory, other) == Stacks.Lookup(w.inventory, other)
    ensures Stacks.Tidy(w.inventory) ==> Stacks.Tidy(Credit(w, r).inventory)
  {
    var d := Stacks.Deposit(w.inventory, r.id, r.quantity);
    assert Credit(w, r).inventory == d;
    Stacks.CountAfterDeposit(w.inventory, r.id, r.quantity);
    if other != r.id {
      Stacks.OtherItemsUnchanged(w.inventory, r.id, r.quantity, other);
    }
    if Stacks.Tidy(w.inventory) {
      Stacks.OperationsPreserveTidy(w.inventory, r.id, r.quantity);
    }
  }

  /** A star reward on a balance of whole hundredths adds exactly its quantity. */
  lemma StarsCreditLaws(w: Wallet, r: Reward)
    requires r.kind.StarsReward? && Escrow.IsCents(w.stars)
    ensures Credit(w, r) == w.(stars := w.stars + r.quantity as real)
  {
    var q := r.quantity as real;
    Escrow.WholeIsCents(r.quantity);
    Escrow.CentsArithmetic(w.stars, q);
    Escrow.Round2OfCents(w.stars + q);
    assert Credit(w, r) == w.(stars := Escrow.Round2(w.stars + q));
  }

  /** `applyReward(userProfile, reward)`. */
  method ApplyReward(p: UserProfile, r: Reward)
    modifies p`inventory, p`stars, p`shards
    ensures WalletOf(p) == Credit(old(WalletOf(p)), r)
  {
    match r.kind {
      case ItemReward =>
        var added := InventoryPart.AddItemToInventory(p, r.id, r.quantity);
      case StarsReward =>
        p.stars := Escrow.Round2(p.stars + r.quantity as real);
      case ShardsReward =>
        p.shards := p.shards + r.quantity as real;
      case OtherReward(_) =>
    }
  }

  /** `for (const reward of rewards) await applyReward(userProfile, reward)`. */
  method ApplyRewards(p: UserProfile, rs: seq<Reward>)
    modifies p`inventory, p`stars, p`shards
    ensures WalletOf(p) == CreditAll(old(WalletOf(p)), rs)
  {
    for k := 0 to |rs|
      invariant WalletOf(p) == CreditAll(old(WalletOf(p)), rs[..k])
    {
      assert rs[..k + 1][..k] == rs[..k];
      ApplyReward(p, rs[k]);
    }
    assert rs[..|rs|] == rs;
  }

  // ----- open -----------------------------------------------------------------

  /** `currentLootTable.filter(item => item.value.id !== id)`. */
  function WithoutId(t: seq<LootEntry>, id: string): (r: seq<LootEntry>)
    ensures forall e :: e in r <==> e in t && e.value.id != id
  {
    if t == [] then []
    else (if t[0].value.id != id then [t[0]] else []) + WithoutId(t[1..], id)
  }

  /**
   * The shard pouch's table: the shimmering frame is added (once) when the
   * catalogue defines it, and filtered out otherwise.
   */
  function PouchTable(t: seq<LootEntry>, shimmering: Option<ItemDef>): seq<LootEntry> {
    if shimmering.Some? then
      if exists i :: 0 <= i < |t| && t[i].value.id == SHIMMERING_FRAME then t
      else t + [ItemOf(SHIMMERING_FRAME, 1, 15.0, Epic)]
    else WithoutId(t, SHIMMERING_FRAME)
  }

  /**
   * When the frame is not defined (the catalogue's case, `NoShimmeringFrame`),
   * the frame is in no entry of the adjusted table, and a table that lacks it
   * is used as it is.
   */
  lemma PouchTableUnchanged(t: seq<LootEntry>)
    ensures forall e :: e in PouchTable(t, None) ==> e in t && e.value.id != SHIMMERING_FRAME
    ensures (forall i :: 0 <= i < |t| ==> t[i].value.id != SHIMMERING_FRAME) ==> PouchTable(t, None) == t
  {
    if forall i :: 0 <= i < |t| ==> t[i].value.id != SHIMMERING_FRAME {
      WithoutAbsentId(t, SHIMMERING_FRAME);
    }
  }

  /** When the frame is defined, the table keeps its entries in order and holds the frame, added at most once. */
  lemma PouchTableWithFrame(t: seq<LootEntry>, def: ItemDef)
    ensures var a := PouchTable(t, Some(def));
      a[..|t|] == t && |a| <= |t| + 1
      && exists i :: 0 <= i < |a| && a[i].value.id == SHIMMERING_FRAME
  {
    var a := PouchTable(t, Some(def));
    if !exists i :: 0 <= i < |t| && t[i].value.id == SHIMMERING_FRAME {
      assert a[|t|].value.id == SHIMMERING_FRAME;
    }
  }

  lemma {:induction false} WithoutAbsentId(t: seq<LootEntry>, id: string)
    requires forall i :: 0 <= i < |t| ==> t[i].value.id != id
    ensures WithoutId(t, id) == t
  {
    if t != [] {
      WithoutAbsentId(t[1..], id);
      assert t == [t[0]] + t[1..];
    }
  }

  /** One weighted draw with the first roll, its quantity resolved with the second (or fixed at 1). */
  function DrawOne(t: seq<LootEntry>, rolls: seq<real>, quantityOne: bool): Option<seq<Reward>>
    requires |rolls| >= 2
  {
    match Pick(t, Scale(rolls[0], TotalWeight(t)))
    case None => None
    case Some(v) => Some([if quantityOne then Reward(v.kind, v.id, 1) else Resolve(v, rolls[1])])
  }

  function Item(id: string, quantity: int): Reward { Reward(ItemReward, id, quantity) }

  /** The weekly chest's bonus: a small kit, a small clover or a small booster, or nothing. */
  function WeeklyBonusItem(roll: real): seq<Reward> {
    if roll < 0.15 then [Item(SMALL_KIT, 1)]
    else if roll < 0.40 then [Item(SMALL_CLOVER, 1)]
    else if roll < 0.70 then [Item(SMALL_BOOST, 1)]
    else []
  }

  /**
   * The rewards of `open` for item `itemId` with the active clover, or `None`
   * when the draw fails ('could not determine the reward'). `shimmering` is
   * what `getItemDefinition('profile_frame_shimmering')` returns, which only
   * the shard pouch asks for.
   */
  function OpenRewards(opener: Opener, itemId: string, clover: Option<LuckClover>, shimmering: Option<ItemDef>,
                       rolls: seq<real>): Option<seq<Reward>>
    requires |rolls| >= 5
  {
    match opener
    case LootTableOpen(t) => DrawOne(AdjustForClover(t, StandardBoost, clover, itemId), rolls, false)
    case FortuneChestOpen(t) => DrawOne(AdjustForClover(t, FortuneBoost, clover, itemId), rolls, true)
    case ShardPouchOpen(t) => DrawOne(AdjustForClover(PouchTable(t, shimmering), StandardBoost, clover, itemId), rolls, false)
    case SmallKitOpen => Some(SmallKitRewards(rolls))
    case MediumKitOpen => Some(MediumKitRewards(rolls))
    case LargeKitOpen => Some(LargeKitRewards(rolls))
    case WeeklyBonusOpen => Some(WeeklyBonusRewards(rolls))
  }

  /** 1 to 3 fragments, and a spark when the second roll is below 0.3. */
  function SmallKitRewards(rolls: seq<real>): seq<Reward>
    requires |rolls| >= 2
  {
    [Item(FRAGMENT, GetRandomInt(1, 3, rolls[0]))] + (if rolls[1] < 0.3 then [Item(SPARK, 1)] else [])
  }

  /** 3 to 5 fragments, 1 or 2 sparks, and a core when the third roll is below 0.1. */
  function MediumKitRewards(rolls: seq<real>): seq<Reward>
    requires |rolls| >= 3
  {
    [Item(FRAGMENT, GetRandomInt(3, 5, rolls[0])), Item(SPARK, GetRandomInt(1, 2, rolls[1]))]
    + (if rolls[2] < 0.1 then [Item(CORE, 1)] else [])
  }

  /** 3 to 5 sparks and 1 or 2 cores. */
  function LargeKitRewards(rolls: seq<real>): seq<Reward>
    requires |rolls| >= 2
  {
    [Item(SPARK, GetRandomInt(3, 5, rolls[0])), Item(CORE, GetRandomInt(1, 2, rolls[1]))]
  }

  /** Stars, sparks and fragments, the bonus item, and a shard on the last roll. */
  function WeeklyBonusRewards(rolls: seq<real>): seq<Reward>
    requires |rolls| >= 5
  {
    [Reward(StarsReward, "", GetRandomInt(100, 200, rolls[0])),
     Item(SPARK, GetRandomInt(1, 3, rolls[1])),
     Item(FRAGMENT, GetRandomInt(3, 6, rolls[2]))]
    + WeeklyBonusItem(rolls[3])
    + (if rolls[4] < 0.05 then [Reward(ShardsReward, "", 1)] else [])
  }

  /** The shared body of the lootbox `open`s once the table is adjusted. */
  method OpenTable(p: UserProfile, table: seq<LootEntry>, rolls: seq<real>, quantityOne: bool)
    returns (success: bool, rewards: seq<Reward>)
    requires |rolls| >= 2
    modifies p`inventory, p`stars, p`shards
    ensures success <==> DrawOne(table, rolls, quantityOne).Some?
    ensures rewards == if success then DrawOne(table, rolls, quantityOne).value else []
    ensures WalletOf(p) == CreditAll(old(WalletOf(p)), rewards)
  {
    var chosen := GetWeightedRandom(table, rolls[0]);
    if chosen.None? {
      return false, [];
    }
    var v := chosen.value;
    var reward := if quantityOne then Reward(v.kind, v.id, 1) else Resolve(v, rolls[1]);
    assert DrawOne(table, rolls, quantityOne) == Some([reward]);
    ApplyReward(p, reward);
    return true, [reward];
  }

  /** `itemDef.open(userProfile, interaction, client, activeCloverEffect)`. */
  method Open(p: UserProfile, itemId: string, opener: Opener, clover: Option<LuckClover>, shimmering: Option<ItemDef>,
              rolls: seq<real>)
    returns (success: bool, rewards: seq<Reward>)
    requires |rolls| >= 5
    modifies p`inventory, p`stars, p`shards
    ensures success <==> OpenRewards(opener, itemId, clover, shimmering, rolls).Some?
    ensures rewards == if success then OpenRewards(opener, itemId, clover, shimmering, rolls).value else []
    ensures WalletOf(p) == CreditAll(old(WalletOf(p)), rewards)
  {
    match opener {
      case LootTableOpen(t) =>
        success, rewards := OpenTable(p, AdjustForClover(t, StandardBoost, clover, itemId), rolls, false);
      case FortuneChestOpen(t) =>
        success, rewards := OpenTable(p, AdjustForClover(t, FortuneBoost, clover, itemId), rolls, true);
      case ShardPouchOpen(t) =>
        success, rewards := OpenTable(p, AdjustForClover(PouchTable(t, shimmering), StandardBoost, clover, itemId), rolls, false);
      case SmallKitOpen =>
        rewards := SmallKitRewards(rolls);
        ApplyRewards(p, rewards);
        success := true;
      case MediumKitOpen =>
        rewards := MediumKitRewards(rolls);
        ApplyRewards(p, rewards);
        success := true;
      case LargeKitOpen =>
        rewards := LargeKitRewards(rolls);
        ApplyRewards(p, rewards);
        success := true;
      case WeeklyBonusOpen =>
        rewards := WeeklyBonusRewards(rolls);
        ApplyRewards(p, rewards);
        success := true;
    }
  }

  /** A well-formed table, adjusted by a clover that does not lower weights, always yields a reward. */
  lemma DrawOneSucceeds(t: seq<LootEntry>, rolls: seq<real>, quantityOne: bool)
    requires WellFormedTable(t) && |rolls| >= 2 && Rolls(rolls)
    ensures DrawOne(t, rolls, quantityOne).Some?
    ensures forall r :: r in DrawOne(t, rolls, quantityOne).value ==> r.quantity >= 1
    ensures quantityOne ==> forall r :: r in DrawOne(t, rolls, quantityOne).value ==> r.quantity == 1
    ensures |DrawOne(t, rolls, quantityOne).value| == 1
  {
    assert NonNegativeWeights(t);
    assert TotalWeight(t) > 0.0 by {
      TotalNonNegative(t[1..]);
    }
    DrawSucceedsIffPositiveTotal(t, rolls[0]);
    var x := Scale(rolls[0], TotalWeight(t));
    assert x >= 0.0;
    PickFromInterval(t, x);
    var i :| 0 <= i < |t| && CumWeight(t, i) <= x < CumWeight(t, i + 1) && Pick(t, x) == Some(t[i].value);
    ResolveQuantityLaws(t[i], rolls[1]);
  }

  /** Every reward is of at least one unit. */
  predicate AllPositive(rs: seq<Reward>) {
    forall k :: 0 <= k < |rs| ==> rs[k].quantity >= 1
  }

  /**
   * Opening a lootbox with a well-formed table, with rolls `Math.random` can
   * return and a clover whose factor does not lower weights, succeeds with a
   * single reward of at least one unit (exactly one in the fortune chest).
   */
  lemma TableOpenSucceeds(opener: Opener, itemId: string, clover: Option<LuckClover>, shimmering: Option<ItemDef>,
                          rolls: seq<real>)
    requires TableOf(opener).Some? && WellFormedTable(TableOf(opener).value) && shimmering.None?
    requires |rolls| >= 5 && Rolls(rolls)
    requires clover.Some? ==> clover.value.luckBoostFactor >= 1.0
    ensures OpenRewards(opener, itemId, clover, shimmering, rolls).Some?
    ensures |OpenRewards(opener, itemId, clover, shimmering, rolls).value| == 1
    ensures AllPositive(OpenRewards(opener, itemId, clover, shimmering, rolls).value)
    ensures opener.FortuneChestOpen? ==> OpenRewards(opener, itemId, clover, shimmering, rolls).value[0].quantity == 1
  {
    match opener {
      case LootTableOpen(t) =>
        CloverKeepsTableWellFormed(t, StandardBoost, clover, itemId);
        DrawOneSucceeds(AdjustForClover(t, StandardBoost, clover, itemId), rolls, false);
      case FortuneChestOpen(t) =>
        CloverKeepsTableWellFormed(t, FortuneBoost, clover, itemId);
        DrawOneSucceeds(AdjustForClover(t, FortuneBoost, clover, itemId), rolls, true);
      case ShardPouchOpen(t) =>
        PouchTableUnchanged(t);
        assert PouchTable(t, shimmering) == t;
        CloverKeepsTableWellFormed(t, StandardBoost, clover, itemId);
        DrawOneSucceeds(AdjustForClover(t, StandardBoost, clover, itemId), rolls, false);
    }
  }

  /** Kits and the weekly chest always succeed, with rewards of at least one unit. */
  lemma KitOpenSucceeds(opener: Opener, itemId: string, clover: Option<LuckClover>, shimmering: Option<ItemDef>,
                        rolls: seq<real>)
    requires TableOf(opener).None?
    requires |rolls| >= 5 && Rolls(rolls)
    ensures OpenRewards(opener, itemId, clover, shimmering, rolls).Some?
    ensures AllPositive(OpenRewards(opener, itemId, clover, shimmering, rolls).value)
  {
    KitContents(rolls);
    WeeklyBonusContents(rolls);
  }

  /**
   * The small kit gives 1 to 3 fragments and, below 0.3 on the second roll, a
   * spark; the medium kit 3 to 5 fragments, 1 or 2 sparks and, below 0.1 on
   * the third roll, a core; the large kit 3 to 5 sparks and 1 or 2 cores.
   */
  lemma KitContents(rolls: seq<real>)
    requires |rolls| >= 5 && Rolls(rolls)
    ensures var rs := SmallKitRewards(rolls);
      AllPositive(rs) && rs[0].id == FRAGMENT && rs[0].quantity <= 3
      && (|rs| == 2 <==> rolls[1] < 0.3) && (|rs| == 2 ==> rs[1] == Item(SPARK, 1))
    ensures var rs := MediumKitRewards(rolls);
      AllPositive(rs) && rs[0].id == FRAGMENT && 3 <= rs[0].quantity <= 5 && rs[1].id == SPARK && rs[1].quantity <= 2
      && (|rs| == 3 <==> rolls[2] < 0.1) && (|rs| == 3 ==> rs[2] == Item(CORE, 1))
    ensures var rs := LargeKitRewards(rolls);
      AllPositive(rs) && |rs| == 2 && rs[0].id == SPARK && 3 <= rs[0].quantity <= 5
      && rs[1].id == CORE && rs[1].quantity <= 2
  {
    GetRandomIntInRange(1, 3, rolls[0]);
    GetRandomIntInRange(3, 5, rolls[0]);
    GetRandomIntInRange(1, 2, rolls[1]);
  }

  /**
   * Opening any catalogue item that opens, with rolls `Math.random` can return
   * and no clover or one whose factor does not lower weights, succeeds and
   * gives only rewards of at least one unit.
   */
  lemma CatalogueOpensSucceed(def: ItemDef, clover: Option<LuckClover>, rolls: seq<real>)
    requires def in Catalogue && def.open.Some?
    requires |rolls| >= 5 && Rolls(rolls)
    requires clover.Some? ==> clover.value.luckBoostFactor >= 1.0
    ensures OpenRewards(def.open.value, def.itemId, clover, GetItemDefinition(SHIMMERING_FRAME), rolls).Some?
    ensures AllPositive(OpenRewards(def.open.value, def.itemId, clover, GetItemDefinition(SHIMMERING_FRAME), rolls).value)
  {
    CatalogueShape();
    NoShimmeringFrame();
    assert Shaped(def);
    if TableOf(def.open.value).Some? {
      TableOpenSucceeds(def.open.value, def.itemId, clover, None, rolls);
    } else {
      KitOpenSucceeds(def.open.value, def.itemId, clover, None, rolls);
    }
  }

  /**
   * The weekly chest always gives 100 to 200 stars, 1 to 3 sparks and 3 to 6
   * fragments; then a small kit (bonus roll below 0.15), a small clover (below
   * 0.40) or a small booster (below 0.70); and one shard when the last roll is
   * below 0.05.
   */
  lemma WeeklyBonusContents(rolls: seq<real>)
    requires |rolls| >= 5 && Rolls(rolls)
    ensures var rs := WeeklyBonusRewards(rolls);
      3 <= |rs| <= 5
      && rs[0].kind == StarsReward && 100 <= rs[0].quantity <= 200
      && rs[1] == Reward(ItemReward, SPARK, rs[1].quantity) && 1 <= rs[1].quantity <= 3
      && rs[2] == Reward(ItemReward, FRAGMENT, rs[2].quantity) && 3 <= rs[2].quantity <= 6
      && (|rs| > 3 && rs[3].kind.ItemReward? <==> rolls[3] < 0.70)
      && (rolls[3] < 0.15 ==> rs[3].id == SMALL_KIT)
      && (0.15 <= rolls[3] < 0.40 ==> rs[3].id == SMALL_CLOVER)
      && (0.40 <= rolls[3] < 0.70 ==> rs[3].id == SMALL_BOOST)
      && (rs[|rs| - 1] == Reward(ShardsReward, "", 1) <==> rolls[4] < 0.05)
  {
    GetRandomIntInRange(100, 200, rolls[0]);
    GetRandomIntInRange(1, 3, rolls[1]);
    GetRandomIntInRange(3, 6, rolls[2]);
  }

  // ----- use ------------------------------------------------------------------

  const MINUTE_MS := 60 * 1000

  /** The two effects `use` changes. */
  datatype Effects = Effects(starBoost: Option<StarBoost>, luckClover: Option<LuckClover>)

  function EffectsOf(p: UserProfile): Effects
    reads p
  {
    Effects(p.activeStarBoost, p.activeLuckClover)
  }

  /** `activeStarBoost && activeStarBoost.expiresAt && new Date(expiresAt) > new Date()`. */
  predicate BoostRunning(boost: Option<StarBoost>, now: int) {
    boost.Some? && boost.value.expiresAt > now
  }

  /** `activeLuckClover && activeLuckClover.itemId`. */
  predicate CloverActive(clover: Option<LuckClover>) {
    clover.Some? && clover.value.itemId != ""
  }

  /**
   * `use` of item `itemId` at `now`: a booster is refused while another runs
   * and otherwise starts one for its duration; a clover is refused while any
   * clover is active and otherwise becomes the active one. `None` is a refusal.
   */
  function ApplyUse(e: Effects, itemId: string, effect: UseEffect, now: int): Option<Effects> {
    match effect
    case StarBoostUse(multiplier, minutes) =>
      if BoostRunning(e.starBoost, now) then None
      else Some(e.(starBoost := Some(StarBoost(itemId, multiplier, minutes, now, now + minutes * MINUTE_MS))))
    case LuckCloverUse(factor, boxes) =>
      if CloverActive(e.luckClover) then None
      else Some(e.(luckClover := Some(LuckClover(itemId, factor, boxes))))
  }

  /** `itemDef.use(userProfile, interaction, quantity)`; the quantity plays no part. */
  method Use(p: UserProfile, itemId: string, effect: UseEffect, now: int) returns (success: bool)
    modifies p`activeStarBoost, p`activeLuckClover
    ensures success <==> ApplyUse(old(EffectsOf(p)), itemId, effect, now).Some?
    ensures EffectsOf(p) == if success then ApplyUse(old(EffectsOf(p)), itemId, effect, now).value else old(EffectsOf(p))
  {
    match effect {
      case StarBoostUse(multiplier, minutes) =>
        if p.activeStarBoost.Some? && p.activeStarBoost.value.expiresAt > now {
          return false;
        }
        p.activeStarBoost := Some(StarBoost(itemId, multiplier, minutes, now, now + minutes * MINUTE_MS));
      case LuckCloverUse(factor, boxes) =>
        if p.activeLuckClover.Some? && p.activeLuckClover.value.itemId != "" {
          return false;
        }
        p.activeLuckClover := Some(LuckClover(itemId, factor, boxes));
    }
    return true;
  }

  /**
   * A booster runs for its whole duration: once started, every booster use
   * before it expires is refused and every one from its expiry on is allowed.
   * Starting it leaves the clover alone.
   */
  lemma BoostUseLaws(e: Effects, itemId: string, multiplier: real, minutes: int, now: int,
                     next: UseEffect, nextId: string, later: int)
    requires ApplyUse(e, itemId, StarBoostUse(multiplier, minutes), now).Some?
    requires next.StarBoostUse?
    ensures var e' := ApplyUse(e, itemId, StarBoostUse(multiplier, minutes), now).value;
      e'.luckClover == e.luckClover
      && e'.starBoost.value.expiresAt - e'.starBoost.value.appliedAt == minutes * MINUTE_MS
      && (ApplyUse(e', nextId, next, later).None? <==> later < now + minutes * MINUTE_MS)
  {
  }

  /**
   * A clover stays: once a clover with an id is active, every later clover use
   * is refused, and boosters are unaffected by it.
   */
  lemma CloverUseLaws(e: Effects, itemId: string, factor: real, boxes: seq<string>, now: int,
                      next: UseEffect, nextId: string, later: int)
    requires ApplyUse(e, itemId, LuckCloverUse(factor, boxes), now).Some? && itemId != ""
    ensures var e' := ApplyUse(e, itemId, LuckCloverUse(factor, boxes), now).value;
      e'.starBoost == e.starBoost
      && e'.luckClover == Some(LuckClover(itemId, factor, boxes))
      && (next.LuckCloverUse? ==> ApplyUse(e', nextId, next, later).None?)
      && (next.StarBoostUse? ==> (ApplyUse(e', nextId, next, later).None? <==> ApplyUse(e, nextId, next, later).None?))
  {
  }
}
