/**
 * The item catalogue (src/utils/definitions/itemDefinitions.js): categories,
 * decoration types, prices, recipes, loot tables and the behaviour attached to
 * each item (`use` of boosters and clovers, `open` of kits and lootboxes), with
 * lookup by id and the shop and crafting lists. Display names, descriptions,
 * emoji and image paths are left out; the behaviours themselves are in `Rewards`.
 */
module ItemDefinitions {

  import opened Util

  /** `ItemCategory`; the source stores the Russian display strings. */
  datatype Category = Consumable | Cosmetic | Lootbox | Resource | Key | ProfileAccent | ResourcePack | PremiumAccess | Special

  /** `DecorationType`. */
  datatype DecorationType = AvatarFrame | CardBorderFrame | CardBackground

  /** `price: { stars, shards }`. */
  datatype Price = Price(stars: int, shards: int)

  /** A recipe line `{ itemId, quantity }`. */
  datatype Ingredient = Ingredient(itemId: string, quantity: int)

  /** The `quality` tag of a loot-table entry. */
  datatype Quality = Common | Uncommon | Good | Rare | Epic

  /** The `type` of a reward: 'item', 'stars', 'shards', or anything else. */
  datatype RewardKind = ItemReward | StarsReward | ShardsReward | OtherReward(name: string)

  /** `quantityRange: [lo, hi]`. */
  datatype Range = Range(lo: int, hi: int)

  /**
   * The `value` of a loot-table entry before its quantity is resolved:
   * `{ type, id, quantity?, quantityRange? }` (`id` is "" for currencies).
   */
  datatype RewardSpec = RewardSpec(kind: RewardKind, id: string, quantity: Option<int>, quantityRange: Option<Range>)

  /** `{ value, weight, quality }`. */
  datatype LootEntry = LootEntry(value: RewardSpec, weight: real, quality: Quality)

  /** What an item's `use` does: a star booster or a luck clover. */
  datatype UseEffect =
    | StarBoostUse(multiplier: real, durationMinutes: int)
    | LuckCloverUse(luckBoostFactor: real, affectsLootboxCategories: seq<string>)

  /** What an item's `open` does. */
  datatype Opener =
    | LootTableOpen(table: seq<LootEntry>)     // one weighted draw, clover boosts good/rare/epic
    | FortuneChestOpen(table: seq<LootEntry>)  // one weighted draw, clover boosts rare/epic, quantity 1
    | ShardPouchOpen(table: seq<LootEntry>)    // as a loot table, after the shimmering-frame adjustment
    | SmallKitOpen
    | MediumKitOpen
    | LargeKitOpen
    | WeeklyBonusOpen

  datatype ItemDef = ItemDef(
    itemId: string, category: Category, price: Option<Price>, buyable: bool,
    craftable: bool, recipe: Option<seq<Ingredient>>, decorationType: Option<DecorationType>,
    isUsable: bool, use: Option<UseEffect>, open: Option<Opener>)

  /** An item with only the common fields set. */
  function Plain(itemId: string, category: Category, price: Option<Price>, buyable: bool): ItemDef {
    ItemDef(itemId, category, price, buyable, false, None, None, false, None, None)
  }

  function Costs(stars: int, shards: int): Option<Price> { Some(Price(stars, shards)) }

  function Needs(a: string, qa: int, b: string, qb: int): seq<Ingredient> {
    [Ingredient(a, qa), Ingredient(b, qb)]
  }

  function Needs3(a: string, qa: int, b: string, qb: int, c: string, qc: int): seq<Ingredient> {
    [Ingredient(a, qa), Ingredient(b, qb), Ingredient(c, qc)]
  }

  /** A fixed-quantity item entry. */
  function ItemOf(id: string, quantity: int, weight: real, quality: Quality): LootEntry {
    LootEntry(RewardSpec(ItemReward, id, Some(quantity), None), weight, quality)
  }

  /** An item entry with a quantity range. */
  function ItemsIn(id: string, lo: int, hi: int, weight: real, quality: Quality): LootEntry {
    LootEntry(RewardSpec(ItemReward, id, None, Some(Range(lo, hi))), weight, quality)
  }

  const FRAGMENT := "resource_common_fragment"
  const SPARK := "resource_uncommon_spark"
  const CORE := "resource_rare_core"
  const SMALL_KIT := "crafting_kit_small"
  const SMALL_CLOVER := "luck_clover_small"
  const SMALL_BOOST := "star_boost_small"
  const BRONZE := "lootbox_bronze"
  const SILVER := "lootbox_silver"
  const GOLD := "lootbox_gold"
  const MYTHIC := "lootbox_mythic"
  const FORTUNE := "lootbox_fortune_chest"
  const SHIMMERING_FRAME := "profile_frame_shimmering"

  const BronzeTable: seq<LootEntry> := [
    ItemsIn(FRAGMENT, 3, 6, 50.0, Common),
    ItemsIn(SPARK, 1, 2, 30.0, Uncommon),
    ItemOf(SMALL_KIT, 1, 15.0, Good),
    ItemOf(SMALL_CLOVER, 1, 5.0, Rare)]

  const SilverTable: seq<LootEntry> := [
    ItemsIn(SPARK, 3, 5, 40.0, Uncommon),
    ItemOf(CORE, 1, 25.0, Good),
    ItemsIn(SMALL_KIT, 2, 3, 15.0, Good),
    ItemsIn(SMALL_CLOVER, 1, 2, 10.0, Rare),
    ItemOf("profile_badge_silver_star", 1, 10.0, Rare)]

  const GoldTable: seq<LootEntry> := [
    ItemsIn(CORE, 2, 3, 40.0, Good),
    ItemOf("star_boost_medium", 1, 20.0, Rare),
    ItemOf("profile_frame_patterned_bronze", 1, 5.0, Epic),
    ItemOf("crafting_kit_medium", 1, 15.0, Good),
    ItemsIn(SMALL_CLOVER, 2, 3, 10.0, Good),
    ItemOf(SMALL_BOOST, 1, 10.0, Uncommon)]

  const MythicTable: seq<LootEntry> := [
    ItemOf("profile_frame_veteran", 1, 35.0, Epic),
    ItemOf("crafting_kit_large", 1, 30.0, Good),
    ItemOf("luck_clover_medium", 1, 20.0, Rare),
    ItemOf("title_token", 1, 15.0, Rare)]

  const FortuneTable: seq<LootEntry> := [
    ItemOf(BRONZE, 1, 50.0, Common),
    ItemOf(SILVER, 1, 30.0, Uncommon),
    ItemOf(GOLD, 1, 15.0, Rare),
    ItemOf(MYTHIC, 1, 5.0, Epic)]

  const ShardPouchTable: seq<LootEntry> := [
    LootEntry(RewardSpec(ShardsReward, "", None, Some(Range(1, 2))), 50.0, Common),
    LootEntry(RewardSpec(ShardsReward, "", Some(3), None), 20.0, Uncommon),
    ItemOf("luck_clover_large", 1, 10.0, Rare),
    LootEntry(RewardSpec(StarsReward, "", None, Some(Range(500, 1500))), 5.0, Good)]

  const SpookyTable: seq<LootEntry> := [
    LootEntry(RewardSpec(StarsReward, "", None, Some(Range(250, 750))), 45.0, Common),
    ItemsIn(FRAGMENT, 5, 10, 20.0, Common),
    ItemsIn(SPARK, 2, 4, 15.0, Uncommon),
    ItemOf(SMALL_CLOVER, 1, 10.0, Uncommon),
    LootEntry(RewardSpec(ShardsReward, "", None, Some(Range(1, 2))), 5.0, Rare),
    ItemOf(CORE, 1, 4.0, Rare),
    ItemOf("hween_frame_web", 1, 0.6, Epic),
    ItemOf("hween_bg_pumpkins", 1, 0.4, Epic)]

  /** The three crafting resources. */
  const Resources: seq<ItemDef> := [
    Plain("resource_common_fragment", Resource, Costs(50, 0), true),
    Plain("resource_uncommon_spark", Resource, Costs(150, 0), true),
    Plain("resource_rare_core", Resource, Costs(1000, 0), true)]

  /** The star boosters. */
  const StarBoosts: seq<ItemDef> := [
    Plain("star_boost_small", Consumable, Costs(200, 0), false).(craftable := true, recipe := Some(Needs(FRAGMENT, 4, SPARK, 1)), use := Some(StarBoostUse(1.15, 30))),
    Plain("star_boost_medium", Consumable, Costs(500, 0), false).(craftable := true, recipe := Some(Needs(SMALL_BOOST, 2, SPARK, 2)), use := Some(StarBoostUse(1.25, 60))),
    Plain("star_boost_large", Consumable, Costs(1200, 0), false).(craftable := true, recipe := Some(Needs3("star_boost_medium", 2, CORE, 1, SPARK, 3)), use := Some(StarBoostUse(1.50, 60)))]

  /** The luck clovers. */
  const LuckClovers: seq<ItemDef> := [
    Plain("luck_clover_small", Consumable, None, false).(craftable := true, recipe := Some(Needs(FRAGMENT, 3, SPARK, 1)), use := Some(LuckCloverUse(1.2, [BRONZE, SILVER]))),
    Plain("luck_clover_medium", Consumable, None, false).(craftable := true, recipe := Some(Needs3(SMALL_CLOVER, 2, SPARK, 3, FRAGMENT, 5)), use := Some(LuckCloverUse(1.5, [BRONZE, SILVER, GOLD, FORTUNE]))),
    Plain("luck_clover_large", Consumable, None, false).(craftable := true, recipe := Some(Needs3("luck_clover_medium", 2, CORE, 2, SPARK, 5)), use := Some(LuckCloverUse(2.0, [SILVER, GOLD, MYTHIC, FORTUNE])))]

  /** The crafting kits. */
  const CraftingKits: seq<ItemDef> := [
    Plain("crafting_kit_small", ResourcePack, None, false).(open := Some(SmallKitOpen)),
    Plain("crafting_kit_medium", ResourcePack, None, false).(open := Some(MediumKitOpen)),
    Plain("crafting_kit_large", ResourcePack, None, false).(open := Some(LargeKitOpen))]

  /** The craftable lootboxes. */
  const Lootboxes: seq<ItemDef> := [
    Plain("lootbox_bronze", Lootbox, Costs(250, 0), true).(craftable := true, recipe := Some(Needs(FRAGMENT, 5, SPARK, 2)), open := Some(LootTableOpen(BronzeTable))),
    Plain("lootbox_silver", Lootbox, Costs(500, 0), false).(craftable := true, recipe := Some(Needs3(BRONZE, 2, SPARK, 5, FRAGMENT, 10)), open := Some(LootTableOpen(SilverTable))),
    Plain("lootbox_gold", Lootbox, Costs(1250, 0), false).(craftable := true, recipe := Some(Needs3(FRAGMENT, 15, SPARK, 8, CORE, 1)), open := Some(LootTableOpen(GoldTable)))]

  /** The other lootboxes. */
  const SpecialLootboxes: seq<ItemDef> := [
    Plain("lootbox_mythic", Lootbox, Costs(5000, 0), true).(open := Some(LootTableOpen(MythicTable))),
    Plain("lootbox_fortune_chest", Lootbox, Costs(400, 0), true).(open := Some(FortuneChestOpen(FortuneTable))),
    Plain("lootbox_shard_pouch", Lootbox, Costs(0, 4), true).(open := Some(ShardPouchOpen(ShardPouchTable))),
    Plain("lootbox_weekly_bonus", Lootbox, None, false).(open := Some(WeeklyBonusOpen))]

  /** The premium passes. */
  const PremiumPasses: seq<ItemDef> := [
    Plain("premium_pass_14d", PremiumAccess, Costs(0, 6), true),
    Plain("premium_pass_30d", PremiumAccess, Costs(0, 10), true),
    Plain("premium_pass_permanent", PremiumAccess, Costs(0, 70), true).(isUsable := true)]

  /** The frames and backgrounds sold in the shop. */
  const ProfileAccents: seq<ItemDef> := [
    Plain("profile_frame_veteran", ProfileAccent, Costs(20000, 0), true).(decorationType := Some(AvatarFrame), isUsable := true),
    Plain("profile_bg_legend", ProfileAccent, Costs(25000, 0), true).(decorationType := Some(CardBackground), isUsable := true),
    Plain("profile_frame_laurel_blue", ProfileAccent, Costs(0, 8), true).(decorationType := Some(AvatarFrame), isUsable := true),
    Plain("profile_bg_stars_dark", ProfileAccent, Costs(0, 15), true).(decorationType := Some(CardBackground), isUsable := true)]

  /** The badge, and the frames and backgrounds won, granted with premium or crafted. */
  const RewardAccents: seq<ItemDef> := [
    Plain("profile_badge_silver_star", Cosmetic, None, false),
    Plain("profile_frame_patterned_bronze", ProfileAccent, None, false).(decorationType := Some(AvatarFrame), isUsable := true),
    Plain("premium_avatar_frame_gold_plated", ProfileAccent, Costs(0, 0), false).(decorationType := Some(AvatarFrame), isUsable := true),
    Plain("premium_card_bg_galaxy", ProfileAccent, Costs(0, 0), false).(decorationType := Some(CardBackground), isUsable := true),
    Plain("avatar_frame_azure_spark", ProfileAccent, Costs(0, 0), false).(craftable := true, recipe := Some(Needs3(FRAGMENT, 10, SPARK, 5, CORE, 1)), decorationType := Some(AvatarFrame), isUsable := true)]

  /** The title token, the Halloween event items and the golden ticket. */
  const TokensAndEventItems: seq<ItemDef> := [
    Plain("title_token", Cosmetic, Costs(0, 20), true).(isUsable := true),
    Plain("hween_frame_web", ProfileAccent, Costs(0, 0), false).(decorationType := Some(AvatarFrame)),
    Plain("hween_bg_pumpkins", ProfileAccent, Costs(0, 0), false).(decorationType := Some(CardBackground)),
    Plain("hween_lootbox_spooky", Lootbox, Costs(0, 0), false).(open := Some(LootTableOpen(SpookyTable))),
    Plain("golden_ticket", Special, Costs(0, 0), false)]

  /** The catalogue entries in declaration order (the order of `Object.values(itemDefinitions)`). */
  const Catalogue: seq<ItemDef> :=
    Resources + StarBoosts + LuckClovers + CraftingKits + Lootboxes + SpecialLootboxes + PremiumPasses
    + ProfileAccents + RewardAccents + TokensAndEventItems

  /** The first definition in `defs` with the id, or `None`. */
  function FindItem(defs: seq<ItemDef>, itemId: string): (r: Option<ItemDef>)
    ensures r.Some? ==> r.value in defs && r.value.itemId == itemId
    ensures r.None? <==> forall j :: 0 <= j < |defs| ==> defs[j].itemId != itemId
    ensures forall j ::
              (0 <= j < |defs| && defs[j].itemId == itemId
               && forall k :: 0 <= k < j ==> defs[k].itemId != itemId)
              ==> r == Some(defs[j])
  {
    if defs == [] then None
    else if defs[0].itemId == itemId then Some(defs[0])
    else
      var r := FindItem(defs[1..], itemId);
      assert forall j :: 1 <= j < |defs| ==> defs[1..][j - 1] == defs[j];
      r
  }

  /** `getItemDefinition(itemId)`: the catalogue entry under the key, or null. */
  function GetItemDefinition(itemId: string): Option<ItemDef> {
    FindItem(Catalogue, itemId)
  }

  /** `getShopItems()`: the buyable definitions, in catalogue order. */
  function ShopFilter(defs: seq<ItemDef>): (r: seq<ItemDef>)
    ensures forall d :: d in r <==> d in defs && d.buyable
  {
    if defs == [] then []
    else (if defs[0].buyable then [defs[0]] else []) + ShopFilter(defs[1..])
  }

  /** `getCraftableItems()`: the definitions with `craftable` and a recipe, in catalogue order. */
  function CraftableFilter(defs: seq<ItemDef>): (r: seq<ItemDef>)
    ensures forall d :: d in r <==> d in defs && d.craftable && d.recipe.Some?
  {
    if defs == [] then []
    else (if defs[0].craftable && defs[0].recipe.Some? then [defs[0]] else []) + CraftableFilter(defs[1..])
  }

  function GetShopItems(): seq<ItemDef> { ShopFilter(Catalogue) }

  function GetCraftableItems(): seq<ItemDef> { CraftableFilter(Catalogue) }

  // ----- facts about the catalogue -------------------------------------------

  /**
   * Every entry has an id; buyable items have a price; only lootboxes and
   * resource packs open, and their loot tables are well formed; only
   * consumables have a `use`, boosters last a positive time and clovers do
   * not lower weights.
   */
  predicate Shaped(def: ItemDef) {
    def.itemId != ""
    && (def.buyable ==> def.price.Some?)
    && (def.open.Some? ==> def.category in {Lootbox, ResourcePack})
    && (def.open.Some? && TableOf(def.open.value).Some? ==> WellFormedTable(TableOf(def.open.value).value))
    && (def.use.Some? ==> def.category == Consumable)
    && (def.use.Some? && def.use.value.StarBoostUse? ==> def.use.value.durationMinutes > 0)
    && (def.use.Some? && def.use.value.LuckCloverUse? ==> def.use.value.luckBoostFactor >= 1.0)
  }

  /** The loot table of a lootbox-style opener. */
  function TableOf(opener: Opener): Option<seq<LootEntry>> {
    match opener
    case LootTableOpen(t) => Some(t)
    case FortuneChestOpen(t) => Some(t)
    case ShardPouchOpen(t) => Some(t)
    case _ => None
  }

  /**
   * A weight of at least a tenth (the precision a clover's rounding keeps),
   * quantities of at least one, and not the shimmering frame.
   */
  predicate WellFormedEntry(e: LootEntry) {
    e.weight >= 0.1 && e.value.id != SHIMMERING_FRAME
    && (e.value.quantity.Some? ==> e.value.quantity.value >= 1)
    && (e.value.quantityRange.Some? ==> 1 <= e.value.quantityRange.value.lo <= e.value.quantityRange.value.hi)
  }

  predicate WellFormedTable(t: seq<LootEntry>) {
    |t| > 0 && forall i :: 0 <= i < |t| ==> WellFormedEntry(t[i])
  }

  /** The shape facts and the absence of the shimmering frame, one group at a time. */
  lemma ResourcesFacts() ensures forall def :: def in Resources ==> Shaped(def) && def.itemId != SHIMMERING_FRAME {}
  lemma StarBoostsFacts() ensures forall def :: def in StarBoosts ==> Shaped(def) && def.itemId != SHIMMERING_FRAME {}
  lemma LuckCloversFacts() ensures forall def :: def in LuckClovers ==> Shaped(def) && def.itemId != SHIMMERING_FRAME {}
  lemma CraftingKitsFacts() ensures forall def :: def in CraftingKits ==> Shaped(def) && def.itemId != SHIMMERING_FRAME {}
  lemma LootboxesFacts() ensures forall def :: def in Lootboxes ==> Shaped(def) && def.itemId != SHIMMERING_FRAME {
    TablesWellFormed();
  }
  lemma SpecialLootboxesFacts() ensures forall def :: def in SpecialLootboxes ==> Shaped(def) && def.itemId != SHIMMERING_FRAME {
    TablesWellFormed();
  }

  lemma TablesWellFormed()
    ensures WellFormedTable(BronzeTable) && WellFormedTable(SilverTable) && WellFormedTable(GoldTable)
    ensures WellFormedTable(MythicTable) && WellFormedTable(FortuneTable) && WellFormedTable(ShardPouchTable)
    ensures WellFormedTable(SpookyTable)
  {
    assert WellFormedTable(BronzeTable);
    assert WellFormedTable(SilverTable);
    assert WellFormedTable(GoldTable);
    assert WellFormedTable(MythicTable);
    assert WellFormedTable(FortuneTable);
    assert WellFormedTable(ShardPouchTable);
  }
  lemma PremiumPassesFacts() ensures forall def :: def in PremiumPasses ==> Shaped(def) && def.itemId != SHIMMERING_FRAME {}
  lemma ProfileAccentsFacts() ensures forall def :: def in ProfileAccents ==> Shaped(def) && def.itemId != SHIMMERING_FRAME {}
  lemma RewardAccentsFacts() ensures forall def :: def in RewardAccents ==> Shaped(def) && def.itemId != SHIMMERING_FRAME {}
  lemma TokensAndEventItemsFacts()
    ensures forall def :: def in TokensAndEventItems ==> Shaped(def) && def.itemId != SHIMMERING_FRAME
  {}

  /** Every catalogue entry has the shape above, and none is the shimmering frame. */
  lemma CatalogueShape()
    ensures forall def :: def in Catalogue ==> Shaped(def) && def.itemId != SHIMMERING_FRAME
  {
    ResourcesFacts(); StarBoostsFacts(); LuckCloversFacts(); CraftingKitsFacts();
    LootboxesFacts(); SpecialLootboxesFacts(); PremiumPassesFacts();
    ProfileAccentsFacts(); RewardAccentsFacts(); TokensAndEventItemsFacts();
  }

  /** `getItemDefinition('profile_frame_shimmering')` is null. */
  lemma NoShimmeringFrame()
    ensures GetItemDefinition(SHIMMERING_FRAME) == None
  {
    CatalogueShape();
    Absent(Catalogue, SHIMMERING_FRAME);
  }

  lemma Absent(defs: seq<ItemDef>, itemId: string)
    requires forall def :: def in defs ==> def.itemId != itemId
    ensures FindItem(defs, itemId) == None
  {
    assert forall j :: 0 <= j < |defs| ==> defs[j] in defs;
  }

  /**
   * `find` by id on a filtered list finds an entry of the list that passed the
   * filter, and finds one whenever such an entry exists.
   */
  lemma FindInShop(defs: seq<ItemDef>, itemId: string)
    ensures var found := FindItem(ShopFilter(defs), itemId);
      found.Some? ==> found.value in defs && found.value.buyable && found.value.itemId == itemId
    ensures (exists def :: def in defs && def.buyable && def.itemId == itemId)
            ==> FindItem(ShopFilter(defs), itemId).Some?
  {
    var shop := ShopFilter(defs);
    if def :| def in defs && def.buyable && def.itemId == itemId {
      assert def in shop;
      var j :| 0 <= j < |shop| && shop[j] == def;
    }
  }

  lemma FindInCraftable(defs: seq<ItemDef>, itemId: string)
    ensures var found := FindItem(CraftableFilter(defs), itemId);
      found.Some? ==> found.value in defs && found.value.craftable && found.value.recipe.Some?
                      && found.value.itemId == itemId
    ensures (exists def :: def in defs && def.craftable && def.recipe.Some? && def.itemId == itemId)
            ==> FindItem(CraftableFilter(defs), itemId).Some?
  {
    var list := CraftableFilter(defs);
    if def :| def in defs && def.craftable && def.recipe.Some? && def.itemId == itemId {
      assert def in list;
      var j :| 0 <= j < |list| && list[j] == def;
    }
  }

  /**
   * `items.find(i => i.itemId === itemId)` on the shop list finds a buyable,
   * priced catalogue entry with that id, and finds one for every buyable id.
   */
  lemma ShopItemsAreBuyable(itemId: string)
    ensures var found := FindItem(GetShopItems(), itemId);
      found.Some? ==> found.value in Catalogue && found.value.buyable && found.value.itemId == itemId
                      && found.value.price.Some?
    ensures (exists def :: def in Catalogue && def.buyable && def.itemId == itemId)
            ==> FindItem(GetShopItems(), itemId).Some?
  {
    CatalogueShape();
    FindInShop(Catalogue, itemId);
  }

  /** The crafting list holds exactly the catalogue entries that are craftable and carry a recipe. */
  lemma CraftableItemsHaveRecipes(itemId: string)
    ensures var found := FindItem(GetCraftableItems(), itemId);
      found.Some? ==> found.value in Catalogue && found.value.craftable && found.value.recipe.Some?
                      && found.value.itemId == itemId
    ensures (exists def :: def in Catalogue && def.craftable && def.recipe.Some? && def.itemId == itemId)
            ==> FindItem(GetCraftableItems(), itemId).Some?
  {
    FindInCraftable(Catalogue, itemId);
  }
}
