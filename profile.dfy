/**
 * The user profile document as far as the economy touches it: currency
 * balances and their escrow, the item inventory, achievements, active quests,
 * the two active consumable effects, the stock portfolio, premium status and
 * the equipped profile accents. Both profile files (src/models/UserProfile.js
 * with its parts, and the legacy models/UserProfile.js) declare these fields
 * with the same names and shapes. Dates are milliseconds since the epoch.
 */
module Profile {

  import opened Util
  import Stacks
  import Escrow

  /** `{ achievementId, dateCompleted }` */
  datatype Achievement = Achievement(achievementId: string, dateCompleted: int)

  /** `{ questId, progress, target, isCompleted, isClaimed, assignedAt, frequency }` */
  datatype ActiveQuest = ActiveQuest(
    questId: string, progress: real, target: real,
    isCompleted: bool, isClaimed: bool, assignedAt: int, frequency: string)

  /** `{ itemId, multiplier, durationMinutes, appliedAt, expiresAt }`; the display name is left out. */
  datatype StarBoost = StarBoost(
    itemId: string, multiplier: real, durationMinutes: int, appliedAt: int, expiresAt: int)

  /** `{ itemId, luckBoostFactor, affectsLootboxCategories }`; name and description are left out. */
  datatype LuckClover = LuckClover(
    itemId: string, luckBoostFactor: real, affectsLootboxCategories: seq<string>)

  /** A stock position `{ ticker, quantity, avgBuyPrice, totalInvested }`. */
  datatype Position = Position(ticker: string, quantity: real, avgBuyPrice: real, totalInvested: real)

  /** `premiumType`: 'temporary' or 'permanent' (absent is `None`). */
  datatype PremiumType = Temporary | Permanent

  class UserProfile {
    var stars: real
    var shards: real
    var reservedStars: real
    var reservedShards: real
    var inventory: seq<Stacks.Stack>
    var achievements: seq<Achievement>
    var activeQuests: seq<ActiveQuest>
    var activeStarBoost: Option<StarBoost>
    var activeLuckClover: Option<LuckClover>
    var portfolio: seq<Position>
    var premiumType: Option<PremiumType>
    var premiumRoleExpiresAt: Option<int>
    var activeAvatarFrameId: Option<string>
    var activeCardBgId: Option<string>

    /** A fresh document with the schema defaults. */
    constructor ()
      ensures stars == 0.0 && shards == 0.0 && reservedStars == 0.0 && reservedShards == 0.0
      ensures inventory == [] && achievements == [] && activeQuests == [] && portfolio == []
      ensures activeStarBoost == None && activeLuckClover == None
      ensures premiumType == None && premiumRoleExpiresAt == None
      ensures activeAvatarFrameId == None && activeCardBgId == None
    {
      stars, shards, reservedStars, reservedShards := 0.0, 0.0, 0.0, 0.0;
      inventory, achievements, activeQuests, portfolio := [], [], [], [];
      activeStarBoost, activeLuckClover := None, None;
      premiumType, premiumRoleExpiresAt := None, None;
      activeAvatarFrameId, activeCardBgId := None, None;
    }

    /** The star balance with its escrow. */
    function StarPool(): Escrow.Pool
      reads this
    {
      Escrow.Pool(stars, reservedStars)
    }

    /** The shard balance with its escrow. */
    function ShardPool(): Escrow.Pool
      reads this
    {
      Escrow.Pool(shards, reservedShards)
    }
  }
}
