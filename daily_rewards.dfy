/**
 * The seven-day reward cycle (utils/dailyRewardDefinitions.js): the table of
 * rewards and the lookup by day. Descriptions and emoji are left out.
 */
module DailyRewards {

  import opened Util

  /** `DailyRewardType`. */
  datatype DailyRewardType = Stars | Shards | ItemType

  /** `{ day, type, itemId?, quantity }`. */
  datatype DailyReward = DailyReward(day: int, rewardType: DailyRewardType, itemId: Option<string>, quantity: int)

  const WEEKLY_BONUS := "lootbox_weekly_bonus"

  /** `dailyRewards`. */
  const Table: seq<DailyReward> := [
    DailyReward(1, Stars, None, 50),
    DailyReward(2, ItemType, Some("resource_common_fragment"), 1),
    DailyReward(3, Stars, None, 75),
    DailyReward(4, ItemType, Some("resource_uncommon_spark"), 1),
    DailyReward(5, Stars, None, 100),
    DailyReward(6, ItemType, Some("luck_clover_small"), 1),
    DailyReward(7, ItemType, Some(WEEKLY_BONUS), 1)]

  /** `getDailyReward(dayInCycle)`: null outside 1..7, else entry `dayInCycle - 1`. */
  function GetDailyReward(dayInCycle: int): Option<DailyReward> {
    if dayInCycle < 1 || dayInCycle > 7 then None else Some(Table[dayInCycle - 1])
  }

  /**
   * The table has seven entries for days 1 to 7 in order, each with a
   * positive quantity; exactly the item rewards name an item.
   */
  lemma TableShape()
    ensures |Table| == 7
    ensures forall k :: 0 <= k < |Table| ==> Table[k].day == k + 1
    ensures forall k :: 0 <= k < |Table| ==> Table[k].quantity > 0
    ensures forall k :: 0 <= k < |Table| ==> (Table[k].itemId.Some? <==> Table[k].rewardType == ItemType)
  {
  }

  /**
   * The lookup answers exactly on days 1 to 7, with the entry of the table
   * whose day is the one asked for; the seventh day gives one weekly bonus chest.
   */
  lemma LookupByDay(dayInCycle: int)
    ensures GetDailyReward(dayInCycle).Some? <==> 1 <= dayInCycle <= 7
    ensures GetDailyReward(dayInCycle).Some? ==>
      GetDailyReward(dayInCycle).value.day == dayInCycle && GetDailyReward(dayInCycle).value.quantity > 0
    ensures 1 <= dayInCycle <= 7 ==> GetDailyReward(dayInCycle).value in Table
    ensures forall e :: e in Table && e.day == dayInCycle ==> GetDailyReward(dayInCycle) == Some(e)
    ensures GetDailyReward(7) == Some(DailyReward(7, ItemType, Some(WEEKLY_BONUS), 1))
  {
    TableShape();
  }
}
