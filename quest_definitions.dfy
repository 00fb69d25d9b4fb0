/**
 * The quest catalogue (src/utils/definitions/questDefinitions.js): the quest
 * types and frequencies, the fifteen quests, lookup by id, and the random draw
 * of quests to assign. Display names, descriptions and emoji are left out.
 */
module QuestDefinitions {

  import opened Util

  // QuestType
  const MESSAGES_SENT := "messages_sent"
  const VOICE_TIME := "voice_time"
  const USE_DAILY_COMMAND := "use_daily_command"
  const CRAFT_ITEM := "craft_item"
  const PRAISE_USER := "praise_user"
  const OPEN_LOOTBOX := "open_lootbox"
  const GIVE_REACTION := "give_reaction"
  const GET_REACTION := "get_reaction"
  const SPEND_STARS := "spend_stars"
  const BUY_STOCK := "buy_stock"

  // QuestFrequency
  const DAILY := "daily"
  const WEEKLY := "weekly"

  /** Optional `criteria`: which crafted item or which lootbox counts. */
  datatype Criteria = Criteria(itemId: Option<string>, lootboxId: Option<string>)

  /** `reward`: stars and an optional item with its quantity. */
  datatype QuestReward = QuestReward(stars: int, itemId: Option<string>, quantity: int)

  datatype QuestDef = QuestDef(
    id: string, questType: string, frequency: string, target: int,
    criteria: Option<Criteria>, reward: QuestReward)

  function Stars(n: int): QuestReward { QuestReward(n, None, 0) }
  function StarsAndItem(n: int, item: string, q: int): QuestReward { QuestReward(n, Some(item), q) }

  /** `getQuestDefinition(questId)`: the quest stored under the key, or null. */
  function GetQuestDefinition(questId: string): Option<QuestDef> {
    match questId
    case "daily_msg_10" => Some(QuestDef("daily_msg_10", MESSAGES_SENT, DAILY, 10, None, Stars(10)))
    case "daily_voice_15m" => Some(QuestDef("daily_voice_15m", VOICE_TIME, DAILY, 15 * 60, None, Stars(15)))
    case "daily_use_daily" => Some(QuestDef("daily_use_daily", USE_DAILY_COMMAND, DAILY, 1, None,
                                            QuestReward(0, Some("resource_common_fragment"), 1)))
    case "daily_praise_one" => Some(QuestDef("daily_praise_one", PRAISE_USER, DAILY, 1, None, Stars(5)))
    case "weekly_msg_100" => Some(QuestDef("weekly_msg_100", MESSAGES_SENT, WEEKLY, 100, None,
                                           StarsAndItem(50, "resource_uncommon_spark", 1)))
    case "weekly_voice_1h" => Some(QuestDef("weekly_voice_1h", VOICE_TIME, WEEKLY, 60 * 60, None,
                                            StarsAndItem(60, "luck_clover_small", 1)))
    case "weekly_craft_3" => Some(QuestDef("weekly_craft_3", CRAFT_ITEM, WEEKLY, 3, None,
                                           StarsAndItem(40, "resource_uncommon_spark", 2)))
    case "weekly_open_lootbox_2" => Some(QuestDef("weekly_open_lootbox_2", OPEN_LOOTBOX, WEEKLY, 2, None,
                                                  StarsAndItem(30, "lootbox_bronze", 1)))
    case "daily_react_5" => Some(QuestDef("daily_react_5", GIVE_REACTION, DAILY, 5, None, Stars(10)))
    case "daily_spend_100_stars" => Some(QuestDef("daily_spend_100_stars", SPEND_STARS, DAILY, 100, None, Stars(150)))
    case "daily_get_3_reactions" => Some(QuestDef("daily_get_3_reactions", GET_REACTION, DAILY, 3, None, Stars(20)))
    case "weekly_praise_5" => Some(QuestDef("weekly_praise_5", PRAISE_USER, WEEKLY, 5, None, Stars(75)))
    case "weekly_buy_stock" => Some(QuestDef("weekly_buy_stock", BUY_STOCK, WEEKLY, 1, None, Stars(40)))
    case "weekly_get_20_reactions" => Some(QuestDef("weekly_get_20_reactions", GET_REACTION, WEEKLY, 20, None,
                                                    StarsAndItem(100, "resource_uncommon_spark", 3)))
    case "weekly_craft_luck_clover" => Some(QuestDef("weekly_craft_luck_clover", CRAFT_ITEM, WEEKLY, 1,
                                                     Some(Criteria(Some("luck_clover_small"), None)), Stars(100)))
    case _ => None
  }

  /** The keys of the catalogue in declaration order (the order of `Object.values`). */
  const Ids: seq<string> := [
    "daily_msg_10", "daily_voice_15m", "daily_use_daily", "daily_praise_one",
    "weekly_msg_100", "weekly_voice_1h", "weekly_craft_3", "weekly_open_lootbox_2",
    "daily_react_5", "daily_spend_100_stars", "daily_get_3_reactions", "weekly_praise_5",
    "weekly_buy_stock", "weekly_get_20_reactions", "weekly_craft_luck_clover"]

  /** `Object.values(questDefinitions)`. */
  function All(): (r: seq<QuestDef>)
    ensures |r| == |Ids|
    ensures forall i :: 0 <= i < |r| ==> GetQuestDefinition(Ids[i]) == Some(r[i])
  {
    seq(|Ids|, i requires 0 <= i < |Ids| => GetQuestDefinition(Ids[i]).value)
  }

  /** The ten quest types. */
  const QuestTypes: set<string> := {MESSAGES_SENT, VOICE_TIME, USE_DAILY_COMMAND, CRAFT_ITEM, PRAISE_USER,
                                    OPEN_LOOTBOX, GIVE_REACTION, GET_REACTION, SPEND_STARS, BUY_STOCK}

  /** Exactly the listed keys are in the catalogue. */
  lemma CatalogueKeys(questId: string)
    ensures GetQuestDefinition(questId).Some? <==> questId in Ids
  {
  }

  /** Each quest is stored under its own id, with a known type and frequency and a positive target. */
  lemma CatalogueEntry(questId: string)
    requires GetQuestDefinition(questId).Some?
    ensures var def := GetQuestDefinition(questId).value;
      def.id == questId && def.target > 0 && def.frequency in {DAILY, WEEKLY} && def.questType in QuestTypes
  {
  }

  /** No key is listed twice. */
  lemma IdsDistinct()
    ensures forall i, j :: 0 <= i < j < |Ids| ==> Ids[i] != Ids[j]
  {
  }

  // ----- getRandomQuests -----------------------------------------------------

  /** The quests of `defs` with the frequency and not excluded, in order. */
  function Eligible(defs: seq<QuestDef>, frequency: string, excludeIds: seq<string>): (r: seq<QuestDef>)
    ensures forall q :: q in r <==> q in defs && q.frequency == frequency && q.id !in excludeIds
    ensures multiset(r) <= multiset(defs)
  {
    if defs == [] then []
    else
      assert defs == [defs[0]] + defs[1..];
      (if defs[0].frequency == frequency && defs[0].id !in excludeIds then [defs[0]] else [])
      + Eligible(defs[1..], frequency, excludeIds)
  }

  /** The end index of `slice(0, count)` on a list of length `len` (a negative count counts from the end). */
  function SliceEnd(len: nat, count: int): (e: nat)
    ensures e <= len
    ensures count >= 0 ==> e == if count < len then count else len
    ensures count < 0 ==> e == if len + count > 0 then len + count else 0
  {
    if count < 0 then (if len + count > 0 then len + count else 0)
    else if count < len then count else len
  }

  predicate DistinctIds(qs: seq<QuestDef>) {
    forall i, j :: 0 <= i < j < |qs| ==> qs[i].id != qs[j].id
  }

  /**
   * `getRandomQuests(frequency, count, excludeIds)`: the eligible quests in the
   * order the random sort left them, cut to `count`. `shuffled` is that order:
   * any rearrangement of the eligible quests.
   */
  function GetRandomQuests(frequency: string, count: int, excludeIds: seq<string>, shuffled: seq<QuestDef>): (r: seq<QuestDef>)
    requires multiset(shuffled) == multiset(Eligible(All(), frequency, excludeIds))
    ensures |r| == SliceEnd(|Eligible(All(), frequency, excludeIds)|, count)
    ensures forall q :: q in r ==> q in All() && q.frequency == frequency && q.id !in excludeIds
    ensures DistinctIds(r)
  {
    AllDistinctIds();
    DrawOfEligible(All(), frequency, excludeIds, shuffled);
    shuffled[..SliceEnd(|shuffled|, count)]
  }

  /** A rearrangement of the eligible quests of a catalogue with distinct ids. */
  lemma DrawOfEligible(defs: seq<QuestDef>, frequency: string, excludeIds: seq<string>, shuffled: seq<QuestDef>)
    requires DistinctIds(defs)
    requires multiset(shuffled) == multiset(Eligible(defs, frequency, excludeIds))
    ensures |shuffled| == |Eligible(defs, frequency, excludeIds)|
    ensures DistinctIds(shuffled)
    ensures forall q :: q in shuffled ==> q in defs && q.frequency == frequency && q.id !in excludeIds
  {
    var e := Eligible(defs, frequency, excludeIds);
    assert |shuffled| == |multiset(shuffled)| == |e|;
    DrawFacts(shuffled, defs);
    forall q | q in shuffled ensures q in e {
      assert q in multiset(shuffled);
    }
  }

  // ----- helper lemmas --------------------------------------------------------

  lemma AllDistinctIds()
    ensures DistinctIds(All())
  {
    IdsDistinct();
    var a := All();
    forall i, j | 0 <= i < j < |a| ensures a[i].id != a[j].id {
      CatalogueEntry(Ids[i]);
      CatalogueEntry(Ids[j]);
    }
  }

  /** A list with distinct ids holds each element at most once. */
  lemma {:induction false} DistinctIdsCountOnce(qs: seq<QuestDef>, q: QuestDef)
    requires DistinctIds(qs)
    ensures multiset(qs)[q] <= 1
  {
    if qs != [] {
      assert qs == [qs[0]] + qs[1..];
      assert DistinctIds(qs[1..]) by {
        forall i, j | 0 <= i < j < |qs[1..]| ensures qs[1..][i].id != qs[1..][j].id {
          assert qs[1..][i] == qs[i + 1] && qs[1..][j] == qs[j + 1];
        }
      }
      DistinctIdsCountOnce(qs[1..], q);
      if qs[0] == q {
        assert q !in qs[1..];
      }
    }
  }

  /** An element found at two positions is counted at least twice. */
  lemma TwiceCounted(s: seq<QuestDef>, i: nat, j: nat)
    requires i < j < |s| && s[i] == s[j]
    ensures multiset(s)[s[i]] >= 2
  {
    assert s == s[..j] + [s[j]] + s[j + 1..];
    assert s[i] in s[..j];
  }

  /** A draw of elements of a list with distinct ids, none more often than in the list, has distinct ids. */
  lemma DrawFacts(drawn: seq<QuestDef>, defs: seq<QuestDef>)
    requires multiset(drawn) <= multiset(defs) && DistinctIds(defs)
    ensures DistinctIds(drawn)
    ensures forall q :: q in drawn ==> q in defs
  {
    forall q | q in drawn ensures q in defs {
      assert q in multiset(drawn);
    }
    forall i, j | 0 <= i < j < |drawn| ensures drawn[i].id != drawn[j].id {
      assert drawn[i] in drawn && drawn[j] in drawn;
      var a :| 0 <= a < |defs| && defs[a] == drawn[i];
      var b :| 0 <= b < |defs| && defs[b] == drawn[j];
      if drawn[i].id == drawn[j].id {
        assert a == b;
        TwiceCounted(drawn, i, j);
        DistinctIdsCountOnce(defs, drawn[i]);
        assert false;
      }
    }
  }
}
