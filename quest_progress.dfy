/**
 * Quest progress (`updateQuestProgress`). An event of some quest type, with a
 * value, advances every active quest of that type that is neither completed
 * nor claimed, by an increment that depends on the type; a quest that reaches
 * its target is clamped to it, marked completed and reported.
 *
 * Two rule sets exist: the current one (src/models/UserProfile.js) and the
 * legacy one (models/UserProfile.js). The legacy profile reads its quests
 * from utils/questDefinitions.js, which is not part of this model; both rule
 * sets are applied to the catalogue in `QuestDefinitions`.
 */
module QuestProgress {

  import opened Util
  import opened Profile
  import opened QuestDefinitions

  datatype Rules = Current | Legacy

  /** The event's `value`: a number (the default is 1) or a string (an item or lootbox id). */
  datatype QuestValue = Num(n: real) | Text(s: string)

  /** `questDef.criteria?.itemId` */
  function CriteriaItem(def: QuestDef): Option<string> {
    if def.criteria.Some? then def.criteria.value.itemId else None
  }

  /** `questDef.criteria?.lootboxId` */
  function CriteriaLootbox(def: QuestDef): Option<string> {
    if def.criteria.Some? then def.criteria.value.lootboxId else None
  }

  /** `value === s` */
  predicate Is(value: QuestValue, s: Option<string>) {
    s.Some? && value == Text(s.value)
  }

  /** The number carried by the value, or `otherwise` when it is not a number. */
  function NumberOr(value: QuestValue, otherwise: real): real {
    if value.Num? then value.n else otherwise
  }

  /** The progress increment of the current rules. */
  function CurrentIncrement(questType: string, value: QuestValue, def: QuestDef): real {
    if questType in [MESSAGES_SENT, USE_DAILY_COMMAND, BUY_STOCK] then NumberOr(value, 1.0)
    else if questType in [VOICE_TIME, SPEND_STARS] then NumberOr(value, 0.0)
    else if questType == CRAFT_ITEM && Truthy(CriteriaItem(def)) && Is(value, CriteriaItem(def)) then 1.0
    else if questType == OPEN_LOOTBOX && (!Truthy(CriteriaLootbox(def)) || Is(value, CriteriaLootbox(def))) then 1.0
    else 0.0
  }

  /** The progress increment of the legacy rules (its `switch (type)`). */
  function LegacyIncrement(questType: string, value: QuestValue, def: QuestDef): real {
    if questType in [MESSAGES_SENT, USE_DAILY_COMMAND, PRAISE_USER, GIVE_REACTION, GET_REACTION, BUY_STOCK] then
      NumberOr(value, 1.0)
    else if questType in [VOICE_TIME, SPEND_STARS] then NumberOr(value, 0.0)
    else if questType == CRAFT_ITEM then
      (if Truthy(CriteriaItem(def)) then (if Is(value, CriteriaItem(def)) then 1.0 else 0.0) else 1.0)
    else if questType == OPEN_LOOTBOX then
      (if Truthy(CriteriaLootbox(def)) then (if Is(value, CriteriaLootbox(def)) then 1.0 else 0.0) else 1.0)
    else 0.0
  }

  function Increment(rules: Rules, questType: string, value: QuestValue, def: QuestDef): real {
    match rules
    case Current => CurrentIncrement(questType, value, def)
    case Legacy => LegacyIncrement(questType, value, def)
  }

  /** What one pass of the loop does to one quest. */
  datatype Step = Step(quest: ActiveQuest, modified: bool, completed: bool)

  /** The quest is open and its catalogue entry has the event's type. */
  predicate Applies(q: ActiveQuest, questType: string) {
    !q.isCompleted && !q.isClaimed
    && GetQuestDefinition(q.questId).Some? && GetQuestDefinition(q.questId).value.questType == questType
  }

  function StepQuest(rules: Rules, q: ActiveQuest, questType: string, value: QuestValue): (s: Step)
    ensures s.completed ==> s.modified
    ensures s.quest.questId == q.questId && s.quest.target == q.target && s.quest.isClaimed == q.isClaimed
    ensures !s.modified ==> s.quest == q
  {
    if !Applies(q, questType) then Step(q, false, false)
    else
      var inc := Increment(rules, questType, value, GetQuestDefinition(q.questId).value);
      if inc > 0.0 then
        var progressed := q.progress + inc;
        if progressed >= q.target then Step(q.(progress := q.target, isCompleted := true), true, true)
        else Step(q.(progress := progressed), true, false)
      else Step(q, false, false)
  }

  /**
   * A quest the event does not apply to (completed, claimed, without a
   * catalogue entry, or of another type) is left as it was and not reported;
   * otherwise only its progress and completion can change.
   */
  lemma StepLeavesOtherFields(rules: Rules, q: ActiveQuest, questType: string, value: QuestValue)
    ensures var s := StepQuest(rules, q, questType, value);
      && s.quest == q.(progress := s.quest.progress, isCompleted := s.quest.isCompleted)
      && (!Applies(q, questType) ==> s == Step(q, false, false))
  {
  }

  /**
   * A quest the event applies to is advanced exactly when its increment is
   * positive, by that increment clamped at the target, and completes exactly
   * when progress plus increment reaches the target.
   */
  lemma StepAdvancesByIncrement(rules: Rules, q: ActiveQuest, questType: string, value: QuestValue)
    requires Applies(q, questType)
    ensures var inc := Increment(rules, questType, value, GetQuestDefinition(q.questId).value);
      var s := StepQuest(rules, q, questType, value);
      && (s.modified <==> inc > 0.0)
      && (s.modified ==> s.quest.progress == (if q.progress + inc >= q.target then q.target else q.progress + inc))
      && (s.completed <==> inc > 0.0 && q.progress + inc >= q.target)
      && s.quest.isCompleted == (s.completed || q.isCompleted)
  {
  }

  /** The result of updateQuestProgress: the new quest list, `newlyCompletedQuestIds` and `wasModified`. */
  datatype Outcome = Outcome(quests: seq<ActiveQuest>, newlyCompletedQuestIds: seq<string>, wasModified: bool)

  /**
   * The loop after the first `n` quests: those `n` stepped, the rest as they
   * were, the completed ids so far in order, and whether any quest changed.
   */
  function Prefix(rules: Rules, qs: seq<ActiveQuest>, n: nat, questType: string, value: QuestValue): (o: Outcome)
    requires n <= |qs|
    ensures |o.quests| == |qs|
    ensures forall j :: n <= j < |qs| ==> o.quests[j] == qs[j]
  {
    if n == 0 then Outcome(qs, [], false)
    else
      var pre := Prefix(rules, qs, n - 1, questType, value);
      var s := StepQuest(rules, qs[n - 1], questType, value);
      Outcome(pre.quests[n - 1 := s.quest],
              pre.newlyCompletedQuestIds + (if s.completed then [s.quest.questId] else []),
              pre.wasModified || s.modified)
  }

  /** The whole list processed. */
  function UpdateAll(rules: Rules, qs: seq<ActiveQuest>, questType: string, value: QuestValue): (o: Outcome)
    ensures |o.quests| == |qs|
  {
    Prefix(rules, qs, |qs|, questType, value)
  }

  lemma {:induction false} PrefixPointwise(rules: Rules, qs: seq<ActiveQuest>, n: nat, questType: string, value: QuestValue)
    requires n <= |qs|
    ensures forall i :: 0 <= i < n ==> Prefix(rules, qs, n, questType, value).quests[i] == StepQuest(rules, qs[i], questType, value).quest
  {
    if n > 0 {
      PrefixPointwise(rules, qs, n - 1, questType, value);
    }
  }

  /** Every quest of the list is advanced on its own, by one step. */
  lemma UpdateAllPointwise(rules: Rules, qs: seq<ActiveQuest>, questType: string, value: QuestValue)
    ensures forall i :: 0 <= i < |qs| ==> UpdateAll(rules, qs, questType, value).quests[i] == StepQuest(rules, qs[i], questType, value).quest
  {
    PrefixPointwise(rules, qs, |qs|, questType, value);
  }

  /**
   * A completed or claimed quest, one of another type and one without a
   * catalogue entry come back exactly as they were.
   */
  lemma UntouchedQuestsUnchanged(rules: Rules, qs: seq<ActiveQuest>, questType: string, value: QuestValue)
    ensures forall i :: 0 <= i < |qs| && !Applies(qs[i], questType) ==>
      UpdateAll(rules, qs, questType, value).quests[i] == qs[i]
    ensures forall i :: 0 <= i < |qs| && (qs[i].isCompleted || qs[i].isClaimed) ==>
      UpdateAll(rules, qs, questType, value).quests[i] == qs[i]
    ensures forall i :: 0 <= i < |qs| && GetQuestDefinition(qs[i].questId).None? ==>
      UpdateAll(rules, qs, questType, value).quests[i] == qs[i]
    ensures forall i :: 0 <= i < |qs| && GetQuestDefinition(qs[i].questId).Some?
                        && GetQuestDefinition(qs[i].questId).value.questType != questType ==>
      UpdateAll(rules, qs, questType, value).quests[i] == qs[i]
  {
    UpdateAllPointwise(rules, qs, questType, value);
    forall i | 0 <= i < |qs| ensures !Applies(qs[i], questType) ==> StepQuest(rules, qs[i], questType, value).quest == qs[i] {
      StepLeavesOtherFields(rules, qs[i], questType, value);
    }
  }

  /**
   * In the whole update, each quest the event applies to gains its positive
   * increment, clamped at the target (and is then completed exactly when the
   * target is reached), and is left as it was when the increment is not positive.
   */
  lemma UpdateAllAdvancesByIncrement(rules: Rules, qs: seq<ActiveQuest>, questType: string, value: QuestValue)
    ensures forall i :: 0 <= i < |qs| && Applies(qs[i], questType) ==>
      var inc := Increment(rules, questType, value, GetQuestDefinition(qs[i].questId).value);
      var q := UpdateAll(rules, qs, questType, value).quests[i];
      && (inc > 0.0 && qs[i].progress + inc >= qs[i].target ==> q == qs[i].(progress := qs[i].target, isCompleted := true))
      && (inc > 0.0 && qs[i].progress + inc < qs[i].target ==> q == qs[i].(progress := qs[i].progress + inc))
      && (inc <= 0.0 ==> q == qs[i])
  {
    UpdateAllPointwise(rules, qs, questType, value);
    forall i | 0 <= i < |qs| && Applies(qs[i], questType)
      ensures var inc := Increment(rules, questType, value, GetQuestDefinition(qs[i].questId).value);
        var s := StepQuest(rules, qs[i], questType, value);
        && (inc > 0.0 && qs[i].progress + inc >= qs[i].target ==> s.quest == qs[i].(progress := qs[i].target, isCompleted := true))
        && (inc > 0.0 && qs[i].progress + inc < qs[i].target ==> s.quest == qs[i].(progress := qs[i].progress + inc))
        && (inc <= 0.0 ==> s.quest == qs[i])
    {
      StepAdvancesByIncrement(rules, qs[i], questType, value);
      StepLeavesOtherFields(rules, qs[i], questType, value);
    }
  }

  lemma {:induction false} PrefixModified(rules: Rules, qs: seq<ActiveQuest>, n: nat, questType: string, value: QuestValue)
    requires n <= |qs|
    ensures Prefix(rules, qs, n, questType, value).wasModified <==>
      exists i :: 0 <= i < n && StepQuest(rules, qs[i], questType, value).modified
  {
    if n > 0 {
      PrefixModified(rules, qs, n - 1, questType, value);
    }
  }

  /** `wasModified` holds exactly when some quest was given a positive increment. */
  lemma WasModifiedIff(rules: Rules, qs: seq<ActiveQuest>, questType: string, value: QuestValue)
    ensures UpdateAll(rules, qs, questType, value).wasModified <==>
      exists i :: 0 <= i < |qs| && StepQuest(rules, qs[i], questType, value).modified
  {
    PrefixModified(rules, qs, |qs|, questType, value);
  }

  lemma {:induction false} PrefixCompleted(rules: Rules, qs: seq<ActiveQuest>, n: nat, questType: string, value: QuestValue, id: string)
    requires n <= |qs|
    ensures id in Prefix(rules, qs, n, questType, value).newlyCompletedQuestIds <==>
      exists i :: 0 <= i < n && qs[i].questId == id && StepQuest(rules, qs[i], questType, value).completed
  {
    if n > 0 {
      PrefixCompleted(rules, qs, n - 1, questType, value, id);
    }
  }

  /**
   * A quest id is reported exactly when a quest with that id went from open to
   * completed in this call.
   */
  lemma NewlyCompletedIff(rules: Rules, qs: seq<ActiveQuest>, questType: string, value: QuestValue, id: string)
    ensures id in UpdateAll(rules, qs, questType, value).newlyCompletedQuestIds <==>
      exists i :: 0 <= i < |qs| && qs[i].questId == id && !qs[i].isCompleted
                  && UpdateAll(rules, qs, questType, value).quests[i].isCompleted
  {
    PrefixCompleted(rules, qs, |qs|, questType, value, id);
    UpdateAllPointwise(rules, qs, questType, value);
    forall i | 0 <= i < |qs|
      ensures StepQuest(rules, qs[i], questType, value).completed
          <==> !qs[i].isCompleted && StepQuest(rules, qs[i], questType, value).quest.isCompleted
    {
    }
  }

  /**
   * A well-formed quest: progress between 0 and the target, and completed
   * exactly when the target is reached. Freshly assigned quests (progress 0,
   * positive target) are well-formed.
   */
  predicate WellFormed(q: ActiveQuest) {
    0.0 <= q.progress <= q.target && (q.isCompleted <==> q.progress == q.target)
  }

  /** Progress never decreases, never passes the target, and keeps a quest well-formed. */
  lemma StepKeepsWellFormed(rules: Rules, q: ActiveQuest, questType: string, value: QuestValue)
    requires WellFormed(q)
    ensures WellFormed(StepQuest(rules, q, questType, value).quest)
    ensures StepQuest(rules, q, questType, value).quest.progress >= q.progress
    ensures StepQuest(rules, q, questType, value).modified ==> StepQuest(rules, q, questType, value).quest.progress > q.progress
    ensures q.isCompleted ==> StepQuest(rules, q, questType, value).quest == q
  {
  }

  lemma UpdateAllKeepsWellFormed(rules: Rules, qs: seq<ActiveQuest>, questType: string, value: QuestValue)
    requires forall i :: 0 <= i < |qs| ==> WellFormed(qs[i])
    ensures var o := UpdateAll(rules, qs, questType, value);
      forall i :: 0 <= i < |qs| ==> WellFormed(o.quests[i]) && o.quests[i].progress >= qs[i].progress
  {
    UpdateAllPointwise(rules, qs, questType, value);
    forall i | 0 <= i < |qs| ensures WellFormed(StepQuest(rules, qs[i], questType, value).quest) {
      StepKeepsWellFormed(rules, qs[i], questType, value);
    }
  }

  /** One pass of the loop body: the quest after the event, and whether it was advanced or completed. */
  method AdvanceQuest(rules: Rules, quest0: ActiveQuest, questType: string, value: QuestValue)
    returns (quest: ActiveQuest, modified: bool, completed: bool)
    ensures Step(quest, modified, completed) == StepQuest(rules, quest0, questType, value)
  {
    quest, modified, completed := quest0, false, false;
    if quest.isCompleted || quest.isClaimed {
      return;
    }
    var questDef := GetQuestDefinition(quest.questId);
    if questDef.None? || questDef.value.questType != questType {
      return;
    }
    var progressIncrement := Increment(rules, questType, value, questDef.value);
    if progressIncrement > 0.0 {
      quest := quest.(progress := quest.progress + progressIncrement);
      modified := true;
      if quest.progress >= quest.target {
        quest := quest.(progress := quest.target, isCompleted := true);
        completed := true;
      }
    }
  }

  /**
   * `updateQuestProgress(type, value)`: walks the profile's active quests in
   * order, advancing each one the event applies to.
   */
  method UpdateQuestProgress(p: UserProfile, rules: Rules, questType: string, value: QuestValue)
    returns (newlyCompletedQuestIds: seq<string>, wasModified: bool)
    modifies p`activeQuests
    ensures var o := UpdateAll(rules, old(p.activeQuests), questType, value);
      p.activeQuests == o.quests && newlyCompletedQuestIds == o.newlyCompletedQuestIds && wasModified == o.wasModified
  {
    newlyCompletedQuestIds := [];
    if |p.activeQuests| == 0 {
      return [], false;
    }
    wasModified := false;
    var quests0 := p.activeQuests;
    var quests := quests0;
    var i := 0;
    while i < |quests|
      invariant 0 <= i <= |quests0|
      invariant Prefix(rules, quests0, i, questType, value) == Outcome(quests, newlyCompletedQuestIds, wasModified)
    {
      var quest, modified, completed := AdvanceQuest(rules, quests[i], questType, value);
      if modified {
        wasModified := true;
        if completed {
          newlyCompletedQuestIds := newlyCompletedQuestIds + [quest.questId];
        }
        quests := quests[i := quest];
      }
      i := i + 1;
    }
    p.activeQuests := quests;
  }

  // ----- the two rule sets compared ---------------------------------------------

  /**
   * Under the current rules a praise or reaction quest, and a crafting quest
   * without criteria, gets a zero increment whatever the event.
   */
  predicate StalledUnderCurrent(def: QuestDef) {
    def.questType in [PRAISE_USER, GIVE_REACTION, GET_REACTION]
    || (def.questType == CRAFT_ITEM && !Truthy(CriteriaItem(def)))
  }

  lemma CurrentRulesStallQuests(q: ActiveQuest, questType: string, value: QuestValue)
    requires GetQuestDefinition(q.questId).Some? && StalledUnderCurrent(GetQuestDefinition(q.questId).value)
    ensures StepQuest(Current, q, questType, value) == Step(q, false, false)
  {
  }

  /** Six of the fifteen catalogue quests are stalled under the current rules. */
  lemma StalledQuestsInCatalogue()
    ensures forall id :: id in ["daily_praise_one", "weekly_craft_3", "daily_react_5",
                               "daily_get_3_reactions", "weekly_praise_5", "weekly_get_20_reactions"] ==>
      GetQuestDefinition(id).Some? && StalledUnderCurrent(GetQuestDefinition(id).value)
  {
  }

  /** An event that counts for the quest: its criteria item or lootbox when it has one, otherwise the number 1. */
  function CountingEvent(def: QuestDef): QuestValue {
    if def.questType == CRAFT_ITEM && Truthy(CriteriaItem(def)) then Text(CriteriaItem(def).value)
    else if def.questType == OPEN_LOOTBOX && Truthy(CriteriaLootbox(def)) then Text(CriteriaLootbox(def).value)
    else Num(1.0)
  }

  /** Under the legacy rules a quest of any of the ten types has a positive increment on an event that counts for it. */
  lemma LegacyIncrementPositive(def: QuestDef)
    requires def.questType in QuestTypes
    ensures LegacyIncrement(def.questType, CountingEvent(def), def) > 0.0
  {
  }

  /** Under the legacy rules every open catalogue quest advances on an event that counts for it. */
  lemma LegacyRulesAdvanceEveryQuest(q: ActiveQuest)
    requires !q.isCompleted && !q.isClaimed && GetQuestDefinition(q.questId).Some?
    ensures var def := GetQuestDefinition(q.questId).value;
      StepQuest(Legacy, q, def.questType, CountingEvent(def)).modified
  {
    CatalogueEntry(q.questId);
    LegacyIncrementPositive(GetQuestDefinition(q.questId).value);
  }
}
