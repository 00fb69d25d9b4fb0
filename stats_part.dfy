/**
 * Achievements of a profile (src/models/parts/StatsPart.js; the legacy
 * models/UserProfile.js has the same bodies). `new Date()` becomes the `now`
 * parameter.
 */
module StatsPart {

  import opened Profile

  /** Some achievement in the list carries the id. */
  predicate Holds(achievements: seq<Achievement>, achievementId: string) {
    exists j :: 0 <= j < |achievements| && achievements[j].achievementId == achievementId
  }

  /** The list after granting: unchanged when already held, otherwise one entry appended. */
  function Grant(achievements: seq<Achievement>, achievementId: string, now: int): seq<Achievement> {
    if Holds(achievements, achievementId) then achievements
    else achievements + [Achievement(achievementId, now)]
  }

  /** `hasAchievement`: `achievements.some(a => a.achievementId === id)`. */
  predicate HasAchievement(p: UserProfile, achievementId: string)
    reads p
    ensures HasAchievement(p, achievementId) <==> achievementId in set a | a in p.achievements :: a.achievementId
  {
    Holds(p.achievements, achievementId)
  }

  /** `grantAchievement`: appends the achievement dated `now` unless it is already held. */
  method GrantAchievement(p: UserProfile, achievementId: string, now: int) returns (granted: bool)
    modifies p`achievements
    ensures granted <==> !Holds(old(p.achievements), achievementId)
    ensures p.achievements == Grant(old(p.achievements), achievementId, now)
  {
    if !HasAchievement(p, achievementId) {
      p.achievements := p.achievements + [Achievement(achievementId, now)];
      return true;
    }
    return false;
  }

  /**
   * After a grant the achievement is held, every achievement held before is
   * still held with its original date, and granting again changes nothing.
   */
  lemma GrantLaws(achievements: seq<Achievement>, achievementId: string, now: int, later: int)
    ensures Holds(Grant(achievements, achievementId, now), achievementId)
    ensures Grant(achievements, achievementId, now)[..|achievements|] == achievements
    ensures Grant(Grant(achievements, achievementId, now), achievementId, later) == Grant(achievements, achievementId, now)
    ensures |Grant(achievements, achievementId, now)| <= |achievements| + 1
  {
    var g := Grant(achievements, achievementId, now);
    if !Holds(achievements, achievementId) {
      assert g[|achievements|].achievementId == achievementId;
    }
  }

  /** Granting only ever adds an achievement that was not held, so a list without duplicates keeps none. */
  lemma GrantKeepsIdsDistinct(achievements: seq<Achievement>, achievementId: string, now: int)
    requires forall j, k :: 0 <= j < k < |achievements| ==> achievements[j].achievementId != achievements[k].achievementId
    ensures var g := Grant(achievements, achievementId, now);
      forall j, k :: 0 <= j < k < |g| ==> g[j].achievementId != g[k].achievementId
  {
    var g := Grant(achievements, achievementId, now);
    if !Holds(achievements, achievementId) {
      forall j, k | 0 <= j < k < |g| ensures g[j].achievementId != g[k].achievementId {
        if k == |achievements| {
          assert g[j] == achievements[j];
        } else {
          assert g[j] == achievements[j] && g[k] == achievements[k];
        }
      }
    }
  }
}
