/** How one event is scored against the user's answers, and how a raw
    score becomes the clamped match percentage. The method ScoreEvent runs
    the accumulation loops of the page; the functions beside it specify
    each step, and the lemmas state what the score means. */
module Scoring {
  import opened Events

  /** The running state of one event's scoring: the score so far and the
      tags already matched. */
  datatype Tally = Tally(score: real, matched: set<string>)

  /** The weight of the skill ranked at `index` (0-based): 1.5, 1.35, 1.2, ... */
  function Weight(index: nat): real {
    1.5 - index as real * 0.15
  }

  /** One pass of the skill loop: a skill the event's tags contain adds its
      rank's weight and is marked matched; the loop does not consult the
      matched set. */
  function SkillStep(t: Tally, tags: seq<string>, skill: string, index: nat): Tally {
    if skill in tags then Tally(t.score + Weight(index), t.matched + {skill}) else t
  }

  /** The tally after the first `k` ranked skills. */
  function SkillFold(tags: seq<string>, skills: seq<string>, k: nat): Tally
    requires k <= |skills|
  {
    if k == 0 then Tally(0.0, {})
    else SkillStep(SkillFold(tags, skills, k - 1), tags, skills[k - 1], k - 1)
  }

  /** One pass of the experience loop: the answer's tag adds 0.8 when the
      event carries it and it is not matched yet, and is then marked. */
  function ExperienceStep(t: Tally, tags: seq<string>, exp: string): Tally {
    var tag := ExperienceTag(exp);
    if tag in tags && tag !in t.matched then Tally(t.score + 0.8, t.matched + {tag}) else t
  }

  /** The tally after the first `k` experience answers, starting from `start`. */
  function ExperienceFold(tags: seq<string>, start: Tally, exps: seq<string>, k: nat): Tally
    requires k <= |exps|
  {
    if k == 0 then start
    else ExperienceStep(ExperienceFold(tags, start, exps, k - 1), tags, exps[k - 1])
  }

  /** 0.7 for a non-empty preparation style the event carries and that no
      skill or experience answer has matched. */
  function PrepBonus(tags: seq<string>, prepStyle: string, matched: set<string>): (r: real)
    ensures r == 0.0 || r == 0.7
    ensures r > 0.0 ==> prepStyle in tags && prepStyle !in matched
  {
    if prepStyle != "" && prepStyle in tags && prepStyle !in matched then 0.7 else 0.0
  }

  /** Only the answer "Less popular events" has an effect: +1.5 for an event
      whose popularity is "Low", -0.8 for "High". */
  function PopularityAdjustment(preference: string, eventPopularity: string): (r: real)
    ensures -0.8 <= r <= 1.5
    ensures preference != LessPopular ==> r == 0.0
  {
    if preference == LessPopular then
      if eventPopularity == "Low" then 1.5
      else if eventPopularity == "High" then -0.8
      else 0.0
    else 0.0
  }

  /** +1 for "Team" on a team event and for "Solo" on any other event. */
  function TeamBonus(tags: seq<string>, teamPreference: string): (r: real)
    ensures r == 0.0 || r == 1.0
    ensures teamPreference != "Team" && teamPreference != "Solo" ==> r == 0.0
  {
    if teamPreference == "Team" && TeamTag in tags then 1.0
    else if teamPreference == "Solo" && TeamTag !in tags then 1.0
    else 0.0
  }

  /** The raw score of one event: skills, then experience, then the three
      independent bonuses. */
  function EventScore(e: Event, skills: seq<string>, input: FormData): real {
    var afterSkills := SkillFold(e.tags, skills, |skills|);
    var afterExperience := ExperienceFold(e.tags, afterSkills, input.experience, |input.experience|);
    afterExperience.score
      + PrepBonus(e.tags, input.prepStyle, afterExperience.matched)
      + PopularityAdjustment(input.popularity, e.popularity)
      + TeamBonus(e.tags, input.teamPreference)
  }

  /** The per-event body of `scoreEvents`: the two accumulation loops over
      a running score and a set of matched tags, then the fixed bonuses. */
  method ScoreEvent(e: Event, skills: seq<string>, input: FormData) returns (score: real)
    ensures score == EventScore(e, skills, input)
  {
    score := 0.0;
    var matched: set<string> := {};
    for index := 0 to |skills|
      invariant Tally(score, matched) == SkillFold(e.tags, skills, index)
    {
      var priorityWeight := 1.5 - index as real * 0.15;
      if skills[index] in e.tags {
        score := score + priorityWeight;
        matched := matched + {skills[index]};
      }
    }
    ghost var afterSkills := Tally(score, matched);
    for k := 0 to |input.experience|
      invariant Tally(score, matched) == ExperienceFold(e.tags, afterSkills, input.experience, k)
    {
      var tag := ExperienceTag(input.experience[k]);
      if tag in e.tags && tag !in matched {
        score := score + 0.8;
        matched := matched + {tag};
      }
    }
    if input.prepStyle != "" && input.prepStyle in e.tags && input.prepStyle !in matched {
      score := score + 0.7;
    }
    if input.popularity == LessPopular {
      if e.popularity == "Low" {
        score := score + 1.5;
      } else if e.popularity == "High" {
        score := score - 0.8;
      }
    }
    if input.teamPreference == "Team" && TeamTag in e.tags {
      score := score + 1.0;
    }
    if input.teamPreference == "Solo" && TeamTag !in e.tags {
      score := score + 1.0;
    }
  }

  // ---------------------------------------------------------------------
  // What the score means

  /** The ranked skills that the event carries. */
  function SkillTags(tags: seq<string>, skills: seq<string>): set<string> {
    set s | s in skills && s in tags
  }

  /** The tags the experience answers stand for that the event carries. */
  function ExperienceTags(tags: seq<string>, exps: seq<string>): set<string> {
    set exp | exp in exps && ExperienceTag(exp) in tags :: ExperienceTag(exp)
  }

  /** The skill loop marks exactly the ranked skills the event carries. */
  lemma {:induction false} SkillFoldMatched(tags: seq<string>, skills: seq<string>, k: nat)
    requires k <= |skills|
    ensures SkillFold(tags, skills, k).matched == SkillTags(tags, skills[..k])
  {
    if k > 0 {
      SkillFoldMatched(tags, skills, k - 1);
      assert skills[..k] == skills[..k - 1] + [skills[k - 1]];
    }
  }

  /** One more experience answer adds at most its own tag to the set of
      experience tags. */
  lemma ExperienceTagsSnoc(tags: seq<string>, exps: seq<string>, exp: string)
    ensures ExperienceTags(tags, exps + [exp])
         == ExperienceTags(tags, exps) + (if ExperienceTag(exp) in tags then {ExperienceTag(exp)} else {})
  {
    var whole := ExperienceTags(tags, exps + [exp]);
    var parts := ExperienceTags(tags, exps) + (if ExperienceTag(exp) in tags then {ExperienceTag(exp)} else {});
    forall t | t in whole ensures t in parts {
      var x :| x in exps + [exp] && ExperienceTag(x) in tags && ExperienceTag(x) == t;
      if x != exp { assert x in exps; }
    }
    forall t | t in parts ensures t in whole {
      if t in ExperienceTags(tags, exps) {
        var x :| x in exps && ExperienceTag(x) in tags && ExperienceTag(x) == t;
        assert x in exps + [exp];
      } else {
        assert exp in exps + [exp];
      }
    }
  }

  /** One experience answer marks its tag exactly when the event carries it. */
  lemma ExperienceStepMatched(t: Tally, tags: seq<string>, exp: string)
    ensures ExperienceStep(t, tags, exp).matched
         == t.matched + (if ExperienceTag(exp) in tags then {ExperienceTag(exp)} else {})
  {
  }

  /** The experience loop marks exactly the experience tags the event
      carries, on top of what was already marked. */
  lemma {:induction false} ExperienceFoldMatched(tags: seq<string>, start: Tally, exps: seq<string>, k: nat)
    requires k <= |exps|
    ensures ExperienceFold(tags, start, exps, k).matched == start.matched + ExperienceTags(tags, exps[..k])
  {
    if k == 0 {
      assert ExperienceTags(tags, exps[..0]) == {};
    } else {
      var prefix, exp := exps[..k - 1], exps[k - 1];
      ExperienceFoldMatched(tags, start, exps, k - 1);
      var before := ExperienceFold(tags, start, exps, k - 1);
      var added: set<string> := if ExperienceTag(exp) in tags then {ExperienceTag(exp)} else {};
      assert exps[..k] == prefix + [exp];
      ExperienceTagsSnoc(tags, prefix, exp);
      ExperienceStepMatched(before, tags, exp);
      calc {
        ExperienceFold(tags, start, exps, k).matched;
        ExperienceStep(before, tags, exp).matched;
        before.matched + added;
        start.matched + ExperienceTags(tags, prefix) + added;
        start.matched + ExperienceTags(tags, prefix + [exp]);
      }
    }
  }

  /** The experience loop earns exactly 0.8 for every tag it newly marks. */
  lemma {:induction false} ExperienceFoldScore(tags: seq<string>, start: Tally, exps: seq<string>, k: nat)
    requires k <= |exps|
    ensures start.matched <= ExperienceFold(tags, start, exps, k).matched
    ensures ExperienceFold(tags, start, exps, k).score
         == start.score + 0.8 * |ExperienceFold(tags, start, exps, k).matched - start.matched| as real
  {
    if k > 0 {
      ExperienceFoldScore(tags, start, exps, k - 1);
      var before := ExperienceFold(tags, start, exps, k - 1);
      var tag := ExperienceTag(exps[k - 1]);
      assert ExperienceFold(tags, start, exps, k) == ExperienceStep(before, tags, exps[k - 1]);
      if tag in tags && tag !in before.matched {
        assert ExperienceStep(before, tags, exps[k - 1]) == Tally(before.score + 0.8, before.matched + {tag});
        NewTagCount(before.matched, start.matched, tag);
      } else {
        assert ExperienceStep(before, tags, exps[k - 1]) == before;
      }
    }
  }

  /** Together: the experience answers earn 0.8 for each experience tag the
      event carries that was not matched before, however many answers lead
      to it, so no tag is counted twice. */
  lemma ExperienceFoldCounts(tags: seq<string>, start: Tally, exps: seq<string>)
    ensures ExperienceFold(tags, start, exps, |exps|).matched == start.matched + ExperienceTags(tags, exps)
    ensures ExperienceFold(tags, start, exps, |exps|).score
         == start.score + 0.8 * |ExperienceTags(tags, exps) - start.matched| as real
  {
    ExperienceFoldMatched(tags, start, exps, |exps|);
    ExperienceFoldScore(tags, start, exps, |exps|);
    assert exps[..|exps|] == exps;
    var m := ExperienceFold(tags, start, exps, |exps|).matched;
    assert m - start.matched == ExperienceTags(tags, exps) - start.matched;
  }

  /** Adding a tag to a set of tags grows the part outside `matched` by one
      exactly when the tag is new to both. */
  lemma NewTagCount(tags: set<string>, matched: set<string>, tag: string)
    ensures |(tags + {tag}) - matched|
         == |tags - matched| + (if tag in tags || tag in matched then 0 else 1)
  {
    if tag !in tags && tag !in matched {
      assert (tags + {tag}) - matched == (tags - matched) + {tag};
    } else {
      assert (tags + {tag}) - matched == tags - matched;
    }
  }

  /** The raw score in closed form: the skill weights, 0.8 for every
      experience tag the skills did not already match, 0.7 for a preparation
      style none of those matched, and the popularity and team bonuses. */
  lemma ScoreClosedForm(e: Event, skills: seq<string>, input: FormData)
    ensures
      var skillTags := SkillTags(e.tags, skills);
      var expTags := ExperienceTags(e.tags, input.experience);
      EventScore(e, skills, input)
      == SkillFold(e.tags, skills, |skills|).score
         + 0.8 * |expTags - skillTags| as real
         + PrepBonus(e.tags, input.prepStyle, skillTags + expTags)
         + PopularityAdjustment(input.popularity, e.popularity)
         + TeamBonus(e.tags, input.teamPreference)
  {
    SkillFoldMatched(e.tags, skills, |skills|);
    assert skills[..|skills|] == skills;
    ExperienceFoldCounts(e.tags, SkillFold(e.tags, skills, |skills|), input.experience);
  }

  // ---------------------------------------------------------------------
  // Rank position

  /** `skills` with the entries at `i` and `j` exchanged. */
  function Swap(skills: seq<string>, i: nat, j: nat): (r: seq<string>)
    requires i < |skills| && j < |skills|
    ensures |r| == |skills| && r[i] == skills[j] && r[j] == skills[i]
    ensures forall k :: 0 <= k < |skills| && k != i && k != j ==> r[k] == skills[k]
  {
    skills[i := skills[j]][j := skills[i]]
  }

  /** What the skill at `index` of `skills` earns on an event with `tags`. */
  function Earned(tags: seq<string>, skills: seq<string>, index: nat): real
    requires index < |skills|
  {
    if skills[index] in tags then Weight(index) else 0.0
  }

  /** Exchanging two ranks changes the skill score over the first `k`
      ranks by exactly what the two exchanged positions earn differently. */
  lemma {:induction false} SwapDelta(tags: seq<string>, skills: seq<string>, i: nat, j: nat, k: nat)
    requires i < j < |skills| && k <= |skills|
    ensures SkillFold(tags, Swap(skills, i, j), k).score - SkillFold(tags, skills, k).score
         == (if k > i then Earned(tags, Swap(skills, i, j), i) - Earned(tags, skills, i) else 0.0)
          + (if k > j then Earned(tags, Swap(skills, i, j), j) - Earned(tags, skills, j) else 0.0)
  {
    if k > 0 {
      SwapDelta(tags, skills, i, j, k - 1);
    }
  }

  /** Moving a skill the event carries up the ranking, by exchanging it
      with a higher-ranked skill, never lowers the event's raw score, and
      raises it when the skill it passes is not one the event carries. */
  lemma MovingMatchedSkillUpNeverLowersScore(e: Event, skills: seq<string>, input: FormData, i: nat, j: nat)
    requires i < j < |skills|
    requires skills[j] in e.tags
    ensures EventScore(e, Swap(skills, i, j), input) >= EventScore(e, skills, input)
    ensures skills[i] !in e.tags ==> EventScore(e, Swap(skills, i, j), input) > EventScore(e, skills, input)
  {
    var swapped := Swap(skills, i, j);
    SwapDelta(e.tags, skills, i, j, |skills|);
    forall s ensures s in swapped <==> s in skills {
      if s in skills {
        var k :| 0 <= k < |skills| && skills[k] == s;
        if k == i { assert swapped[j] == s; }
        else if k == j { assert swapped[i] == s; }
        else { assert swapped[k] == s; }
      }
    }
    assert SkillTags(e.tags, swapped) == SkillTags(e.tags, skills);
    ScoreClosedForm(e, skills, input);
    ScoreClosedForm(e, swapped, input);
    assert Weight(i) > Weight(j);
  }

  // ---------------------------------------------------------------------
  // Match percentage

  /** The normaliser: 1.5 per ranked skill plus 3. */
  function MaxPossibleScore(skillCount: nat): (r: real)
    ensures r >= 3.0
  {
    skillCount as real * 1.5 + 3.0
  }

  /** JavaScript's Math.round: the nearest integer, halves rounded up. */
  function Round(x: real): (r: int)
    ensures r as real - 0.5 <= x < r as real + 0.5
  {
    (x + 0.5).Floor
  }

  /** Math.min(100, Math.max(0, v)). */
  function Clamp(v: int): (r: int)
    ensures 0 <= r <= 100
    ensures 0 <= v <= 100 ==> r == v
    ensures v < 0 ==> r == 0
    ensures v > 100 ==> r == 100
  {
    if v < 0 then 0 else if v > 100 then 100 else v
  }

  /** The match percentage shown for a raw score. */
  function Percent(score: real, skillCount: nat): (r: int)
    ensures 0 <= r <= 100
  {
    Clamp(Round(score / MaxPossibleScore(skillCount) * 100.0))
  }

  /** A higher raw score never shows a lower percentage. */
  lemma PercentMonotone(a: real, b: real, skillCount: nat)
    requires a <= b
    ensures Percent(a, skillCount) <= Percent(b, skillCount)
  {
    var d := MaxPossibleScore(skillCount);
    assert a / d <= b / d by {
      assert b / d - a / d == (b - a) / d;
    }
    var x, y := a / d * 100.0, b / d * 100.0;
    assert x <= y;
    assert Round(x) <= Round(y);
  }

  /** A score of zero or less shows 0%; a score at or above the normaliser
      shows 100%. */
  lemma PercentSaturates(score: real, skillCount: nat)
    ensures score <= 0.0 ==> Percent(score, skillCount) == 0
    ensures score >= MaxPossibleScore(skillCount) ==> Percent(score, skillCount) == 100
  {
    var d := MaxPossibleScore(skillCount);
    if score <= 0.0 {
      assert score / d <= 0.0;
    }
    if score >= d {
      assert d / d == 1.0;
      PercentMonotone(d, score, skillCount);
    }
  }

  /** The normaliser 1.5 * skills + 3 is not an upper bound on the raw
      score: on a made-up non-team event with four matchable tags, answers
      the page offers (one ranked skill, 1.5; two experience answers, 0.8
      each; the preparation style, 0.7; the solo bonus, 1) give 4.8, above
      the normaliser 4.5, which the clamp then shows as 100%. */
  lemma NormaliserIsNotABound()
    ensures
      var e := Event("Made-up Finance and Marketing Research", "Marketing",
                     ["Finance", "Marketing", "Research", "Written Event/Report"], "Lower", "");
      var input := FormData("Written Event/Report", ["Marketing Plans", "Data Analysis"], "I don't care", "Solo", false);
      && EventScore(e, ["Finance"], input) == 4.8
      && EventScore(e, ["Finance"], input) > MaxPossibleScore(1)
      && Percent(EventScore(e, ["Finance"], input), 1) == 100
  {
    var e := Event("Made-up Finance and Marketing Research", "Marketing",
                   ["Finance", "Marketing", "Research", "Written Event/Report"], "Lower", "");
    var input := FormData("Written Event/Report", ["Marketing Plans", "Data Analysis"], "I don't care", "Solo", false);
    assert SkillFold(e.tags, ["Finance"], 1) == Tally(1.5, {"Finance"});
    assert ExperienceTag("Marketing Plans") == "Marketing";
    assert ExperienceTag("Data Analysis") == "Research";
    var start := Tally(1.5, {"Finance"});
    assert ExperienceFold(e.tags, start, input.experience, 1) == Tally(2.3, {"Finance", "Marketing"});
    assert "Research" !in {"Finance", "Marketing"};
    assert ExperienceFold(e.tags, start, input.experience, 2) == Tally(3.1, {"Finance", "Marketing", "Research"});
    assert "Written Event/Report" !in {"Finance", "Marketing", "Research"};
    assert input.popularity != LessPopular;
    assert TeamTag !in e.tags;
    PercentSaturates(4.8, 1);
  }
}
