# DECA event recommender: ranking engine and form state

This project models the logic of the DECA event recommender page
(`app/page.tsx`). A student ranks up to five skills and answers a few
questions: preparation style, business experience, popularity, and team or
solo. The page then filters the
event catalog, scores every remaining event with a weighted sum, turns the
score into a match percentage clamped to [0, 100], and lists the events by
raw score, highest first, five at a time.

Modules:

- `Events` (`events.dfy`): the catalog record `Event`, the answers
  `FormData`, the result `Scored`, the fixed `TEAM_TAG` and
  `experienceTagMap`, and the virtual-event filter.
- `Scoring` (`scoring.dfy`): the per-event loop of `scoreEvents` as the
  method `ScoreEvent`. It keeps a running score and a set of matched tags,
  and is proved equal to the specification function `EventScore`. Lemmas
  give a closed form of the score, the rank-position monotonicity, and the
  bounds and monotonicity of the match percentage.
- `Ranking` (`ranking.dfy`): the filter/map/sort pipeline. `ScoreEvents` is
  proved equal to the function `Rank`. `SortByScore` is a stable insertion
  sort standing for the built-in array sort with comparator
  `b.rawScore - a.rawScore`. Lemmas prove that the sort returns a
  permutation in non-increasing raw-score order, keeping equal scores in
  input order. `RankCorrect` states everything `scoreEvents` promises.
- `Form` (`form.dfy`): the pure list editors `addSkill`, `removeSkill` and
  the experience toggle, with their invariants. The page's state is the
  class `Recommender`. Its methods are the page's handlers: submit, clear,
  the answer setters and "Load More Events".

Numbers are exact: weights and scores are Dafny `real`, and `Math.round(x)`
is `Floor(x + 0.5)`.

Behaviours of the code that a reader might not expect, all modelled as
written:

- The skill loop does not consult the matched-tag set, so a skill is never
  skipped as already matched (page.tsx:56-63).
- The preparation style is checked against the matched set but never added
  to it (page.tsx:76-80).
- Events whose name starts with `V` are dropped together with category
  `"Virtual"` (page.tsx:48).
- `scoreEvents` itself accepts an empty skill list (the normaliser is then
  3). Only `handleSubmit` refuses an empty list, and it does so by doing
  nothing (page.tsx:211-215).
- The popularity adjustment applies to an event whose popularity is
  `"Low"`. So in a two-event example (A: Finance/Team/High,
  B: Marketing/Low, one skill "Finance", "Less popular events"), B scores
  1.5 from the popularity bonus alone. B ranks first with 33%, and A has 0.7 and 16%. This is
  `Ranking.WorkedExample`.
- Results whose raw scores are equal as computed stay in catalog order,
  because the built-in sort is stable. The model computes scores exactly,
  so its ties are exact ties (see `Ranking.Rank` under "## Left out").

Three facts about the code as written are proved or modelled rather than
corrected:

- `handleVirtualChange` (page.tsx:195-200) is defined but nothing on the
  page calls it: the form (page.tsx:403-577) has no include-virtual
  control. So `includeVirtual` is always `false` on the page
  (page.tsx:14, 234) and the virtual-event filter at page.tsx:48 always
  runs. The shipped catalog (page.tsx:239-332) has no event whose name
  starts with `V` and none of category `"Virtual"`, so that filter drops
  nothing from it. The handler is still modelled as
  `Recommender.HandleVirtualChange`, and `includeVirtual` as a parameter
  of the pipeline, since `scoreEvents` reads it.

- None of the offered popularity answers (page.tsx:118-123) is the literal
  `"Less popular events"` that the scoring tests, so from the page the
  popularity adjustment is always zero (`Form.OfferedPopularityNeverAdjusts`).
  The catalog also spells low popularity `"Lower"`, not `"Low"`.
- The normaliser `1.5 * skills + 3` is not an upper bound on the raw score
  in general (`Scoring.NormaliserIsNotABound`). On a made-up non-team event
  with four matchable tags, one ranked skill, two experience answers, the
  preparation style and "Solo" score 4.8 against a normaliser of 4.5, and
  only the clamp keeps the percentage at 100. The shipped catalog
  (page.tsx:239-332) stays within the normaliser: no event there has more
  than two tags that an offered skill or experience answer can match, so
  one skill gives at most 1.5 + 0.8 + 0.7 + 1 = 4.0 of 4.5 (89%), and more
  skills at most 4.55 of at least 6. Page answers never give a negative
  score either, so on the page as shipped the clamp never changes a value.

## Model

| member | source | states |
|---|---|---|
| `Events.ExperienceTag` | app/page.tsx:67 | the tag an experience answer matches: its entry in experienceTagMap, or the answer itself when the map has none (definition, no contract) |
| `Events.IsVirtual` | app/page.tsx:48 | an event is virtual when its name starts with 'V' or its category is "Virtual" (definition, no contract) |
| `Events.DropVirtual` | app/page.tsx:48 | `events.filter(...)` keeping the events that are not virtual, in catalog order (definition; its properties are the lemmas below) |
| `Events.FilterEvents` | app/page.tsx:46-48 | all events when includeVirtual is set, otherwise DropVirtual of them (definition; see FilterEventsExact) |
| `Events.DropVirtualAppend` | app/page.tsx:48 | filtering a catalog split in two filters each part and concatenates the results in order |
| `Events.DropVirtualSingle` | app/page.tsx:48 | a single event survives the filter exactly when it is not virtual |
| `Events.DropVirtualKeepsNonVirtual` | app/page.tsx:48 | a list of non-virtual events passes the filter unchanged, in order |
| `Events.DropVirtualCounts` | app/page.tsx:46-48 | the non-virtual filter removes every copy of an event whose name starts with 'V' or whose category is "Virtual" and keeps every copy of any other event |
| `Events.FilterEventsExact` | app/page.tsx:46-48 | with includeVirtual every event is kept unchanged; otherwise exactly the non-virtual events are kept, with their multiplicities; membership both ways |
| `Scoring.PrepBonus` | app/page.tsx:76-80 | the prep-style bonus is 0 or 0.7, and 0.7 only when the event carries the style and no skill or experience answer matched it |
| `Scoring.PopularityAdjustment` | app/page.tsx:83-86 | the popularity adjustment lies in [-0.8, 1.5] and is 0 unless the answer is exactly "Less popular events" |
| `Scoring.TeamBonus` | app/page.tsx:89-90 | the team bonus is 0 or 1, and 0 unless the answer is "Team" or "Solo" |
| `Scoring.EventScore` | app/page.tsx:50-90 | the raw score of one event: the skill fold, then the experience fold, then the prep, popularity and team bonuses (definition; see ScoreClosedForm) |
| `Scoring.ScoreEvent` | app/page.tsx:50-90 | the per-event accumulation (skill loop, experience loop with the matched set, prep style, popularity, team) computes exactly the raw score EventScore |
| `Scoring.SkillFoldMatched` | app/page.tsx:56-63 | after the skill loop the matched set is exactly the ranked skills the event's tags contain |
| `Scoring.ExperienceStepMatched` | app/page.tsx:67-72 | one experience answer marks its mapped tag exactly when the event carries it |
| `Scoring.ExperienceFoldMatched` | app/page.tsx:66-73 | the experience loop adds to the matched set exactly the mapped experience tags (experienceTagMap, falling back to the answer) that the event carries |
| `Scoring.ExperienceFoldScore` | app/page.tsx:66-73 | the experience loop earns exactly 0.8 per tag it newly marks and only ever grows the matched set |
| `Scoring.ExperienceFoldCounts` | app/page.tsx:24-32 | experience earns 0.8 times the number of distinct mapped experience tags on the event not already matched, so no tag is counted twice across skills and experience |
| `Scoring.ScoreClosedForm` | app/page.tsx:56-90 | raw score = skill weights + 0.8 per experience tag not matched by a skill + 0.7 for a non-empty prep style in the tags and in neither matched set + popularity adjustment + team bonus |
| `Scoring.SwapDelta` | app/page.tsx:56-63 | exchanging two ranks changes the skill score by exactly what the two positions earn differently, each skill earning 1.5 - 0.15*index when the tags contain it and nothing otherwise |
| `Scoring.MovingMatchedSkillUpNeverLowersScore` | app/page.tsx:56-63 | exchanging a matched skill with one ranked above it never lowers the raw score, and strictly raises it when that other skill is unmatched |
| `Scoring.MaxPossibleScore` | app/page.tsx:93 | the normaliser skills*1.5 + 3 is at least 3, so the division is defined even with no skills |
| `Scoring.Round` | app/page.tsx:94 | Math.round gives the integer within half a unit of x, halves rounded up |
| `Scoring.Clamp` | app/page.tsx:94 | the min/max clamp lands in [0, 100], leaves in-range values alone, sends negative values to 0 and values above 100 to 100 |
| `Scoring.Percent` | app/page.tsx:93-94 | the match percentage always lies in [0, 100] |
| `Scoring.PercentMonotone` | app/page.tsx:93-94 | a higher raw score never shows a lower percentage |
| `Scoring.PercentSaturates` | app/page.tsx:93-94 | a raw score of zero or less shows 0%; a raw score at or above the normaliser shows 100% |
| `Scoring.NormaliserIsNotABound` | app/page.tsx:56-94 | a made-up event with four matchable tags, one ranked skill and answers the page offers scores 4.8, above the normaliser 4.5, and shows 100% |
| `Ranking.ScoreEvents` | app/page.tsx:44-98 | filtering, scoring each remaining event with the loop, and sorting yields exactly Rank |
| `Ranking.ScoreOne` | app/page.tsx:93-96 | one event spread with its raw score EventScore and its match Percent, as `{ ...event, match, rawScore }` (definition, no contract) |
| `Ranking.MapScore` | app/page.tsx:50 | `filteredEvents.map(...)`: each event scored by ScoreOne, in order (definition, no contract) |
| `Ranking.Insert` | app/page.tsx:97 | places a result after every strictly higher score and before the first score not above its own (definition; see the lemmas below) |
| `Ranking.SortByScore` | app/page.tsx:97 | the stable sort by raw score, highest first, as insertion of each result into the sorted rest (definition; see SortByScoreCorrect) |
| `Ranking.Rank` | app/page.tsx:44-98 | the whole of scoreEvents: filter, score each event, sort (definition; see RankCorrect) |
| `Ranking.InsertPermutes` | app/page.tsx:97 | insertion adds exactly the inserted result to the list |
| `Ranking.InsertPermutesEvents` | app/page.tsx:97 | insertion adds exactly the inserted result's event to the underlying events |
| `Ranking.InsertSorted` | app/page.tsx:97 | insertion keeps a list sorted by raw score, highest first |
| `Ranking.InsertStable` | app/page.tsx:97 | among results of one score, the inserted result lands ahead of those already there |
| `Ranking.SortPermutes` | app/page.tsx:97 | the sort returns a permutation of its input |
| `Ranking.SortPermutesEvents` | app/page.tsx:97 | the sorted results hold the same events, with the same multiplicities, as the input |
| `Ranking.SortSorted` | app/page.tsx:97 | the sort's output is non-increasing by raw score |
| `Ranking.SortStable` | app/page.tsx:97 | for every score value, the results with that score appear in input order |
| `Ranking.SortByScoreCorrect` | app/page.tsx:97 | the sort is a permutation, non-increasing by raw score, and stable |
| `Ranking.RankCorrect` | app/page.tsx:44-98 | scoreEvents returns a permutation of the filtered events, each spread with rawScore = its EventScore and match = Percent of it in [0, 100], ordered by raw score and therefore by match, equal scores in catalog order |
| `Ranking.WorkedExample` | app/page.tsx:44-98 | two events ranked against one skill with "Less popular events" give B (1.5, 33%) before A (0.7, 16%) |
| `Form.Without` | app/page.tsx:134 | filtering out x removes every copy of x and keeps every other element |
| `Form.WithoutAbsent` | app/page.tsx:134 | filtering out an absent element changes nothing |
| `Form.WithoutAt` | app/page.tsx:134 | in a duplicate-free list, filtering out the element at i leaves the elements before and after it in order |
| `Form.WithoutKeepsNoDuplicates` | app/page.tsx:134 | filtering keeps a list duplicate-free |
| `Form.AddSkill` | app/page.tsx:127-131 | addSkill keeps the existing ranking as a prefix, adds at most one skill, the skill is ranked afterwards iff it already was or fewer than five were, and the ranking is unchanged when the skill is already ranked or five are |
| `Form.RemoveSkill` | app/page.tsx:133-135 | removeSkill removes the skill and keeps every other skill |
| `Form.AddSkillKeepsWellRanked` | app/page.tsx:127-131 | addSkill keeps the ranking duplicate-free with at most 5 entries |
| `Form.RemoveSkillKeepsWellRanked` | app/page.tsx:133-135 | removeSkill keeps the ranking duplicate-free with at most 5 entries, moves the skills below the removed one up one rank in order, and is a no-op for an unranked skill |
| `Form.RemoveSkillUndoesAddSkill` | app/page.tsx:127-135 | removing a skill that was just added restores the ranking |
| `Form.ToggleExperience` | app/page.tsx:202-209 | the toggled answer is checked afterwards iff it was not before; every other answer keeps its state |
| `Form.ToggleTwiceRestores` | app/page.tsx:202-209 | toggling twice restores which answers are checked, and the list itself when the answer started unchecked |
| `Form.WithoutSnoc` | app/page.tsx:206 | filtering a list with one more element at the end filters the list and keeps that element unless it is the one removed |
| `Form.ToggleKeepsNoDuplicates` | app/page.tsx:202-209 | toggling keeps the checked answers duplicate-free |
| `Form.OfferedPopularityNeverAdjusts` | app/page.tsx:118-123 | none of the offered popularity answers triggers the popularity adjustment |
| `Form.Recommender.Visible` | app/page.tsx:591 | the results on screen: VisibleSlice of the recommendations at visibleCount (definition; see VisibleSlice) |
| `Form.Recommender.CanLoadMore` | app/page.tsx:582-667 | "Load More Events" is rendered only while results are displayed and some result is still hidden (definition, no contract) |
| `Form.VisibleSlice` | app/page.tsx:591 | the shown results are the first min(visibleCount, length) recommendations |
| `Form.LoadMoreRevealsNext` | app/page.tsx:667-669 | while offered, "Load More" reveals up to five further results after those shown; when not offered, all results are shown |
| `Form.Recommender.constructor` | app/page.tsx:8-20 | the page starts with no skills, an empty form, visibleCount 5, no results shown |
| `Form.Recommender.SelectSkill` | app/page.tsx:127-131 | a skill button applies addSkill to the ranking and keeps the state invariant |
| `Form.Recommender.DeselectSkill` | app/page.tsx:133-135 | a Remove button applies removeSkill to the ranking and keeps the state invariant |
| `Form.Recommender.HandleExperienceChange` | app/page.tsx:202-209 | a checkbox toggles its answer in the experience list and changes no other answer |
| `Form.Recommender.SetPrepStyle` | app/page.tsx:444 | the prep-style radio sets only the prep style |
| `Form.Recommender.SetTeamPreference` | app/page.tsx:508 | the team radio sets only the team preference |
| `Form.Recommender.SetPopularity` | app/page.tsx:541 | the popularity radio sets only the popularity answer |
| `Form.Recommender.HandleVirtualChange` | app/page.tsx:195-200 | the (unused) handler sets only includeVirtual; nothing on the page calls it |
| `Form.Recommender.HandleSubmit` | app/page.tsx:211-225 | with no ranked skill nothing changes; otherwise the results become Rank of the catalog and the answers, visibleCount resets to 5 and the results are shown |
| `Form.Recommender.ClearForm` | app/page.tsx:227-236 | skills and answers are reset to empty; results and page count are left as they are |
| `Form.Recommender.LoadMore` | app/page.tsx:667-669 | visibleCount grows by 5 and, when the button was offered, the shown list strictly grows and extends the previous one |

## Left out

- JSX rendering, styling, colours, icons and the matched-skills tag display: presentation only.
- The 1500 ms delay and the `alert` in `handleSubmit`: timing and browser I/O. The empty-skills case is modelled as "no scoring happens".
- `isSubmitting`: it is set before and cleared after the delay, so it is always false between handlers when submission is modelled as one step.
- React's `useState` mechanics: the state is a class with mutable fields, and each handler is one atomic update.
- IEEE-754 doubles: `1.5 - index * 0.15`, the division and the rounding are exact here, so scores and percentages at rounding boundaries may differ from what the browser computes.
- `Ranking.Rank`, `Ranking.RankCorrect`: ties are exact ties, so results whose scores are equal as reals stay in catalog order. In the browser two such scores can differ as doubles, and the page may list them the other way round. Example, with the shipped catalog and answers the page offers: skills ["Finance", "Presentation"], experience ["Marketing Plans"] and prep style "Written Event/Report". "Accounting Applications Series" (page.tsx:260) computes 1.5 + 1.35 = 2.85. "Advertising Campaign Team" (page.tsx:300) computes 1.35 + 0.8 + 0.7 = 2.8500000000000005. The page lists the second first, and the model lists the first first.
- The literal catalog contents: the catalog is a parameter of `Recommender` and `Rank`, and description strings play no part in scoring.
- JavaScript object-prototype keys in `experienceTagMap[exp]` (an answer such as "toString" would look up an inherited property): the map is a plain finite map, and the page only offers the listed experience answers.
