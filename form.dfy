/** The recommender page's form state: the ranked-skill editor, the
    experience checkboxes, the other answers, submission and "load more"
    pagination. The list editors are pure functions, as on the page; the
    page's state is the class Recommender, whose methods are its handlers. */
module Form {
  import opened Events
  import opened Scoring
  import opened Ranking

  /** At most this many skills can be ranked. */
  const MaxSkills := 5

  /** Results are revealed this many at a time. */
  const PageSize := 5

  /** The secondary answers of a fresh or cleared form. */
  const EmptyForm := FormData("", [], "", "", false)

  predicate NoDuplicates<T(==)>(s: seq<T>) {
    forall i, j :: 0 <= i < j < |s| ==> s[i] != s[j]
  }

  /** The invariant of the ranked-skill list. */
  predicate WellRanked(skills: seq<string>) {
    NoDuplicates(skills) && |skills| <= MaxSkills
  }

  /** `s.filter(e => e !== x)`: every copy of `x` removed, the rest kept in order. */
  function Without(s: seq<string>, x: string): (r: seq<string>)
    ensures x !in r
    ensures forall y :: y != x ==> (y in r <==> y in s)
    ensures |r| <= |s|
  {
    if s == [] then []
    else (if s[0] == x then [] else [s[0]]) + Without(s[1..], x)
  }

  /** Removing an absent element changes nothing. */
  lemma {:induction false} WithoutAbsent(s: seq<string>, x: string)
    requires x !in s
    ensures Without(s, x) == s
  {
    if s != [] {
      WithoutAbsent(s[1..], x);
      assert s == [s[0]] + s[1..];
    }
  }

  /** In a list without duplicates, removing the element at `i` leaves
      the elements before and after it, in order. */
  lemma {:induction false} WithoutAt(s: seq<string>, x: string, i: nat)
    requires NoDuplicates(s) && i < |s| && s[i] == x
    ensures Without(s, x) == s[..i] + s[i + 1..]
  {
    if i == 0 {
      assert x !in s[1..];
      WithoutAbsent(s[1..], x);
    } else {
      assert NoDuplicates(s[1..]);
      WithoutAt(s[1..], x, i - 1);
      assert s[1..][..i - 1] == s[1..i];
      assert s[1..][i..] == s[i + 1..];
      assert s[..i] == [s[0]] + s[1..i];
    }
  }

  /** Removing keeps a list free of duplicates. */
  lemma {:induction false} WithoutKeepsNoDuplicates(s: seq<string>, x: string)
    requires NoDuplicates(s)
    ensures NoDuplicates(Without(s, x))
  {
    if s != [] {
      assert NoDuplicates(s[1..]);
      WithoutKeepsNoDuplicates(s[1..], x);
      if s[0] != x {
        assert s[0] !in s[1..];
        var r := [s[0]] + Without(s[1..], x);
        forall i, j | 0 <= i < j < |r| ensures r[i] != r[j] {
          if i == 0 {
            assert r[j] in Without(s[1..], x);
          } else {
            assert r[i] == Without(s[1..], x)[i - 1] && r[j] == Without(s[1..], x)[j - 1];
          }
        }
      }
    }
  }

  // ---------------------------------------------------------------------
  // The ranked-skill editor

  /** `addSkill`: the skill joins at the lowest rank if it is not ranked
      yet and fewer than five skills are; otherwise nothing changes. */
  function AddSkill(skills: seq<string>, skill: string): (r: seq<string>)
    ensures |skills| <= |r| <= |skills| + 1 && r[..|skills|] == skills
    ensures skill in r <==> skill in skills || |skills| < MaxSkills
    ensures forall y :: y != skill ==> (y in r <==> y in skills)
    ensures skill in skills || |skills| >= MaxSkills ==> r == skills
  {
    if skill !in skills && |skills| < MaxSkills then skills + [skill] else skills
  }

  /** `removeSkill`: the skill leaves the ranking; nothing else does. */
  function RemoveSkill(skills: seq<string>, skill: string): (r: seq<string>)
    ensures skill !in r
    ensures forall y :: y != skill ==> (y in r <==> y in skills)
  {
    Without(skills, skill)
  }

  /** Adding keeps the ranking free of duplicates and at most five long. */
  lemma AddSkillKeepsWellRanked(skills: seq<string>, skill: string)
    requires WellRanked(skills)
    ensures WellRanked(AddSkill(skills, skill))
  {
    if skill !in skills && |skills| < MaxSkills {
      var r := skills + [skill];
      forall i, j | 0 <= i < j < |r| ensures r[i] != r[j] {
        if j == |skills| {
          assert r[i] == skills[i];
        }
      }
    }
  }

  /** Removing keeps the ranking free of duplicates and at most five long,
      and the skills below the removed one each move up one rank. */
  lemma RemoveSkillKeepsWellRanked(skills: seq<string>, skill: string)
    requires WellRanked(skills)
    ensures WellRanked(RemoveSkill(skills, skill))
    ensures forall i :: 0 <= i < |skills| && skills[i] == skill ==>
              RemoveSkill(skills, skill) == skills[..i] + skills[i + 1..]
    ensures skill !in skills ==> RemoveSkill(skills, skill) == skills
  {
    WithoutKeepsNoDuplicates(skills, skill);
    forall i | 0 <= i < |skills| && skills[i] == skill
      ensures RemoveSkill(skills, skill) == skills[..i] + skills[i + 1..]
    {
      WithoutAt(skills, skill, i);
    }
    if skill !in skills {
      WithoutAbsent(skills, skill);
    }
  }

  /** Removing a skill just added restores the ranking. */
  lemma RemoveSkillUndoesAddSkill(skills: seq<string>, skill: string)
    requires skill !in skills && |skills| < MaxSkills
    requires NoDuplicates(skills)
    ensures RemoveSkill(AddSkill(skills, skill), skill) == skills
  {
    var r := skills + [skill];
    assert NoDuplicates(r) by {
      forall i, j | 0 <= i < j < |r| ensures r[i] != r[j] {
        if j == |skills| {
          assert r[i] == skills[i];
        }
      }
    }
    WithoutAt(r, skill, |skills|);
    assert r[..|skills|] == skills;
  }

  // ---------------------------------------------------------------------
  // The experience checkboxes

  /** `handleExperienceChange`: a checked answer is unchecked (every copy
      removed), an unchecked one is appended. */
  function ToggleExperience(exps: seq<string>, exp: string): (r: seq<string>)
    ensures exp in r <==> exp !in exps
    ensures forall y :: y != exp ==> (y in r <==> y in exps)
  {
    if exp in exps then Without(exps, exp) else exps + [exp]
  }

  /** Toggling the same answer twice restores which answers are checked,
      and restores the list itself when the answer started unchecked. */
  lemma ToggleTwiceRestores(exps: seq<string>, exp: string)
    ensures forall y :: y in ToggleExperience(ToggleExperience(exps, exp), exp) <==> y in exps
    ensures exp !in exps ==> ToggleExperience(ToggleExperience(exps, exp), exp) == exps
  {
    if exp !in exps {
      var r := exps + [exp];
      WithoutAbsent(exps, exp);
      assert Without(r, exp) == Without(exps, exp) by {
        WithoutSnoc(exps, exp, exp);
      }
    }
  }

  /** Filtering a list with one more element at the end. */
  lemma {:induction false} WithoutSnoc(s: seq<string>, y: string, x: string)
    ensures Without(s + [y], x) == Without(s, x) + (if y == x then [] else [y])
  {
    if s == [] {
      assert [y][1..] == [];
    } else {
      var t := s + [y];
      assert t[0] == s[0] && t[1..] == s[1..] + [y];
      assert Without(t, x) == (if s[0] == x then [] else [s[0]]) + Without(s[1..] + [y], x);
      WithoutSnoc(s[1..], y, x);
    }
  }

  /** Toggling keeps the checked answers free of duplicates. */
  lemma ToggleKeepsNoDuplicates(exps: seq<string>, exp: string)
    requires NoDuplicates(exps)
    ensures NoDuplicates(ToggleExperience(exps, exp))
  {
    if exp in exps {
      WithoutKeepsNoDuplicates(exps, exp);
    } else {
      var r := exps + [exp];
      forall i, j | 0 <= i < j < |r| ensures r[i] != r[j] {
        if j == |exps| {
          assert r[i] == exps[i];
        }
      }
    }
  }

  // ---------------------------------------------------------------------
  // The popularity question

  /** The answers the popularity question offers. */
  const PopularityOptions := ["High Competition", "Moderate Competition", "Lower Competition", "I don't care"]

  /** None of the offered popularity answers is "Less popular events", the
      only answer the scoring reacts to, so from the page the popularity
      adjustment is always zero. */
  lemma OfferedPopularityNeverAdjusts(option: string, eventPopularity: string)
    requires option in PopularityOptions
    ensures PopularityAdjustment(option, eventPopularity) == 0.0
  {
    assert |LessPopular| == 19;
  }

  // ---------------------------------------------------------------------
  // Pagination

  /** `recommendations.slice(0, visibleCount)`. */
  function VisibleSlice(recommendations: seq<Scored>, visibleCount: nat): (r: seq<Scored>)
    ensures |r| == if visibleCount < |recommendations| then visibleCount else |recommendations|
    ensures r == recommendations[..|r|]
  {
    if visibleCount < |recommendations| then recommendations[..visibleCount] else recommendations
  }

  /** While "Load More Events" is offered, pressing it reveals up to five
      further results, after the ones already shown; once every result is
      shown it is no longer offered. */
  lemma LoadMoreRevealsNext(recommendations: seq<Scored>, visibleCount: nat)
    ensures visibleCount < |recommendations| ==>
      var before := VisibleSlice(recommendations, visibleCount);
      var after := VisibleSlice(recommendations, visibleCount + PageSize);
      && |after| > |before|
      && after[..|before|] == before
      && |after| - |before| == (if |recommendations| - visibleCount < PageSize then |recommendations| - visibleCount else PageSize)
    ensures !(visibleCount < |recommendations|) ==> VisibleSlice(recommendations, visibleCount) == recommendations
  {
  }

  // ---------------------------------------------------------------------
  // The page

  /** The page's state. `catalog` is the fixed event list. */
  class Recommender {
    const catalog: seq<Event>
    var orderedSkills: seq<string>
    var otherFormData: FormData
    var visibleCount: nat
    var showRecommendations: bool
    var recommendations: seq<Scored>

    /** The ranking has no duplicates and at most five skills, no answer is
        checked twice, results are revealed a page at a time, results exist
        only once they are displayed, and the list is ordered by raw score
        with percentages in [0, 100]. */
    ghost predicate Valid()
      reads this
    {
      && WellRanked(orderedSkills)
      && NoDuplicates(otherFormData.experience)
      && visibleCount >= PageSize && visibleCount % PageSize == 0
      && (recommendations != [] ==> showRecommendations)
      && SortedByScore(recommendations)
      && (forall i :: 0 <= i < |recommendations| ==> 0 <= recommendations[i].matchPercent <= 100)
    }

    /** The results currently on screen. */
    function Visible(): seq<Scored>
      reads this
    {
      VisibleSlice(recommendations, visibleCount)
    }

    /** Whether "Load More Events" is shown: only inside the displayed
        results, and only while some result is still hidden. */
    function CanLoadMore(): bool
      reads this
    {
      showRecommendations && visibleCount < |recommendations|
    }

    /** The page as first rendered. */
    constructor (catalog: seq<Event>)
      ensures Valid()
      ensures this.catalog == catalog
      ensures orderedSkills == [] && otherFormData == EmptyForm
      ensures visibleCount == PageSize && !showRecommendations && recommendations == []
    {
      this.catalog := catalog;
      orderedSkills := [];
      otherFormData := EmptyForm;
      visibleCount := PageSize;
      showRecommendations := false;
      recommendations := [];
    }

    /** A skill button: `addSkill` passed to `setOrderedSkills`. */
    method SelectSkill(skill: string)
      requires Valid()
      modifies this`orderedSkills
      ensures Valid()
      ensures orderedSkills == AddSkill(old(orderedSkills), skill)
    {
      AddSkillKeepsWellRanked(orderedSkills, skill);
      orderedSkills := AddSkill(orderedSkills, skill);
    }

    /** A "Remove" button: `removeSkill` passed to `setOrderedSkills`. */
    method DeselectSkill(skill: string)
      requires Valid()
      modifies this`orderedSkills
      ensures Valid()
      ensures orderedSkills == RemoveSkill(old(orderedSkills), skill)
    {
      RemoveSkillKeepsWellRanked(orderedSkills, skill);
      orderedSkills := RemoveSkill(orderedSkills, skill);
    }

    /** An experience checkbox. */
    method HandleExperienceChange(exp: string)
      requires Valid()
      modifies this`otherFormData
      ensures Valid()
      ensures otherFormData == old(otherFormData).(experience := ToggleExperience(old(otherFormData.experience), exp))
    {
      ToggleKeepsNoDuplicates(otherFormData.experience, exp);
      otherFormData := otherFormData.(experience := ToggleExperience(otherFormData.experience, exp));
    }

    /** The preparation-style radio buttons. */
    method SetPrepStyle(style: string)
      requires Valid()
      modifies this`otherFormData
      ensures Valid()
      ensures otherFormData == old(otherFormData).(prepStyle := style)
    {
      otherFormData := otherFormData.(prepStyle := style);
    }

    /** The team-or-solo radio buttons. */
    method SetTeamPreference(option: string)
      requires Valid()
      modifies this`otherFormData
      ensures Valid()
      ensures otherFormData == old(otherFormData).(teamPreference := option)
    {
      otherFormData := otherFormData.(teamPreference := option);
    }

    /** The popularity radio buttons. */
    method SetPopularity(option: string)
      requires Valid()
      modifies this`otherFormData
      ensures Valid()
      ensures otherFormData == old(otherFormData).(popularity := option)
    {
      otherFormData := otherFormData.(popularity := option);
    }

    /** `handleVirtualChange`: sets whether virtual events are included.
        The page defines this handler but renders no control that calls it. */
    method HandleVirtualChange(checked: bool)
      requires Valid()
      modifies this`otherFormData
      ensures Valid()
      ensures otherFormData == old(otherFormData).(includeVirtual := checked)
    {
      otherFormData := otherFormData.(includeVirtual := checked);
    }

    /** `handleSubmit`: with no ranked skill nothing is scored and nothing
        changes; otherwise the catalog is ranked against the current
        answers, the first page is shown, and the results are displayed. */
    method HandleSubmit()
      requires Valid()
      modifies this`recommendations, this`visibleCount, this`showRecommendations
      ensures Valid()
      ensures old(orderedSkills) == [] ==>
        recommendations == old(recommendations) && visibleCount == old(visibleCount)
        && showRecommendations == old(showRecommendations)
      ensures old(orderedSkills) != [] ==>
        recommendations == Rank(catalog, orderedSkills, otherFormData)
        && visibleCount == PageSize && showRecommendations
    {
      if |orderedSkills| == 0 {
        return;
      }
      var results := ScoreEvents(catalog, orderedSkills, otherFormData);
      RankCorrect(catalog, orderedSkills, otherFormData);
      recommendations := results;
      visibleCount := PageSize;
      showRecommendations := true;
    }

    /** `clearForm`: the skills and answers are reset; the results on
        screen and the page count are left as they are. */
    method ClearForm()
      requires Valid()
      modifies this`orderedSkills, this`otherFormData
      ensures Valid()
      ensures orderedSkills == [] && otherFormData == EmptyForm
    {
      orderedSkills := [];
      otherFormData := EmptyForm;
    }

    /** "Load More Events": five more results are revealed. */
    method LoadMore()
      requires Valid()
      modifies this`visibleCount
      ensures Valid()
      ensures visibleCount == old(visibleCount) + PageSize
      ensures old(CanLoadMore()) ==> |Visible()| > |old(Visible())| && Visible()[..|old(Visible())|] == old(Visible())
    {
      LoadMoreRevealsNext(recommendations, visibleCount);
      visibleCount := visibleCount + PageSize;
    }
  }
}
