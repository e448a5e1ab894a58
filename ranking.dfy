/** The `scoreEvents` pipeline: filter the catalog, score every remaining
    event, and order the results by raw score, highest first. The page
    relies on the stable built-in array sort with the comparator
    `b.rawScore - a.rawScore`; SortByScore is a stable insertion sort with
    the same ordering, and the lemmas below state what it guarantees. */
module Ranking {
  import opened Events
  import opened Scoring

  /** An event with its raw score and percentage, as `{ ...event, match, rawScore }`. */
  function ScoreOne(e: Event, skills: seq<string>, input: FormData): Scored {
    var score := EventScore(e, skills, input);
    Scored(e, Percent(score, |skills|), score)
  }

  /** `filteredEvents.map(...)`: each event scored, in order. */
  function MapScore(events: seq<Event>, skills: seq<string>, input: FormData): seq<Scored> {
    seq(|events|, i requires 0 <= i < |events| => ScoreOne(events[i], skills, input))
  }

  /** The events underneath a list of scored results. */
  function EventsOf(s: seq<Scored>): seq<Event> {
    seq(|s|, i requires 0 <= i < |s| => s[i].event)
  }

  /** Non-increasing by raw score. */
  predicate SortedByScore(s: seq<Scored>) {
    forall i, j :: 0 <= i < j < |s| ==> s[i].rawScore >= s[j].rawScore
  }

  /** The results with raw score exactly `v`, in their order in `s`. */
  function WithScore(s: seq<Scored>, v: real): seq<Scored> {
    if s == [] then []
    else (if s[0].rawScore == v then [s[0]] else []) + WithScore(s[1..], v)
  }

  /** Places `x` in a list ordered by score, after every strictly higher
      score and before the first score not above its own. */
  function Insert(x: Scored, sorted: seq<Scored>): seq<Scored> {
    if sorted == [] then [x]
    else if sorted[0].rawScore > x.rawScore then [sorted[0]] + Insert(x, sorted[1..])
    else [x] + sorted
  }

  /** Stable sort by raw score, highest first. */
  function SortByScore(s: seq<Scored>): seq<Scored> {
    if s == [] then [] else Insert(s[0], SortByScore(s[1..]))
  }

  /** The whole of `scoreEvents`, as a value. */
  function Rank(events: seq<Event>, skills: seq<string>, input: FormData): seq<Scored> {
    SortByScore(MapScore(FilterEvents(events, input.includeVirtual), skills, input))
  }

  /** The ranking as the page computes it: filter, then the per-event
      scoring loop for each remaining event, then the sort. */
  method ScoreEvents(events: seq<Event>, skills: seq<string>, input: FormData) returns (result: seq<Scored>)
    ensures result == Rank(events, skills, input)
  {
    var filteredEvents := FilterEvents(events, input.includeVirtual);
    var scored: seq<Scored> := [];
    for k := 0 to |filteredEvents|
      invariant |scored| == k
      invariant forall i :: 0 <= i < k ==> scored[i] == ScoreOne(filteredEvents[i], skills, input)
    {
      var score := ScoreEvent(filteredEvents[k], skills, input);
      var percent := Percent(score, |skills|);
      scored := scored + [Scored(filteredEvents[k], percent, score)];
    }
    assert scored == MapScore(filteredEvents, skills, input);
    result := SortByScore(scored);
  }

  // ---------------------------------------------------------------------
  // The sort

  /** The events of a list with a leading result. */
  lemma EventsOfCons(h: Scored, t: seq<Scored>)
    ensures EventsOf([h] + t) == [h.event] + EventsOf(t)
  {
  }

  /** Inserting adds exactly `x`. */
  lemma {:induction false} InsertPermutes(x: Scored, sorted: seq<Scored>)
    ensures multiset(Insert(x, sorted)) == multiset(sorted) + multiset{x}
  {
    if sorted != [] && sorted[0].rawScore > x.rawScore {
      var h, rest := sorted[0], sorted[1..];
      InsertPermutes(x, rest);
      assert Insert(x, sorted) == [h] + Insert(x, rest);
      assert sorted == [h] + rest;
    }
  }

  /** Inserting adds exactly the event of `x` to the underlying events. */
  lemma {:induction false} InsertPermutesEvents(x: Scored, sorted: seq<Scored>)
    ensures multiset(EventsOf(Insert(x, sorted))) == multiset(EventsOf(sorted)) + multiset{x.event}
  {
    if sorted == [] {
      EventsOfCons(x, []);
    } else if sorted[0].rawScore > x.rawScore {
      var h, rest := sorted[0], sorted[1..];
      InsertPermutesEvents(x, rest);
      var inner := Insert(x, rest);
      assert Insert(x, sorted) == [h] + inner;
      assert sorted == [h] + rest;
      EventsOfCons(h, inner);
      EventsOfCons(h, rest);
    } else {
      assert Insert(x, sorted) == [x] + sorted;
      EventsOfCons(x, sorted);
    }
  }

  /** A result no lower than every result of a sorted list can lead it. */
  lemma SortedCons(h: Scored, t: seq<Scored>)
    requires SortedByScore(t)
    requires forall j :: 0 <= j < |t| ==> h.rawScore >= t[j].rawScore
    ensures SortedByScore([h] + t)
  {
    var r := [h] + t;
    forall i, j | 0 <= i < j < |r| ensures r[i].rawScore >= r[j].rawScore {
      assert r[j] == t[j - 1];
      if i > 0 {
        assert r[i] == t[i - 1];
      }
    }
  }

  /** Inserting into a sorted list keeps it sorted. */
  lemma {:induction false} InsertSorted(x: Scored, sorted: seq<Scored>)
    requires SortedByScore(sorted)
    ensures SortedByScore(Insert(x, sorted))
  {
    if sorted == [] {
      assert Insert(x, sorted) == [x];
    } else if sorted[0].rawScore > x.rawScore {
      var h, rest := sorted[0], sorted[1..];
      assert SortedByScore(rest) by {
        forall i, j | 0 <= i < j < |rest| ensures rest[i].rawScore >= rest[j].rawScore {
          assert rest[i] == sorted[i + 1] && rest[j] == sorted[j + 1];
        }
      }
      InsertSorted(x, rest);
      InsertPermutes(x, rest);
      var inner := Insert(x, rest);
      assert Insert(x, sorted) == [h] + inner;
      forall j | 0 <= j < |inner| ensures h.rawScore >= inner[j].rawScore {
        var y := inner[j];
        assert y in multiset(inner);
        if y != x {
          assert y in multiset(rest);
          var k :| 0 <= k < |rest| && rest[k] == y;
          assert sorted[k + 1] == y;
        }
      }
      SortedCons(h, inner);
    } else {
      assert Insert(x, sorted) == [x] + sorted;
      forall j | 0 <= j < |sorted| ensures x.rawScore >= sorted[j].rawScore {
        if j > 0 {
          assert sorted[0].rawScore >= sorted[j].rawScore;
        }
      }
      SortedCons(x, sorted);
    }
  }

  /** Among results of any one score, `x` lands ahead of the others: it
      came first in the input. */
  lemma {:induction false} InsertStable(x: Scored, sorted: seq<Scored>, v: real)
    ensures WithScore(Insert(x, sorted), v) == (if x.rawScore == v then [x] else []) + WithScore(sorted, v)
  {
    if sorted == [] {
      assert WithScore([x], v) == (if x.rawScore == v then [x] else []) + WithScore([], v);
    } else if sorted[0].rawScore > x.rawScore {
      var h, rest := sorted[0], sorted[1..];
      InsertStable(x, rest, v);
      var inner := Insert(x, rest);
      var r := [h] + inner;
      assert Insert(x, sorted) == r;
      assert r[0] == h && r[1..] == inner;
      assert WithScore(r, v) == (if h.rawScore == v then [h] else []) + WithScore(inner, v);
      assert WithScore(sorted, v) == (if h.rawScore == v then [h] else []) + WithScore(rest, v);
    } else {
      var r := [x] + sorted;
      assert Insert(x, sorted) == r;
      assert r[0] == x && r[1..] == sorted;
      assert WithScore(r, v) == (if x.rawScore == v then [x] else []) + WithScore(sorted, v);
    }
  }

  /** The sort returns a permutation of its input. */
  lemma {:induction false} SortPermutes(s: seq<Scored>)
    ensures multiset(SortByScore(s)) == multiset(s)
  {
    if s != [] {
      SortPermutes(s[1..]);
      InsertPermutes(s[0], SortByScore(s[1..]));
      assert s == [s[0]] + s[1..];
    }
  }

  /** The sort returns a permutation of the underlying events. */
  lemma {:induction false} SortPermutesEvents(s: seq<Scored>)
    ensures multiset(EventsOf(SortByScore(s))) == multiset(EventsOf(s))
  {
    if s != [] {
      SortPermutesEvents(s[1..]);
      InsertPermutesEvents(s[0], SortByScore(s[1..]));
      assert EventsOf(s) == [s[0].event] + EventsOf(s[1..]);
    }
  }

  /** The sort orders by raw score, highest first. */
  lemma {:induction false} SortSorted(s: seq<Scored>)
    ensures SortedByScore(SortByScore(s))
  {
    if s != [] {
      SortSorted(s[1..]);
      InsertSorted(s[0], SortByScore(s[1..]));
    }
  }

  /** Results of equal raw score keep their input order. */
  lemma {:induction false} SortStable(s: seq<Scored>, v: real)
    ensures WithScore(SortByScore(s), v) == WithScore(s, v)
  {
    if s != [] {
      SortStable(s[1..], v);
      InsertStable(s[0], SortByScore(s[1..]), v);
    }
  }

  /** The sort returns a permutation of its input, ordered by raw score
      highest first, in which results of equal score keep their input
      order; together these determine the output completely. */
  lemma SortByScoreCorrect(s: seq<Scored>)
    ensures multiset(SortByScore(s)) == multiset(s)
    ensures multiset(EventsOf(SortByScore(s))) == multiset(EventsOf(s))
    ensures SortedByScore(SortByScore(s))
    ensures forall v :: WithScore(SortByScore(s), v) == WithScore(s, v)
  {
    SortPermutes(s);
    SortPermutesEvents(s);
    SortSorted(s);
    forall v ensures WithScore(SortByScore(s), v) == WithScore(s, v) {
      SortStable(s, v);
    }
  }

  // ---------------------------------------------------------------------
  // The ranking

  /** What `scoreEvents` returns: exactly the filtered events, each once
      for each time it survives the filter, each carrying its own raw score
      and the percentage of that score, ordered by raw score highest first
      (and therefore by percentage too), with results of equal raw score
      in catalog order. */
  lemma RankCorrect(events: seq<Event>, skills: seq<string>, input: FormData)
    ensures var r := Rank(events, skills, input);
      && multiset(EventsOf(r)) == multiset(FilterEvents(events, input.includeVirtual))
      && (forall i :: 0 <= i < |r| ==>
            r[i].rawScore == EventScore(r[i].event, skills, input)
            && r[i].matchPercent == Percent(r[i].rawScore, |skills|)
            && 0 <= r[i].matchPercent <= 100)
      && SortedByScore(r)
      && (forall i, j :: 0 <= i < j < |r| ==> r[i].matchPercent >= r[j].matchPercent)
      && (forall v :: WithScore(r, v)
                    == WithScore(MapScore(FilterEvents(events, input.includeVirtual), skills, input), v))
  {
    var filtered := FilterEvents(events, input.includeVirtual);
    var mapped := MapScore(filtered, skills, input);
    var r := Rank(events, skills, input);
    SortByScoreCorrect(mapped);
    assert EventsOf(mapped) == filtered;
    forall i | 0 <= i < |r|
      ensures r[i] == ScoreOne(r[i].event, skills, input)
    {
      assert r[i] in multiset(mapped);
      var k :| 0 <= k < |mapped| && mapped[k] == r[i];
    }
    forall i, j | 0 <= i < j < |r| ensures r[i].matchPercent >= r[j].matchPercent {
      PercentMonotone(r[j].rawScore, r[i].rawScore, |skills|);
    }
  }

  /** A worked case: with "Less popular events" chosen, a high-popularity
      event that matches the one ranked skill scores 1.5 - 0.8 = 0.7 (16%),
      and an unmatched low-popularity event scores 1.5 (33%) and ranks first. */
  lemma WorkedExample()
    ensures
      var a := Event("A", "Finance", ["Finance", "Team"], "High", "");
      var b := Event("B", "Marketing", ["Marketing"], "Low", "");
      var input := FormData("", [], LessPopular, "", true);
      Rank([a, b], ["Finance"], input) == [Scored(b, 33, 1.5), Scored(a, 16, 0.7)]
  {
    var a := Event("A", "Finance", ["Finance", "Team"], "High", "");
    var b := Event("B", "Marketing", ["Marketing"], "Low", "");
    var input := FormData("", [], LessPopular, "", true);
    var skills := ["Finance"];
    assert SkillFold(a.tags, skills, 1) == Tally(1.5, {"Finance"});
    assert "Finance" !in b.tags;
    assert SkillFold(b.tags, skills, 1) == Tally(0.0, {});
    assert EventScore(a, skills, input) == 0.7;
    assert EventScore(b, skills, input) == 1.5;
    assert Round(0.7 / 4.5 * 100.0) == 16;
    assert Round(1.5 / 4.5 * 100.0) == 33;
    var mapped := MapScore([a, b], skills, input);
    assert mapped == [Scored(a, 16, 0.7), Scored(b, 33, 1.5)];
    assert SortByScore(mapped[1..]) == [Scored(b, 33, 1.5)];
  }
}
