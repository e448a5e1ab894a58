/** The records the recommender works on: catalog events, the form's
    secondary inputs, scored results, and the virtual-event filter that
    opens the scoring pipeline. */
module Events {

  /** A catalog entry. Popularity is kept as the string the catalog uses
      ("High", "Moderate", "Lower"); scoring compares it to literals. */
  datatype Event = Event(
    name: string,
    category: string,
    tags: seq<string>,
    popularity: string,
    description: string)

  /** Everything the form collects besides the ranked skills. An empty
      string is an unanswered question. */
  datatype FormData = FormData(
    prepStyle: string,
    experience: seq<string>,
    popularity: string,
    teamPreference: string,
    includeVirtual: bool)

  /** An event together with its display percentage and raw score. */
  datatype Scored = Scored(event: Event, matchPercent: int, rawScore: real)

  /** The tag that marks team events. */
  const TeamTag := "Team"

  /** The only popularity answer that changes scores. */
  const LessPopular := "Less popular events"

  /** Experience answers that stand for a different catalog tag. */
  const ExperienceTagMap: map<string, string> := map[
    "Marketing Plans" := "Marketing",
    "Financial Analysis" := "Finance",
    "Public Speaking" := "Presentation",
    "Business Plans" := "Entrepreneurship",
    "Data Analysis" := "Research",
    "Project Management" := "Business Management",
    "Customer Service" := "Hospitality"
  ]

  /** The catalog tag an experience answer matches: its mapped tag, or the
      answer itself when the table has no entry for it. */
  function ExperienceTag(exp: string): string {
    if exp in ExperienceTagMap then ExperienceTagMap[exp] else exp
  }

  /** An event is treated as virtual when its name starts with 'V' or its
      category is "Virtual". */
  predicate IsVirtual(e: Event) {
    (|e.name| > 0 && e.name[0] == 'V') || e.category == "Virtual"
  }

  /** The events that survive `events.filter(...)` when virtual events are
      not wanted, in catalog order. */
  function DropVirtual(events: seq<Event>): seq<Event> {
    if events == [] then []
    else (if IsVirtual(events[0]) then [] else [events[0]]) + DropVirtual(events[1..])
  }

  /** The first step of the pipeline: all events, or only the non-virtual ones. */
  function FilterEvents(events: seq<Event>, includeVirtual: bool): seq<Event> {
    if includeVirtual then events else DropVirtual(events)
  }

  /** Dropping virtual events removes every copy of a virtual event and
      keeps every copy of any other event. */
  lemma {:induction false} DropVirtualCounts(events: seq<Event>)
    ensures forall e ::
              multiset(DropVirtual(events))[e] == if IsVirtual(e) then 0 else multiset(events)[e]
  {
    if events != [] {
      DropVirtualCounts(events[1..]);
      assert events == [events[0]] + events[1..];
      assert multiset(events) == multiset{events[0]} + multiset(events[1..]);
    }
  }

  /** The filter keeps exactly the events it should: everything when
      virtual events are included, otherwise exactly the events that are
      not virtual, each as often as the catalog lists it. */
  lemma FilterEventsExact(events: seq<Event>, includeVirtual: bool)
    ensures includeVirtual ==> FilterEvents(events, includeVirtual) == events
    ensures forall e ::
              multiset(FilterEvents(events, includeVirtual))[e] ==
              if includeVirtual || !IsVirtual(e) then multiset(events)[e] else 0
    ensures forall e ::
              e in FilterEvents(events, includeVirtual) <==> e in events && (includeVirtual || !IsVirtual(e))
  {
    DropVirtualCounts(events);
    forall e ensures e in FilterEvents(events, includeVirtual) <==>
      e in events && (includeVirtual || !IsVirtual(e))
    {
      assert e in FilterEvents(events, includeVirtual) <==>
        e in multiset(FilterEvents(events, includeVirtual));
      assert e in events <==> e in multiset(events);
    }
  }

  /** Filtering a catalog split in two filters each part and keeps the
      parts in order. */
  lemma {:induction false} DropVirtualAppend(a: seq<Event>, b: seq<Event>)
    ensures DropVirtual(a + b) == DropVirtual(a) + DropVirtual(b)
  {
    if a == [] {
      assert a + b == b;
    } else {
      var t := a + b;
      assert t[0] == a[0] && t[1..] == a[1..] + b;
      DropVirtualAppend(a[1..], b);
    }
  }

  /** A single event survives exactly when it is not virtual. */
  lemma DropVirtualSingle(e: Event)
    ensures DropVirtual([e]) == if IsVirtual(e) then [] else [e]
  {
    assert [e][1..] == [];
  }

  /** Events that are all non-virtual pass the filter unchanged and in
      order; together with DropVirtualAppend and DropVirtualSingle this
      says the filter keeps the catalog order of what it keeps. */
  lemma {:induction false} DropVirtualKeepsNonVirtual(events: seq<Event>)
    requires forall i :: 0 <= i < |events| ==> !IsVirtual(events[i])
    ensures DropVirtual(events) == events
  {
    if events != [] {
      DropVirtualKeepsNonVirtual(events[1..]);
      assert events == [events[0]] + events[1..];
    }
  }
}
