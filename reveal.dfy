/** The scroll-triggered reveal scheduler of the static home page (script.js):
    each section, the first time it intersects the viewport, schedules
    fixed-delay timers that set its elements' opacity to 1. Timers are kept
    as a list of (delay, targets) entries rather than run on a clock, and
    observer callbacks are sequential method calls. */
module Reveal {

  /** How a timer callback reaches the elements it reveals. */
  datatype Lookup =
    | ByIdUnguarded   // looked up by id when the timer fires, with no null check
    | ByIdGuarded     // looked up by id when the timer fires, skipped when missing
    | Captured        // looked up, and checked, when the section was triggered

  /** A scheduled callback: after `delay` ms, set the opacity of `targets` to 1. */
  datatype Timer = Timer(delay: nat, targets: seq<string>, lookup: Lookup)

  datatype SectionKind = Services | Projects | Stats | Team | About

  const ServiceIds: seq<string> := ["service1", "service2", "service3", "service4"]
  const StatIds: seq<string> := ["stat1", "stat2", "stat3", "stat4"]

  /** One timer per id, the i-th at `start + i * step`: a `forEach` over an
      id list that calls `setTimeout` with the index-derived delay. */
  function Staggered(ids: seq<string>, start: nat, step: nat, lookup: Lookup): seq<Timer>
  {
    seq(|ids|, i requires 0 <= i < |ids| => Timer(start + step * i, [ids[i]], lookup))
  }

  /** The timers one run of a section's animate function schedules, given the
      ids present in the document and the team cards matched at that moment. */
  function Schedule(kind: SectionKind, elements: set<string>, teamCards: seq<string>): seq<Timer>
  {
    match kind
    case Services =>
      [Timer(0, ["servicesText"], ByIdUnguarded)] + Staggered(ServiceIds, 900, 500, ByIdUnguarded)
    case Projects =>
      [Timer(0, ["projectsHeader"], ByIdUnguarded), Timer(900, ["projectsCarouselWrapper"], ByIdGuarded)]
    case Stats =>
      Staggered(StatIds, 0, 800, ByIdGuarded)
    case Team =>
      (if "teamHeader" in elements then [Timer(700, ["teamHeader"], Captured)] else [])
      + (if |teamCards| > 0 then [Timer(1400, teamCards, Captured)] else [])
    case About =>
      (if "aboutImage" in elements then [Timer(0, ["aboutImage"], Captured)] else [])
      + (if "aboutText" in elements then [Timer(900, ["aboutText"], Captured)] else [])
  }

  /** Every section but About keeps a once-only flag. */
  predicate HasOnceGuard(kind: SectionKind)
  {
    kind != About
  }

  function Delays(ts: seq<Timer>): seq<nat>
  {
    seq(|ts|, i requires 0 <= i < |ts| => ts[i].delay)
  }

  /** A timer looked up by id names exactly one element. */
  predicate WellFormed(t: Timer)
  {
    t.lookup != Captured ==> |t.targets| == 1
  }

  /** Services: the text at once, then the four cards at 900, 1400, 1900 and
      2400 ms, each looked up without a null check. */
  lemma ServicesSchedule(elements: set<string>, teamCards: seq<string>)
    ensures var s := Schedule(Services, elements, teamCards);
      && Delays(s) == [0, 900, 1400, 1900, 2400]
      && s[0].targets == ["servicesText"]
      && (forall i :: 1 <= i < |s| ==> s[i].targets == [ServiceIds[i - 1]])
      && (forall i :: 0 <= i < |s| ==> s[i].lookup == ByIdUnguarded)
  {
  }

  /** Projects: the header at once (unguarded), the carousel wrapper at 900 ms (guarded). */
  lemma ProjectsSchedule(elements: set<string>, teamCards: seq<string>)
    ensures Schedule(Projects, elements, teamCards) ==
              [Timer(0, ["projectsHeader"], ByIdUnguarded), Timer(900, ["projectsCarouselWrapper"], ByIdGuarded)]
    ensures Delays(Schedule(Projects, elements, teamCards)) == [0, 900]
  {
  }

  /** Stats: the four items at 0, 800, 1600 and 2400 ms, each skipped when missing. */
  lemma StatsSchedule(elements: set<string>, teamCards: seq<string>)
    ensures var s := Schedule(Stats, elements, teamCards);
      && Delays(s) == [0, 800, 1600, 2400]
      && (forall i :: 0 <= i < |s| ==> s[i].targets == [StatIds[i]] && s[i].lookup == ByIdGuarded)
  {
  }

  /** Team: the header at 700 ms only when it exists, and every card in one
      timer at 1400 ms only when there is at least one card. */
  lemma TeamSchedule(elements: set<string>, teamCards: seq<string>)
    ensures var s := Schedule(Team, elements, teamCards);
      && ((exists i :: 0 <= i < |s| && s[i] == Timer(700, ["teamHeader"], Captured)) <==> "teamHeader" in elements)
      && ((exists i :: 0 <= i < |s| && s[i] == Timer(1400, teamCards, Captured)) <==> |teamCards| > 0)
      && |s| == (if "teamHeader" in elements then 1 else 0) + (if |teamCards| > 0 then 1 else 0)
  {
    var s := Schedule(Team, elements, teamCards);
    if "teamHeader" in elements && |teamCards| > 0 {
      assert s[0] == Timer(700, ["teamHeader"], Captured);
      assert s[1] == Timer(1400, teamCards, Captured);
    } else if "teamHeader" in elements {
      assert s[0] == Timer(700, ["teamHeader"], Captured);
    } else if |teamCards| > 0 {
      assert s[0] == Timer(1400, teamCards, Captured);
    }
  }

  /** Within one section the delays never decrease in listed order, none
      exceeds 2400 ms, and every timer looked up by id names one element. */
  lemma {:induction false} ScheduleOrdered(kind: SectionKind, elements: set<string>, teamCards: seq<string>)
    ensures var s := Schedule(kind, elements, teamCards);
      && (forall i, j :: 0 <= i <= j < |s| ==> s[i].delay <= s[j].delay)
      && (forall i :: 0 <= i < |s| ==> s[i].delay <= 2400 && WellFormed(s[i]))
  {
    var s := Schedule(kind, elements, teamCards);
    match kind
    case Services =>
      ServicesSchedule(elements, teamCards);
      assert forall i :: 0 <= i < |s| ==> s[i].delay == Delays(s)[i];
    case Stats =>
      StatsSchedule(elements, teamCards);
      assert forall i :: 0 <= i < |s| ==> s[i].delay == Delays(s)[i];
    case Projects =>
    case Team =>
      TeamSchedule(elements, teamCards);
    case About =>
  }

  /** The ids a fired timer sets to opacity 1. An unguarded lookup that finds
      nothing throws before setting anything. */
  function Effect(t: Timer, elements: set<string>): set<string>
  {
    match t.lookup
    case Captured => set x | x in t.targets
    case ByIdGuarded => set x | x in t.targets && x in elements
    case ByIdUnguarded => if Throws(t, elements) then {} else set x | x in t.targets
  }

  /** An unguarded timer whose element is missing throws a TypeError in its
      callback; the error is uncaught, and nothing else follows from it. */
  predicate Throws(t: Timer, elements: set<string>)
  {
    t.lookup == ByIdUnguarded && exists x :: x in t.targets && x !in elements
  }

  /** The revealed set after firing `ts` in order, from `revealed`. */
  function Fired(revealed: set<string>, ts: seq<Timer>, elements: set<string>): set<string>
    decreases |ts|
  {
    if ts == [] then revealed else Fired(revealed + Effect(ts[0], elements), ts[1..], elements)
  }

  /** Everything a list of timers reveals, in any order. */
  function AllEffects(ts: seq<Timer>, elements: set<string>): set<string>
    decreases |ts|
  {
    if ts == [] then {} else Effect(ts[0], elements) + AllEffects(ts[1..], elements)
  }

  /** Firing only ever adds: the result is the old revealed set plus what the
      timers reveal, so no opacity is ever reset. */
  lemma {:induction false} FiredIsUnion(revealed: set<string>, ts: seq<Timer>, elements: set<string>)
    ensures Fired(revealed, ts, elements) == revealed + AllEffects(ts, elements)
    decreases |ts|
  {
    if ts != [] {
      FiredIsUnion(revealed + Effect(ts[0], elements), ts[1..], elements);
    }
  }

  lemma {:induction false} AllEffectsAppend(a: seq<Timer>, b: seq<Timer>, elements: set<string>)
    ensures AllEffects(a + b, elements) == AllEffects(a, elements) + AllEffects(b, elements)
    decreases |a|
  {
    if a == [] {
      assert a + b == b;
    } else {
      assert (a + b)[0] == a[0] && (a + b)[1..] == a[1..] + b;
      AllEffectsAppend(a[1..], b, elements);
    }
  }

  /** Rescheduling the same timers changes nothing in the end state, and the
      order in which two batches fire does not matter: reveals are idempotent. */
  lemma {:induction false} RefireChangesNothing(revealed: set<string>, a: seq<Timer>, b: seq<Timer>,
                                                elements: set<string>)
    ensures Fired(revealed, a + a, elements) == Fired(revealed, a, elements)
    ensures Fired(revealed, a + b, elements) == Fired(revealed, b + a, elements)
    ensures revealed <= Fired(revealed, a, elements)
  {
    FiredIsUnion(revealed, a + a, elements);
    FiredIsUnion(revealed, a, elements);
    FiredIsUnion(revealed, a + b, elements);
    FiredIsUnion(revealed, b + a, elements);
    AllEffectsAppend(a, a, elements);
    AllEffectsAppend(a, b, elements);
    AllEffectsAppend(b, a, elements);
  }

  /** The timers a section schedules over a run of observer callbacks, each
      reporting whether its entry intersects, starting from flag `played`. */
  function ScheduledAfter(kind: SectionKind, played: bool, events: seq<bool>,
                          elements: set<string>, teamCards: seq<string>): seq<Timer>
    decreases |events|
  {
    if events == [] then []
    else if events[0] && !(HasOnceGuard(kind) && played) then
      Schedule(kind, elements, teamCards)
      + ScheduledAfter(kind, played || HasOnceGuard(kind), events[1..], elements, teamCards)
    else ScheduledAfter(kind, played, events[1..], elements, teamCards)
  }

  /** A guarded section schedules its reveal once, on the first intersecting
      callback, however many follow, and never again once played. */
  lemma {:induction false} RevealsAtMostOnce(kind: SectionKind, events: seq<bool>,
                                             elements: set<string>, teamCards: seq<string>)
    requires HasOnceGuard(kind)
    ensures ScheduledAfter(kind, true, events, elements, teamCards) == []
    ensures ScheduledAfter(kind, false, events, elements, teamCards)
            == if true in events then Schedule(kind, elements, teamCards) else []
    decreases |events|
  {
    if events != [] {
      RevealsAtMostOnce(kind, events[1..], elements, teamCards);
      assert true in events <==> events[0] || true in events[1..];
      if events[0] {
        assert Schedule(kind, elements, teamCards) + [] == Schedule(kind, elements, teamCards);
      }
    }
  }

  /** About has no flag: every intersecting callback schedules its timers
      again, yet the revealed set ends as if they had been scheduled once. */
  lemma {:induction false} AboutRescheduleHarmless(events: seq<bool>, revealed: set<string>,
                                                   elements: set<string>, teamCards: seq<string>)
    ensures var once := Schedule(About, elements, teamCards);
            Fired(revealed, ScheduledAfter(About, false, events, elements, teamCards), elements)
            == if true in events then Fired(revealed, once, elements) else revealed
    decreases |events|
  {
    var once := Schedule(About, elements, teamCards);
    var all := ScheduledAfter(About, false, events, elements, teamCards);
    FiredIsUnion(revealed, all, elements);
    FiredIsUnion(revealed, once, elements);
    if events != [] {
      var rest := ScheduledAfter(About, false, events[1..], elements, teamCards);
      AboutRescheduleHarmless(events[1..], revealed, elements, teamCards);
      FiredIsUnion(revealed, rest, elements);
      assert true in events <==> events[0] || true in events[1..];
      if events[0] {
        assert all == once + rest;
        AllEffectsAppend(once, rest, elements);
      }
    }
  }

  /** The document as the scheduler sees it. */
  class Dom {
    /** The ids present in the document. */
    var elements: set<string>
    /** The elements matching `#teamSection .team-card`, in document order. */
    var teamCards: seq<string>
    /** The elements whose inline opacity is '1'. */
    var revealed: set<string>

    constructor (elements: set<string>, teamCards: seq<string>)
      ensures this.elements == elements && this.teamCards == teamCards && revealed == {}
    {
      this.elements := elements;
      this.teamCards := teamCards;
      revealed := {};
    }

    /** Runs a timer's callback: reports whether it threw, and reveals its effect. */
    method Fire(t: Timer) returns (threw: bool)
      requires WellFormed(t)
      modifies this`revealed
      ensures threw == Throws(t, elements)
      ensures revealed == old(revealed) + Effect(t, elements)
    {
      threw := false;
      match t.lookup {
        case Captured =>
          for i := 0 to |t.targets|
            invariant revealed == old(revealed) + set x | x in t.targets[..i]
          {
            assert t.targets[..i + 1] == t.targets[..i] + [t.targets[i]];
            revealed := revealed + {t.targets[i]};
          }
          assert t.targets[..|t.targets|] == t.targets;
        case ByIdGuarded =>
          var id := t.targets[0];
          if id in elements {
            revealed := revealed + {id};
          }
          assert t.targets == [id];
        case ByIdUnguarded =>
          var id := t.targets[0];
          assert t.targets == [id];
          if id in elements {
            revealed := revealed + {id};
          } else {
            threw := true;
          }
      }
    }
  }

  /** A section of the page with its once-only flag and the timers it has set. */
  class Section {
    const kind: SectionKind
    /** `servicesAnimated`, `projectsAnimated`, ...; About has none and stays false. */
    var played: bool
    /** Every timer this section has scheduled, in scheduling order. */
    var scheduled: seq<Timer>

    constructor (kind: SectionKind)
      ensures this.kind == kind && !played && scheduled == []
    {
      this.kind := kind;
      played := false;
      scheduled := [];
    }

    /** Appends one timer per id, the i-th at `start + i * step`. */
    method ScheduleEach(ids: seq<string>, start: nat, step: nat, lookup: Lookup)
      modifies this`scheduled
      ensures scheduled == old(scheduled) + Staggered(ids, start, step, lookup)
    {
      for i := 0 to |ids|
        invariant scheduled == old(scheduled) + Staggered(ids[..i], start, step, lookup)
      {
        assert Staggered(ids[..i + 1], start, step, lookup)
               == Staggered(ids[..i], start, step, lookup) + [Timer(start + step * i, [ids[i]], lookup)];
        scheduled := scheduled + [Timer(start + step * i, [ids[i]], lookup)];
      }
      assert ids[..|ids|] == ids;
    }

    /** The section's animate function (`animateServicesSection`, ...). */
    method Animate(dom: Dom)
      modifies this`played, this`scheduled
      ensures played == (old(played) || HasOnceGuard(kind))
      ensures scheduled == old(scheduled) + ScheduledAfter(kind, old(played), [true], dom.elements, dom.teamCards)
    {
      match kind {
        case Services =>
          if !played {
            played := true;
            scheduled := scheduled + [Timer(0, ["servicesText"], ByIdUnguarded)];
            ScheduleEach(ServiceIds, 900, 500, ByIdUnguarded);
          }
        case Projects =>
          if !played {
            played := true;
            scheduled := scheduled + [Timer(0, ["projectsHeader"], ByIdUnguarded)];
            scheduled := scheduled + [Timer(900, ["projectsCarouselWrapper"], ByIdGuarded)];
          }
        case Stats =>
          if !played {
            played := true;
            ScheduleEach(StatIds, 0, 800, ByIdGuarded);
          }
        case Team =>
          if !played {
            played := true;
            var hasHeader := "teamHeader" in dom.elements;
            var cards := dom.teamCards;
            if hasHeader {
              scheduled := scheduled + [Timer(700, ["teamHeader"], Captured)];
            }
            if |cards| > 0 {
              scheduled := scheduled + [Timer(1400, cards, Captured)];
            }
          }
        case About =>
          if "aboutImage" in dom.elements {
            scheduled := scheduled + [Timer(0, ["aboutImage"], Captured)];
          }
          if "aboutText" in dom.elements {
            scheduled := scheduled + [Timer(900, ["aboutText"], Captured)];
          }
      }
    }

    /** The section's observer callback for one entry: only an intersecting
        entry triggers the animate function. */
    method OnIntersect(isIntersecting: bool, dom: Dom)
      modifies this`played, this`scheduled
      ensures played == (old(played) || (isIntersecting && HasOnceGuard(kind)))
      ensures scheduled == old(scheduled)
                           + ScheduledAfter(kind, old(played), [isIntersecting], dom.elements, dom.teamCards)
    {
      if isIntersecting {
        Animate(dom);
      }
    }
  }
}
