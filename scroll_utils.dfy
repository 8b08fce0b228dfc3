/** Anchor resolution (src/utils/scrollUtils.ts): scroll to a home-page
    section, navigating home first when needed and then polling for the
    section's element on a fixed interval with a bounded number of retries.
    Time is in integer milliseconds from the call; whether the element is in
    the document at the k-th lookup is the input `present[k]` (absent past the
    end of the sequence). */
module ScrollUtils {
  import Header

  /** What the call does, in order: a navigation, a poll for the element, and
      the start of a smooth scroll to it. */
  datatype Step = Navigate(path: string) | Probe(at: nat) | Scroll(elementId: string, at: nat)

  const SettleDelay: nat := 100
  const FirstProbe: nat := 200
  const PollInterval: nat := 100
  const MaxAttempts: nat := 20

  function PresentAt(present: seq<bool>, k: nat): bool
  {
    k < |present| && present[k]
  }

  /** `smoothScrollToElement`: starts the scroll animation when the element is
      found and does nothing at all when it is missing. */
  function SmoothScrollToElement(elementId: string, found: bool, at: nat): (r: seq<Step>)
  {
    if found then [Scroll(elementId, at)] else []
  }

  /** The home path for the active locale: the header's home link. */
  function HomePath(isEnglishPage: bool): string
  {
    Header.HomeLink(isEnglishPage)
  }

  /** Already home: the current path is the locale's home or the Persian root,
      which counts as home even on an English page. */
  predicate AlreadyHome(currentPath: string, isEnglishPage: bool)
  {
    currentPath == HomePath(isEnglishPage) || currentPath == "/"
  }

  /** The time of the lookup made with `attempts` retries already used. */
  function ProbeTime(attempts: nat): nat
  {
    FirstProbe + PollInterval * attempts
  }

  /** The steps of `tryScroll` run with `attempts` retries already used. */
  function Polls(elementId: string, present: seq<bool>, attempts: nat): seq<Step>
    requires attempts <= MaxAttempts
    decreases MaxAttempts - attempts
  {
    [Probe(ProbeTime(attempts))]
    + if PresentAt(present, attempts) then SmoothScrollToElement(elementId, true, ProbeTime(attempts))
      else if attempts < MaxAttempts then Polls(elementId, present, attempts + 1)
      else []
  }

  /** Everything `navigateAndScroll` does, as a trace of steps. */
  function NavigateAndScroll(currentPath: string, elementId: string, isEnglishPage: bool,
                             present: seq<bool>): seq<Step>
  {
    if AlreadyHome(currentPath, isEnglishPage) then
      SmoothScrollToElement(elementId, PresentAt(present, 0), SettleDelay)
    else
      [Navigate(HomePath(isEnglishPage))] + Polls(elementId, present, 0)
  }

  function CountProbes(s: seq<Step>): nat
  {
    if s == [] then 0 else (if s[0].Probe? then 1 else 0) + CountProbes(s[1..])
  }

  function CountScrolls(s: seq<Step>): nat
  {
    if s == [] then 0 else (if s[0].Scroll? then 1 else 0) + CountScrolls(s[1..])
  }

  lemma {:induction false} CountsAppend(s: seq<Step>, t: seq<Step>)
    ensures CountProbes(s + t) == CountProbes(s) + CountProbes(t)
    ensures CountScrolls(s + t) == CountScrolls(s) + CountScrolls(t)
  {
    if s == [] {
      assert s + t == t;
    } else {
      assert (s + t)[0] == s[0];
      assert (s + t)[1..] == s[1..] + t;
      CountsAppend(s[1..], t);
    }
  }

  /** Whether some lookup from `attempts` on, within the retry budget, finds the element. */
  predicate FoundFrom(present: seq<bool>, attempts: nat)
  {
    exists k :: attempts <= k <= MaxAttempts && PresentAt(present, k)
  }

  /** When the current lookup misses, finding the element later is the same
      as finding it from the next attempt on. */
  lemma FoundFromNext(present: seq<bool>, attempts: nat)
    requires attempts < MaxAttempts && !PresentAt(present, attempts)
    ensures FoundFrom(present, attempts) <==> FoundFrom(present, attempts + 1)
  {
    if FoundFrom(present, attempts) {
      var k :| attempts <= k <= MaxAttempts && PresentAt(present, k);
      assert k != attempts;
    }
  }

  /** The polling loop does one lookup per remaining attempt at most, and
      scrolls exactly once when some remaining lookup within the budget finds
      the element, and never otherwise. */
  lemma {:induction false} PollsCounts(elementId: string, present: seq<bool>, attempts: nat)
    requires attempts <= MaxAttempts
    ensures CountProbes(Polls(elementId, present, attempts)) <= MaxAttempts - attempts + 1
    ensures CountScrolls(Polls(elementId, present, attempts)) == if FoundFrom(present, attempts) then 1 else 0
    decreases MaxAttempts - attempts
  {
    var s := Polls(elementId, present, attempts);
    var head := [Probe(ProbeTime(attempts))];
    if PresentAt(present, attempts) {
      var tail := [Scroll(elementId, ProbeTime(attempts))];
      assert s == head + tail;
      CountsAppend(head, tail);
      assert tail[1..] == [];
    } else if attempts < MaxAttempts {
      var rest := Polls(elementId, present, attempts + 1);
      PollsCounts(elementId, present, attempts + 1);
      assert s == head + rest;
      CountsAppend(head, rest);
      FoundFromNext(present, attempts);
    } else {
      assert s == head;
      forall k | attempts <= k <= MaxAttempts ensures !PresentAt(present, k) {
        assert k == attempts;
      }
    }
  }

  /** The i-th step of the polling loop is the lookup of attempt
      `attempts + i`, within the budget, or, as the very last step, the scroll
      at the time of the lookup before it; it never navigates. */
  lemma {:induction false} PollsShape(elementId: string, present: seq<bool>, attempts: nat, i: nat)
    requires attempts <= MaxAttempts && i < |Polls(elementId, present, attempts)|
    ensures var s := Polls(elementId, present, attempts);
      || (s[i] == Probe(ProbeTime(attempts + i)) && attempts + i <= MaxAttempts)
      || (1 <= i == |s| - 1 && s[i] == Scroll(elementId, ProbeTime(attempts + i - 1)))
    decreases MaxAttempts - attempts
  {
    var s := Polls(elementId, present, attempts);
    if i > 0 {
      if PresentAt(present, attempts) {
        assert s == [Probe(ProbeTime(attempts)), Scroll(elementId, ProbeTime(attempts))];
      } else {
        assert attempts < MaxAttempts;
        var rest := Polls(elementId, present, attempts + 1);
        assert s == [Probe(ProbeTime(attempts))] + rest;
        assert s[i] == rest[i - 1];
        PollsShape(elementId, present, attempts + 1, i - 1);
      }
    }
  }

  /** The polling loop stops at the first lookup that finds the element:
      the next three lemmas say that a lookup followed by another one missed,
      that a final lookup missed with the budget spent, and that the scroll
      follows a lookup that found the element. */
  /** A lookup followed by another lookup missed the element. */
  lemma {:induction false} PollsRetryOnlyAfterMiss(elementId: string, present: seq<bool>, attempts: nat, i: nat)
    requires attempts <= MaxAttempts && i < |Polls(elementId, present, attempts)|
    ensures var s := Polls(elementId, present, attempts);
      s[i].Probe? && i + 1 < |s| && s[i + 1].Probe? ==> !PresentAt(present, attempts + i)
    decreases MaxAttempts - attempts
  {
    var s := Polls(elementId, present, attempts);
    var head := [Probe(ProbeTime(attempts))];
    if PresentAt(present, attempts) {
      assert s == head + [Scroll(elementId, ProbeTime(attempts))];
    } else if attempts < MaxAttempts {
      var rest := Polls(elementId, present, attempts + 1);
      assert s == head + rest;
      if i == 0 {
        assert rest[0].Probe?;
      } else {
        PollsRetryOnlyAfterMiss(elementId, present, attempts + 1, i - 1);
        assert s[i] == rest[i - 1];
        if i + 1 < |s| {
          assert s[i + 1] == rest[i];
        }
      }
    } else {
      assert s == head;
    }
  }

  /** A lookup that ends the trace missed, and it was the last attempt of the budget. */
  lemma {:induction false} PollsGiveUpOnlyAtBudget(elementId: string, present: seq<bool>, attempts: nat, i: nat)
    requires attempts <= MaxAttempts && i < |Polls(elementId, present, attempts)|
    ensures var s := Polls(elementId, present, attempts);
      s[i].Probe? && i == |s| - 1 ==> !PresentAt(present, attempts + i) && attempts + i == MaxAttempts
    decreases MaxAttempts - attempts
  {
    var s := Polls(elementId, present, attempts);
    var head := [Probe(ProbeTime(attempts))];
    if PresentAt(present, attempts) {
      assert s == head + [Scroll(elementId, ProbeTime(attempts))];
    } else if attempts < MaxAttempts {
      var rest := Polls(elementId, present, attempts + 1);
      assert s == head + rest;
      if i == 0 {
        assert rest[0].Probe?;
      } else {
        PollsGiveUpOnlyAtBudget(elementId, present, attempts + 1, i - 1);
        assert s[i] == rest[i - 1];
      }
    } else {
      assert s == head;
    }
  }

  /** The scroll comes right after a lookup that found the element. */
  lemma {:induction false} PollsScrollAfterFind(elementId: string, present: seq<bool>, attempts: nat, i: nat)
    requires attempts <= MaxAttempts && i < |Polls(elementId, present, attempts)|
    ensures var s := Polls(elementId, present, attempts);
      s[i].Scroll? ==> i >= 1 && PresentAt(present, attempts + i - 1)
    decreases MaxAttempts - attempts
  {
    var s := Polls(elementId, present, attempts);
    var head := [Probe(ProbeTime(attempts))];
    if PresentAt(present, attempts) {
      assert s == head + [Scroll(elementId, ProbeTime(attempts))];
    } else if attempts < MaxAttempts {
      var rest := Polls(elementId, present, attempts + 1);
      assert s == head + rest;
      if i == 0 {
        assert rest[0].Probe?;
      } else {
        PollsScrollAfterFind(elementId, present, attempts + 1, i - 1);
        assert s[i] == rest[i - 1];
      }
    } else {
      assert s == head;
    }
  }

  /** Already home: no navigation, and exactly one scroll after the settle
      delay when the element is there, nothing at all otherwise. */
  lemma {:induction false} HomeScrollsAfterSettle(currentPath: string, elementId: string, isEnglishPage: bool,
                                                   present: seq<bool>)
    requires AlreadyHome(currentPath, isEnglishPage)
    ensures var s := NavigateAndScroll(currentPath, elementId, isEnglishPage, present);
            && (PresentAt(present, 0) ==> s == [Scroll(elementId, SettleDelay)])
            && (!PresentAt(present, 0) ==> s == [])
  {
  }

  /** The root counts as home on an English page too: no navigation to `/en`. */
  lemma RootIsHomeInEitherLocale(elementId: string, isEnglishPage: bool, present: seq<bool>)
    ensures forall i :: 0 <= i < |NavigateAndScroll("/", elementId, isEnglishPage, present)| ==>
              !NavigateAndScroll("/", elementId, isEnglishPage, present)[i].Navigate?
  {
  }

  /** Elsewhere: one navigation, to the locale's home and before any lookup;
      at most 21 lookups in all; one scroll exactly when some lookup within
      the budget finds the element, and none otherwise. */
  lemma {:induction false} AwayNavigatesThenPolls(currentPath: string, elementId: string, isEnglishPage: bool,
                                                  present: seq<bool>)
    requires !AlreadyHome(currentPath, isEnglishPage)
    ensures var s := NavigateAndScroll(currentPath, elementId, isEnglishPage, present);
      && s[0] == Navigate(HomePath(isEnglishPage))
      && CountProbes(s) <= MaxAttempts + 1
      && CountScrolls(s) == if FoundFrom(present, 0) then 1 else 0
  {
    var s := NavigateAndScroll(currentPath, elementId, isEnglishPage, present);
    var p := Polls(elementId, present, 0);
    PollsCounts(elementId, present, 0);
    assert s == [Navigate(HomePath(isEnglishPage))] + p;
    CountsAppend([Navigate(HomePath(isEnglishPage))], p);
  }

  /** Elsewhere, step by step: after the navigation, the i-th step is a lookup
      at 200 + 100 (i - 1) ms, never later than 2200 ms, or, as the last step,
      the scroll at the time of the lookup that found the element; no step
      but the first navigates. */
  lemma {:induction false} AwayTiming(currentPath: string, elementId: string, isEnglishPage: bool,
                                      present: seq<bool>, i: nat)
    requires !AlreadyHome(currentPath, isEnglishPage)
    requires 1 <= i < |NavigateAndScroll(currentPath, elementId, isEnglishPage, present)|
    ensures var s := NavigateAndScroll(currentPath, elementId, isEnglishPage, present);
      || (s[i] == Probe(FirstProbe + PollInterval * (i - 1)) && s[i].at <= 2200)
      || (i == |s| - 1 && s[i] == Scroll(elementId, FirstProbe + PollInterval * (i - 2)))
  {
    var s := NavigateAndScroll(currentPath, elementId, isEnglishPage, present);
    var p := Polls(elementId, present, 0);
    assert s == [Navigate(HomePath(isEnglishPage))] + p;
    assert s[i] == p[i - 1];
    PollsShape(elementId, present, 0, i - 1);
  }

  /** `navigateAndScroll`, with the `tryScroll` retry chain run as a loop. */
  method RunNavigateAndScroll(currentPath: string, elementId: string, isEnglishPage: bool,
                              present: seq<bool>) returns (trace: seq<Step>)
    ensures trace == NavigateAndScroll(currentPath, elementId, isEnglishPage, present)
  {
    var homePath := if isEnglishPage then "/en" else "/";
    if currentPath == homePath || currentPath == "/" {
      trace := SmoothScrollToElement(elementId, PresentAt(present, 0), SettleDelay);
    } else {
      trace := [Navigate(homePath)];
      var attempts: nat := 0;
      var at := FirstProbe;
      var done := false;
      while !done
        invariant attempts <= MaxAttempts
        invariant at == ProbeTime(attempts)
        invariant !done ==> trace + Polls(elementId, present, attempts)
                            == NavigateAndScroll(currentPath, elementId, isEnglishPage, present)
        invariant done ==> trace == NavigateAndScroll(currentPath, elementId, isEnglishPage, present)
        decreases if done then 0 else MaxAttempts - attempts + 1
      {
        trace := trace + [Probe(at)];
        var found := PresentAt(present, attempts);
        if found {
          trace := trace + SmoothScrollToElement(elementId, found, at);
          done := true;
        } else if attempts < MaxAttempts {
          attempts := attempts + 1;
          at := at + PollInterval;
        } else {
          done := true;
        }
      }
    }
  }
}
