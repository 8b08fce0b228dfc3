/** The small state machines of the static home page (script.js) besides the
    reveal scheduler: the hero video that plays once, the mobile menu, the
    back-to-top button and the same-page anchor test. */
module PageScript {
  import opened Session

  /** `video.play()` calls made over a run of triggers (page load and the
      video observer's intersecting entries), where `resolves[i]` says whether
      the i-th call's promise would fulfil; `hasPlayedOnce` starts as given. */
  function PlayCalls(hasPlayedOnce: bool, resolves: seq<bool>): nat
    decreases |resolves|
  {
    if resolves == [] || hasPlayedOnce then 0
    else 1 + PlayCalls(resolves[0], resolves[1..])
  }

  /** The index of the first fulfilled play, or the length when none is. */
  function FirstSuccess(resolves: seq<bool>): (k: nat)
    ensures k <= |resolves|
    ensures forall j :: 0 <= j < k ==> !resolves[j]
    ensures k < |resolves| ==> resolves[k]
    decreases |resolves|
  {
    if resolves == [] then 0
    else if resolves[0] then 0
    else 1 + FirstSuccess(resolves[1..])
  }

  /** The video is played on every trigger up to and including the first
      successful play, and never after it: failed autoplays are retried, a
      successful one is not repeated. */
  lemma {:induction false} PlaysUntilFirstSuccess(resolves: seq<bool>)
    ensures PlayCalls(true, resolves) == 0
    ensures PlayCalls(false, resolves) == if FirstSuccess(resolves) < |resolves|
                                          then FirstSuccess(resolves) + 1 else |resolves|
    decreases |resolves|
  {
    if resolves != [] && !resolves[0] {
      PlaysUntilFirstSuccess(resolves[1..]);
    }
  }

  /** The hero video's once-only flag. */
  class HeroVideo {
    var hasPlayedOnce: bool
    /** How many times `video.play()` has been called. */
    var playCalls: nat

    constructor ()
      ensures !hasPlayedOnce && playCalls == 0
    {
      hasPlayedOnce := false;
      playCalls := 0;
    }

    /** `playVideoOnce`: plays only while the flag is clear; the flag is set
        only when the play promise fulfils (`resolves`), not when it rejects. */
    method PlayVideoOnce(resolves: bool)
      modifies this
      ensures playCalls == old(playCalls) + PlayCalls(old(hasPlayedOnce), [resolves])
      ensures hasPlayedOnce == (old(hasPlayedOnce) || resolves)
    {
      if !hasPlayedOnce {
        playCalls := playCalls + 1;
        if resolves {
          hasPlayedOnce := true;
        }
      }
    }

    /** The video observer's callback for one entry. */
    method OnVideoIntersect(isIntersecting: bool, resolves: bool)
      modifies this
      ensures isIntersecting ==> playCalls == old(playCalls) + PlayCalls(old(hasPlayedOnce), [resolves])
                                 && hasPlayedOnce == (old(hasPlayedOnce) || resolves)
      ensures !isIntersecting ==> playCalls == old(playCalls) && hasPlayedOnce == old(hasPlayedOnce)
    {
      if isIntersecting && !hasPlayedOnce {
        PlayVideoOnce(resolves);
      }
    }
  }

  /** Whether the page's keydown handler closes the menu on a key press. */
  predicate EscapeClosesMenu(key: string, menuOpen: bool)
  {
    key == "Escape" && menuOpen
  }

  /** The drawer menu of the static pages: the `open` class on the menu and
      on its overlay, and the body's overflow style. */
  class PageMenu {
    var menuOpen: bool
    var overlayOpen: bool
    var bodyOverflow: Overflow

    /** Menu and overlay open and close together, and scrolling is locked
        exactly while they are open. */
    ghost predicate Valid()
      reads this
    {
      menuOpen == overlayOpen && (bodyOverflow == Hidden <==> menuOpen)
    }

    constructor ()
      ensures Valid() && !menuOpen && bodyOverflow == Unset
    {
      menuOpen, overlayOpen, bodyOverflow := false, false, Unset;
    }

    /** `openMenu`: the hamburger button. */
    method OpenMenu()
      modifies this
      ensures Valid() && menuOpen && bodyOverflow == Hidden
    {
      menuOpen := true;
      overlayOpen := true;
      bodyOverflow := Hidden;
    }

    /** `closeMenu`: the close button, the overlay and every menu link. */
    method CloseMenu()
      modifies this
      ensures Valid() && !menuOpen && bodyOverflow == Auto
    {
      menuOpen := false;
      overlayOpen := false;
      bodyOverflow := Auto;
    }

    /** The document's keydown handler: Escape closes the menu only when it is open. */
    method KeyDown(key: string)
      requires Valid()
      modifies this
      ensures Valid()
      ensures EscapeClosesMenu(key, old(menuOpen)) ==> !menuOpen && bodyOverflow == Auto
      ensures !EscapeClosesMenu(key, old(menuOpen)) ==> menuOpen == old(menuOpen) && bodyOverflow == old(bodyOverflow)
    {
      if key == "Escape" && menuOpen {
        CloseMenu();
      }
    }
  }

  /** The back-to-top button is shown once the page has scrolled past this many pixels. */
  const BackToTopThreshold: int := 200

  /** The scroll handler's choice: the button is hidden unless `scrollY > 200`. */
  predicate BackToTopHidden(scrollY: int)
  {
    !(scrollY > BackToTopThreshold)
  }

  class BackToTopButton {
    var hidden: bool

    /** The window's scroll handler. */
    method OnScroll(scrollY: int)
      modifies this
      ensures hidden == BackToTopHidden(scrollY)
    {
      if scrollY > BackToTopThreshold {
        hidden := false;
      } else {
        hidden := true;
      }
    }
  }

  /** Scrolling further down never hides a shown button, and the threshold
      itself still hides it. */
  lemma BackToTopMonotone(y1: int, y2: int)
    ensures y1 <= y2 && !BackToTopHidden(y1) ==> !BackToTopHidden(y2)
    ensures BackToTopHidden(BackToTopThreshold) && !BackToTopHidden(BackToTopThreshold + 1)
  {
  }

  /** A pathname without its one leading slash, as `replace(/^\//, '')` leaves it. */
  function StripLeadingSlash(p: string): string
  {
    if p != [] && p[0] == '/' then p[1..] else p
  }

  /** The click handler's same-page test: equal paths up to one leading slash, on the same host. */
  predicate SamePage(locationPath: string, locationHost: string, linkPath: string, linkHost: string)
  {
    StripLeadingSlash(locationPath) == StripLeadingSlash(linkPath) && locationHost == linkHost
  }

  /** The links the handler is attached to: an href containing '#', but not
      exactly "#" or "#0". */
  predicate Intercepted(href: string)
  {
    '#' in href && href != "#" && href != "#0"
  }

  /** Whether a click is taken over (default prevented, smooth scroll started):
      an intercepted same-page link whose target was found by id or by name. */
  predicate TakesOverClick(href: string, locationPath: string, locationHost: string,
                           linkPath: string, linkHost: string, targetFound: bool)
  {
    Intercepted(href) && SamePage(locationPath, locationHost, linkPath, linkHost) && targetFound
  }

  /** The bare "#" and "#0" links are never taken over, a link without a
      target found falls through to the browser, and a link into another
      page is left to the browser even when its hash matches. */
  lemma TakeoverCases(path: string, host: string, linkPath: string, found: bool)
    ensures !TakesOverClick("#", path, host, linkPath, host, found)
    ensures !TakesOverClick("#0", path, host, linkPath, host, found)
    ensures !TakesOverClick("#servicesSection", path, host, path, host, false)
    ensures TakesOverClick("#servicesSection", path, host, path, host, true)
    ensures !TakesOverClick("/contact#servicesSection", "/", host, "/contact", host, found)
  {
    assert "#servicesSection"[0] == '#';
    assert StripLeadingSlash("/") == "" && StripLeadingSlash("/contact") == "contact";
  }

  /** Same-page is an equivalence: reflexive, symmetric and transitive, and
      blind to one leading slash. */
  lemma {:induction false} SamePageEquivalence(p: string, q: string, r: string, h: string, g: string, k: string)
    ensures SamePage(p, h, p, h)
    ensures SamePage(p, h, q, g) ==> SamePage(q, g, p, h)
    ensures SamePage(p, h, q, g) && SamePage(q, g, r, k) ==> SamePage(p, h, r, k)
    ensures SamePage("/" + p, h, p, h) || (p != [] && p[0] == '/')
  {
    assert ("/" + p)[1..] == p;
  }
}
