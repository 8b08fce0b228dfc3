/** The mobile navigation drawer (src/components/layout/MobileMenu.tsx): its
    own, narrower language toggle that pushes raw history entries for four
    paths only, and the effect that locks body scrolling and listens for
    Escape while the drawer is open. */
module MobileMenu {
  import opened Wrappers
  import opened Session
  import Header

  /** The entry the drawer's toggle pushes for the language it switches to:
      only the two roots and the two contact paths are mapped. */
  function PushTarget(newLang: string, currentPath: string): Option<string>
  {
    if newLang == "en" then
      if currentPath == "/" then Some("/en")
      else if currentPath == "/contact" then Some("/en/contact")
      else None
    else
      if currentPath == "/en" then Some("/")
      else if currentPath == "/en/contact" then Some("/contact")
      else None
  }

  /** Exactly the two Persian paths are mapped towards English and exactly the
      two English paths towards Persian. */
  lemma PushTargetDomain(newLang: string, currentPath: string)
    ensures newLang == "en" ==>
              (PushTarget(newLang, currentPath).Some? <==> currentPath in {"/", "/contact"})
    ensures newLang != "en" ==>
              (PushTarget(newLang, currentPath).Some? <==> currentPath in {"/en", "/en/contact"})
  {
  }

  /** Wherever the drawer pushes an entry, it is the path the header's toggle
      would navigate to from the same language and path. */
  lemma {:induction false} PushTargetAgreesWithHeader(lang: string, currentPath: string)
    requires PushTarget(Header.ToggledLanguage(lang), currentPath).Some?
    ensures PushTarget(Header.ToggledLanguage(lang), currentPath).value == Header.ToggledPath(lang == "fa", currentPath)
  {
    if currentPath == "/contact" {
      assert !Header.IsEnglishPage(currentPath) by { assert currentPath[1] == 'c'; }
    } else if currentPath == "/en/contact" {
      assert Header.IsEnglishPage(currentPath) by { assert currentPath[..3] == "/en"; }
      assert currentPath[3..] == "/contact";
    } else if currentPath == "/en" {
      assert Header.IsEnglishPage(currentPath) by { assert currentPath[..3] == "/en"; }
    }
  }

  /** The mapping is undone by the opposite toggle. */
  lemma PushTargetRoundTrip(currentPath: string)
    requires PushTarget("en", currentPath).Some?
    ensures PushTarget("fa", PushTarget("en", currentPath).value) == Some(currentPath)
  {
  }

  /** The drawer's toggle is narrower than the header's: on a project page it
      pushes nothing although the header would rewrite the path. */
  lemma {:induction false} NarrowerThanHeader()
    ensures PushTarget("en", "/project/x") == None
    ensures Header.ToggledPath(true, "/project/x") == "/en/project/x"
  {
    assert !Header.IsEnglishPage("/project/x") by { assert "/project/x"[1] == 'p'; }
  }

  /** The drawer's `toggleLanguage`: the language always flips; a mapped path
      gets one new history entry, which the router does not follow, and any
      other path leaves the history as it was. */
  method ToggleLanguage(b: Browser)
    requires b.Valid()
    modifies b
    ensures b.Valid()
    ensures b.language == Header.ToggledLanguage(old(b.language))
    ensures var target := PushTarget(b.language, old(b.Pathname()));
            && (target.Some? ==> b.history == old(b.history) + [target.value])
            && (target.None? ==> b.history == old(b.history))
    ensures b.routerPath == old(b.routerPath) && b.bodyOverflow == old(b.bodyOverflow)
  {
    var newLang := if b.language == "fa" then "en" else "fa";
    b.ChangeLanguage(newLang);
    var currentPath := b.Pathname();
    if newLang == "en" {
      if currentPath == "/" {
        b.PushState("/en");
      } else if currentPath == "/contact" {
        b.PushState("/en/contact");
      }
    } else {
      if currentPath == "/en" {
        b.PushState("/");
      } else if currentPath == "/en/contact" {
        b.PushState("/contact");
      }
    }
  }

  /** The body overflow the effect sets for a drawer state. */
  function OverflowFor(isOpen: bool): Overflow
  {
    if isOpen then Hidden else Auto
  }

  /** Whether the Escape handler closes the drawer on a key press. */
  predicate EscapeCloses(key: string, isOpen: bool)
  {
    key == "Escape" && isOpen
  }

  /** The drawer's open state (the header's `isMobileMenuOpen`) and the
      keydown handler the drawer's effect keeps registered on the document. */
  class Drawer {
    var isOpen: bool
    /** Whether `handleEscape` is currently registered. */
    var listening: bool

    /** After every render the effect has run: the handler is registered
        exactly while the drawer is open. */
    ghost predicate Valid()
      reads this
    {
      listening == isOpen
    }

    /** Mounting renders the closed drawer and runs the effect once. */
    constructor Mount(b: Browser)
      modifies b`bodyOverflow
      ensures Valid() && !isOpen
      ensures b.bodyOverflow == Auto
    {
      isOpen := false;
      listening := false;
      b.bodyOverflow := Auto;
    }

    /** Sets the open state, then runs the previous effect's cleanup and the
        new effect, as a render does. */
    method SetOpen(b: Browser, open: bool)
      modifies this, b`bodyOverflow
      ensures Valid() && isOpen == open
      ensures b.bodyOverflow == OverflowFor(open)
    {
      isOpen := open;
      // cleanup of the previous run
      listening := false;
      b.bodyOverflow := Auto;
      // the effect for the new state
      if isOpen {
        b.bodyOverflow := Hidden;
        listening := true;
      } else {
        b.bodyOverflow := Auto;
      }
    }

    /** A keydown on the document: only a registered handler sees it, and it
        closes the drawer on Escape only while the drawer is open. */
    method KeyDown(b: Browser, key: string)
      requires Valid()
      modifies this, b`bodyOverflow
      ensures Valid()
      ensures isOpen == (old(isOpen) && !EscapeCloses(key, old(isOpen)))
      ensures EscapeCloses(key, old(isOpen)) ==> b.bodyOverflow == Auto
      ensures !EscapeCloses(key, old(isOpen)) ==> b.bodyOverflow == old(b.bodyOverflow)
    {
      if listening && key == "Escape" && isOpen {
        SetOpen(b, false);
      }
    }

    /** The drawer's language button toggles the language and closes the drawer. */
    method LanguageButton(b: Browser)
      requires b.Valid()
      modifies this, b
      ensures Valid() && !isOpen && b.bodyOverflow == Auto
      ensures b.Valid() && b.language == Header.ToggledLanguage(old(b.language))
      ensures b.routerPath == old(b.routerPath)
      ensures var target := PushTarget(b.language, old(b.Pathname()));
              && (target.Some? ==> b.history == old(b.history) + [target.value])
              && (target.None? ==> b.history == old(b.history))
    {
      ToggleLanguage(b);
      SetOpen(b, false);
    }

    /** Unmounting runs the cleanup: the handler goes and scrolling is restored. */
    method Unmount(b: Browser)
      modifies this, b`bodyOverflow
      ensures !listening && b.bodyOverflow == Auto && isOpen == old(isOpen)
    {
      listening := false;
      b.bodyOverflow := Auto;
    }
  }
}
