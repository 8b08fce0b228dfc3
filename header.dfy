/** The site header (src/components/layout/Header.tsx): the language toggle
    that rewrites the path between the Persian root and its `/en` mirror, and
    the locale-aware navigation link targets. */
module Header {
  import opened Text
  import opened Session

  /** The path prefix of the English mirror. */
  const EnPrefix: string := "/en"

  /** `isEnglishPage`: the raw prefix test, which also matches `/english`. */
  predicate IsEnglishPage(path: string)
  {
    StartsWith(path, EnPrefix)
  }

  /** The language a toggle switches to: English from Persian, Persian from anything else. */
  function ToggledLanguage(lang: string): string
  {
    if lang == "fa" then "en" else "fa"
  }

  /** The path a toggle navigates to, given whether it switches to English.
      Towards English the mirror prefix is prepended (the root becomes exactly
      the prefix); towards Persian one leading prefix is removed (an empty
      remainder becomes the root). A path already on the target side is kept. */
  function ToggledPath(switchingToEn: bool, path: string): string
  {
    if switchingToEn then
      if IsEnglishPage(path) then path else EnPrefix + (if path == "/" then "" else path)
    else
      if IsEnglishPage(path) then
        var rest := path[|EnPrefix|..];
        if rest == "" then "/" else rest
      else path
  }

  /** The home link: `/en` on an English page, `/` otherwise. */
  function HomeLink(isEnglishPage: bool): string
  {
    if isEnglishPage then EnPrefix else "/"
  }

  /** The contact link: `/en/contact` on an English page, `/contact` otherwise. */
  function ContactLink(isEnglishPage: bool): string
  {
    if isEnglishPage then "/en/contact" else "/contact"
  }

  /** The in-page anchor links, e.g. `/en#servicesSection` or `#servicesSection`. */
  function AnchorHref(isEnglishPage: bool, sectionId: string): string
  {
    (if isEnglishPage then EnPrefix else "") + "#" + sectionId
  }

  /** A navigation link is highlighted when the rendered path is exactly its target. */
  predicate IsActive(pathname: string, target: string)
  {
    pathname == target
  }

  /** The toggle flips between the two languages: the new language is English
      exactly when the old one was Persian, and two toggles restore the
      language exactly when it was one of the two. */
  lemma ToggledLanguageFlips(lang: string)
    ensures ToggledLanguage(lang) == "en" <==> lang == "fa"
    ensures ToggledLanguage(lang) == "fa" <==> lang != "fa"
    ensures ToggledLanguage(ToggledLanguage(lang)) == lang <==> lang == "fa" || lang == "en"
  {
  }

  /** Switching to English from the root gives exactly the prefix, never `/en/`. */
  lemma ToEnglishFromRoot()
    ensures ToggledPath(true, "/") == "/en"
  {
  }

  /** Switching to English prepends the prefix to any other path that does not
      already start with it, and keeps a path that does. */
  lemma ToEnglishPrepends(path: string)
    ensures IsEnglishPage(path) ==> ToggledPath(true, path) == path
    ensures !IsEnglishPage(path) && path != "/" ==> ToggledPath(true, path) == EnPrefix + path
  {
  }

  /** Switching to English always lands on an English page. */
  lemma {:induction false} ToEnglishIsEnglish(path: string)
    ensures IsEnglishPage(ToggledPath(true, path))
  {
    if !IsEnglishPage(path) {
      var r := ToggledPath(true, path);
      assert r[..|EnPrefix|] == EnPrefix;
    }
  }

  /** Switching to Persian removes exactly one leading prefix and never yields
      the empty path; a path without the prefix is kept. */
  lemma {:induction false} ToPersianStrips(path: string)
    ensures IsEnglishPage(path) && path != EnPrefix ==> EnPrefix + ToggledPath(false, path) == path
    ensures path == EnPrefix ==> ToggledPath(false, path) == "/"
    ensures !IsEnglishPage(path) ==> ToggledPath(false, path) == path
    ensures path != "" ==> ToggledPath(false, path) != ""
  {
    if IsEnglishPage(path) && path != EnPrefix {
      assert path == path[..|EnPrefix|] + path[|EnPrefix|..];
    }
  }

  /** Round trip: any absolute Persian path comes back unchanged after
      switching to English and back. */
  lemma {:induction false} RoundTripFromPersian(path: string)
    requires StartsWith(path, "/") && !IsEnglishPage(path)
    ensures ToggledPath(false, ToggledPath(true, path)) == path
  {
    var en := ToggledPath(true, path);
    ToEnglishIsEnglish(path);
    if path != "/" {
      assert en == EnPrefix + path;
      assert en[|EnPrefix|..] == path;
    }
  }

  /** The raw prefix test also treats `/english` as English, and switching it
      to Persian leaves a path without its leading slash. */
  lemma {:induction false} PrefixTestQuirk()
    ensures IsEnglishPage("/english")
    ensures ToggledPath(false, "/english") == "glish"
  {
    assert "/english"[..3] == "/en";
    assert "/english"[3..] == "glish";
  }

  /** On an English page every link keeps the English prefix and on any other
      page none does, so the links stay in the page's language. */
  lemma {:induction false} LinksKeepLocale(isEnglishPage: bool, sectionId: string)
    ensures IsEnglishPage(HomeLink(isEnglishPage)) == isEnglishPage
    ensures IsEnglishPage(ContactLink(isEnglishPage)) == isEnglishPage
    ensures StartsWith(AnchorHref(isEnglishPage, sectionId), "/en#") == isEnglishPage
  {
    var a := AnchorHref(isEnglishPage, sectionId);
    if isEnglishPage {
      assert a[..4] == "/en#";
      assert ContactLink(true)[..3] == "/en";
    } else {
      assert a[0] == '#';
      assert ContactLink(false)[..3] == "/co";
    }
  }

  /** The header's `toggleLanguage`: switches the language and replaces the
      current history entry with the rewritten path, so the history keeps its
      length and the router renders the new path. */
  method ToggleLanguage(b: Browser)
    requires b.Valid()
    modifies b
    ensures b.Valid()
    ensures b.language == ToggledLanguage(old(b.language))
    ensures var newPath := ToggledPath(old(b.language) == "fa", old(b.routerPath));
            && b.history == old(b.history)[..|old(b.history)| - 1] + [newPath]
            && b.routerPath == newPath
    ensures |b.history| == |old(b.history)|
    ensures b.bodyOverflow == old(b.bodyOverflow)
  {
    var switchingToEn := b.language == "fa";
    var newLang := if switchingToEn then "en" else "fa";
    b.ChangeLanguage(newLang);
    var path := b.routerPath;
    var newPath := ToggledPath(switchingToEn, path);
    b.Navigate(newPath, true);
  }
}
