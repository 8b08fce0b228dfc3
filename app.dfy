/** The application shell (src/App.tsx): the document direction and `lang`
    attribute derived from the language, and the six-entry route table that
    serves every page under the Persian root and under the `/en` mirror. */
module App {
  import opened Text
  import opened Header

  datatype Dir = Rtl | Ltr

  /** The attributes the shell writes on `document.documentElement`. */
  datatype DocumentAttrs = DocumentAttrs(dir: Dir, lang: string)

  /** The logical page a path shows, independent of its locale prefix.
      `NoMatch` is a path no route matches: the layout renders with no page. */
  datatype Page = Home | Contact | ProjectDetail(projectKey: string) | NoMatch

  function DocumentAttributes(language: string): (r: DocumentAttrs)
  {
    DocumentAttrs(if language == "fa" then Rtl else Ltr, language)
  }

  /** A value for a `:projectKey` route parameter: one non-empty path segment. */
  predicate IsSegment(k: string)
  {
    k != "" && '/' !in k
  }

  /** The route table, one branch per locale for each page. */
  function Route(path: string): Page
  {
    if path == "/" || path == "/en" then Home
    else if path == "/contact" || path == "/en/contact" then Contact
    else if StartsWith(path, "/project/") && IsSegment(path[9..]) then ProjectDetail(path[9..])
    else if StartsWith(path, "/en/project/") && IsSegment(path[12..]) then ProjectDetail(path[12..])
    else NoMatch
  }

  /** The page's locale agrees with the language: an English page exactly
      when the language is English. */
  predicate Consistent(lang: string, path: string)
  {
    IsEnglishPage(path) <==> lang == "en"
  }

  /** Every toggle flips the text direction, whatever the language was. */
  lemma ToggleFlipsDirection(lang: string)
    ensures DocumentAttributes(ToggledLanguage(lang)).dir != DocumentAttributes(lang).dir
  {
  }

  /** The direction and the `lang` attribute always agree. */
  lemma DirectionMatchesLang(language: string)
    ensures var a := DocumentAttributes(language); a.dir == Rtl <==> a.lang == "fa"
  {
  }

  /** Each page is served under both locales, with the same project key. */
  lemma {:induction false} BothLocalesRoute(k: string)
    requires IsSegment(k)
    ensures Route("/") == Home && Route("/en") == Home
    ensures Route("/contact") == Contact && Route("/en/contact") == Contact
    ensures Route("/project/" + k) == ProjectDetail(k)
    ensures Route("/en/project/" + k) == ProjectDetail(k)
  {
    var p, q := "/project/" + k, "/en/project/" + k;
    assert p[..9] == "/project/" && p[9..] == k;
    assert q[..12] == "/en/project/" && q[12..] == k;
    assert p != "/" && p != "/en" && p != "/contact" && p != "/en/contact" by {
      assert |p| > 9 && p[1] == 'p';
    }
    assert q != "/" && q != "/en" && q != "/contact" && q != "/en/contact" by {
      assert |q| > 12;
    }
    assert !StartsWith(q, "/project/") by {
      assert q[1] == 'e';
    }
  }

  /** A routed Persian path is the root, the contact page or a project page. */
  lemma {:induction false} RoutedPersianPath(path: string)
    requires Route(path) != NoMatch && !IsEnglishPage(path)
    ensures path == "/" || path == "/contact" || (StartsWith(path, "/project/") && IsSegment(path[9..]))
  {
  }

  /** A routed English path is the mirror root, contact or a project page. */
  lemma {:induction false} RoutedEnglishPath(path: string)
    requires Route(path) != NoMatch && IsEnglishPage(path)
    ensures path == "/en" || path == "/en/contact" || (StartsWith(path, "/en/project/") && IsSegment(path[12..]))
  {
    assert |path| >= 3 && path[1] == 'e';
    assert path != "/contact" by {
      assert "/contact"[1] == 'c';
    }
    assert !StartsWith(path, "/project/") by {
      assert "/project/"[1] == 'p';
    }
  }

  /** Switching a routed Persian path to English shows the same page on an English path. */
  lemma {:induction false} MirrorToEnglish(path: string)
    requires Route(path) != NoMatch && !IsEnglishPage(path)
    ensures IsEnglishPage(ToggledPath(true, path))
    ensures Route(ToggledPath(true, path)) == Route(path)
  {
    RoutedPersianPath(path);
    ToEnglishIsEnglish(path);
    if path != "/" && path != "/contact" {
      var k := path[9..];
      assert path == "/project/" + k;
      assert ToggledPath(true, path) == "/en/project/" + k;
      BothLocalesRoute(k);
    }
  }

  /** Switching a routed English path to Persian shows the same page on a Persian path. */
  lemma {:induction false} MirrorToPersian(path: string)
    requires Route(path) != NoMatch && IsEnglishPage(path)
    ensures !IsEnglishPage(ToggledPath(false, path))
    ensures Route(ToggledPath(false, path)) == Route(path)
  {
    RoutedEnglishPath(path);
    if path == "/en/contact" {
      assert ToggledPath(false, path) == "/contact";
      assert "/contact"[1] == 'c';
    } else if path != "/en" {
      var k := path[12..];
      assert path == "/en/project/" + k;
      assert path[3..] == "/project/" + k;
      BothLocalesRoute(k);
      var r := ToggledPath(false, path);
      assert r == "/project/" + k;
      assert r[..3] == "/pr";
    }
  }

  /** A toggle on any routed page keeps the page and leaves the new path's
      locale agreeing with the new language, even when the router path was
      stale and disagreed with the old language. */
  lemma {:induction false} ToggleKeepsPage(lang: string, path: string)
    requires Route(path) != NoMatch
    ensures var newPath := ToggledPath(lang == "fa", path);
            Route(newPath) == Route(path) && Consistent(ToggledLanguage(lang), newPath)
  {
    if lang == "fa" {
      if !IsEnglishPage(path) {
        MirrorToEnglish(path);
      }
    } else if IsEnglishPage(path) {
      MirrorToPersian(path);
    }
  }

  /** After a header toggle on a routed page, the shell writes a left-to-right
      direction exactly when the page it navigated to is an English page. */
  lemma {:induction false} DirectionFollowsPage(lang: string, path: string)
    requires Route(path) != NoMatch
    ensures DocumentAttributes(ToggledLanguage(lang)).dir == Ltr <==>
              IsEnglishPage(ToggledPath(lang == "fa", path))
    ensures DocumentAttributes(ToggledLanguage(lang)).lang == ToggledLanguage(lang)
  {
    ToggleKeepsPage(lang, path);
  }

  /** The header's home and contact links lead to the home and contact pages
      in either locale, and a highlighted link names the page on screen. */
  lemma LinksResolve(isEnglishPage: bool, pathname: string)
    ensures Route(HomeLink(isEnglishPage)) == Home
    ensures Route(ContactLink(isEnglishPage)) == Contact
    ensures IsActive(pathname, HomeLink(isEnglishPage)) ==> Route(pathname) == Home
    ensures IsActive(pathname, ContactLink(isEnglishPage)) ==> Route(pathname) == Contact
  {
  }
}
