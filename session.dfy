/** The browser-side state that the layout components share: the language
    i18next holds, the session history, the location the router last rendered,
    and the `overflow` style of the document body. */
module Session {

  /** The inline `overflow` style of `document.body`; `Unset` before anything wrote it. */
  datatype Overflow = Unset | Hidden | Auto

  class Browser {
    /** `i18n.language`: any language tag, "fa" and "en" in practice. */
    var language: string
    /** The URL path of every session-history entry; the current entry is the last.
        Entries past the current one (the forward stack) are not modelled. */
    var history: seq<string>
    /** The pathname react-router last rendered (`useLocation()`). The router
        follows its own `navigate`, but not a raw `history.pushState`. */
    var routerPath: string
    var bodyOverflow: Overflow

    ghost predicate Valid()
      reads this
    {
      |history| > 0
    }

    /** `window.location.pathname`: the path of the current history entry. */
    function Pathname(): string
      reads this
      requires Valid()
    {
      history[|history| - 1]
    }

    constructor (lang: string, path: string)
      ensures Valid()
      ensures language == lang && history == [path] && routerPath == path
      ensures bodyOverflow == Unset
    {
      language := lang;
      history := [path];
      routerPath := path;
      bodyOverflow := Unset;
    }

    /** `i18n.changeLanguage(lang)`. */
    method ChangeLanguage(lang: string)
      modifies this`language
      ensures language == lang
    {
      language := lang;
    }

    /** react-router's `navigate(path, { replace })`: replaces the current entry
        or pushes a new one, and the router renders the new location. */
    method Navigate(path: string, replace: bool)
      requires Valid()
      modifies this`history, this`routerPath
      ensures Valid() && Pathname() == path && routerPath == path
      ensures replace ==> history == old(history)[..|old(history)| - 1] + [path]
      ensures !replace ==> history == old(history) + [path]
    {
      if replace {
        history := history[..|history| - 1] + [path];
      } else {
        history := history + [path];
      }
      routerPath := path;
    }

    /** `window.history.pushState(null, '', path)`: a new entry, which the
        router does not see. */
    method PushState(path: string)
      requires Valid()
      modifies this`history
      ensures Valid() && history == old(history) + [path]
    {
      history := history + [path];
    }
  }
}
