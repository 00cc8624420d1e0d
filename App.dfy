/** The router shell: the path-based language resolver, the target of the
    root redirect, and the handler that replays a path stored in session
    storage. This resolver reads the first path segment; the language
    context reads the `lang` query parameter. The two are kept apart here,
    as in the source, and can disagree. */
module App {
  import opened Strings
  import opened Query
  import opened LanguageContext

  /** `pathname.split('/')[1]`, which is `undefined` when there is no `/`. */
  function FirstSegment(pathname: string): (r: Option<string>)
    ensures r.Some? ==> '/' !in r.value
    ensures r.None? <==> '/' !in pathname
  {
    var parts := Split(pathname, '/');
    assert '/' !in pathname ==> parts == [pathname] by {
      if '/' !in pathname { SplitWithoutSep(pathname, '/'); }
    }
    assert '/' in pathname ==> |parts| > 1 by {
      JoinSplit(pathname, '/');
    }
    if |parts| > 1 then Some(parts[1]) else None
  }

  /** `getLanguageFromPath`: an exact first segment `en` or `pl` wins;
      otherwise the browser locale decides, as for the query resolver. */
  function ResolvePath(pathname: string, locale: string): (r: Language)
    ensures r == LocaleDefault(locale) || FirstSegment(pathname) == Some(Code(r))
  {
    var pathLang := FirstSegment(pathname);
    if pathLang == Some("en") then En
    else if pathLang == Some("pl") then Pl
    else LocaleDefault(locale)
  }

  /** Only the first segment counts: for a path `/<seg>` or `/<seg>/...`
      the result depends on `seg` and the locale alone. */
  lemma PathDependsOnFirstSegment(seg: string, tail: string, locale: string)
    requires '/' !in seg
    requires tail == [] || tail[0] == '/'
    ensures ResolvePath("/" + seg + tail, locale) ==
      if seg == "en" then En else if seg == "pl" then Pl else LocaleDefault(locale)
  {
    var p := "/" + seg + tail;
    assert p == [] + ['/'] + (seg + tail);
    SplitAtFirstSep([], seg + tail, '/');
    if tail == [] {
      SplitWithoutSep(seg, '/');
      assert seg + tail == seg;
    } else {
      assert seg + tail == seg + ['/'] + tail[1..];
      SplitAtFirstSep(seg, tail[1..], '/');
    }
  }

  /** `/pl` and `/pl/x` give Polish whatever the locale; `/x/pl` and `/`
      leave it to the locale. */
  lemma PathExamples(locale: string)
    ensures ResolvePath("/pl", locale) == Pl
    ensures ResolvePath("/pl/x", locale) == Pl
    ensures ResolvePath("/x/pl", locale) == LocaleDefault(locale)
    ensures ResolvePath("/", locale) == LocaleDefault(locale)
  {
    PathDependsOnFirstSegment("pl", "", locale);
    assert "/pl" == "/" + "pl" + "";
    PathDependsOnFirstSegment("pl", "/x", locale);
    assert "/pl/x" == "/" + "pl" + "/x";
    PathDependsOnFirstSegment("x", "/pl", locale);
    assert "/x/pl" == "/" + "x" + "/pl";
    PathDependsOnFirstSegment("", "", locale);
    assert "/" == "/" + "" + "";
  }

  /** The `Navigate` target of the root route. */
  function RootRedirectTarget(pathname: string, locale: string): (r: string)
    ensures FirstSegment(r) == Some(Code(ResolvePath(pathname, locale)))
  {
    var c := Code(ResolvePath(pathname, locale));
    assert "/" + c == [] + ['/'] + c;
    SplitAtFirstSep([], c, '/');
    SplitWithoutSep(c, '/');
    "/" + c
  }

  /** The root redirect is a fixed point: resolving its target gives the
      language it was built from. */
  lemma RootRedirectFixedPoint(pathname: string, locale: string)
    ensures ResolvePath(RootRedirectTarget(pathname, locale), locale) == ResolvePath(pathname, locale)
  {
    var l := ResolvePath(pathname, locale);
    PathDependsOnFirstSegment(Code(l), "", locale);
    assert RootRedirectTarget(pathname, locale) == "/" + Code(l) + "";
  }

  /** The two resolvers disagree on `/pl` without a query under an English
      locale: the path says Polish, the query resolver says English. */
  lemma SchemesCanDisagree()
    ensures ResolvePath("/pl", "en-US") == Pl
    ensures ResolveQuery("", "en-US") == En
  {
    PathExamples("en-US");
    LocaleDefaultRule("en-US");
    assert Parse("") == [];
  }

  /** The `sessionStorage` area, a keyed store changed in place. */
  class SessionStorage {
    var items: map<string, string>

    constructor (items: map<string, string>)
      ensures this.items == items
    {
      this.items := items;
    }

    function GetItem(key: string): (r: Option<string>)
      reads this
      ensures r.Some? <==> key in items
      ensures r.Some? ==> r.value == items[key]
    {
      if key in items then Some(items[key]) else None
    }

    method RemoveItem(key: string)
      modifies this
      ensures items == old(items) - {key}
    {
      items := items - {key};
    }
  }

  const RedirectKey := "redirectPath"

  /** What the effect of `RedirectHandler` does to the store and where it
      navigates: navigation happens exactly when a non-empty path is stored,
      goes to that path and removes it; an absent or empty entry leaves the
      store as it is, and no other entry ever changes. After the effect the
      store holds no replayable path, so a path is replayed at most once. */
  function ConsumeRedirect(items: map<string, string>): (r: (map<string, string>, Option<string>))
    ensures r.1.Some? <==> RedirectKey in items && items[RedirectKey] != ""
    ensures r.1.Some? ==> r.1.value == items[RedirectKey] && RedirectKey !in r.0
    ensures r.1.Some? ==> r.0.Keys == items.Keys - {RedirectKey}
    ensures r.1.None? ==> r.0 == items
    ensures forall k :: k in items && k != RedirectKey ==> k in r.0 && r.0[k] == items[k]
    ensures RedirectKey in r.0 ==> r.0[RedirectKey] == ""
  {
    if RedirectKey in items && items[RedirectKey] != "" then
      (items - {RedirectKey}, Some(items[RedirectKey]))
    else
      (items, None)
  }

  /** The effect of `RedirectHandler`: read the entry, and when it holds a
      non-empty path remove it before navigating there. */
  method RedirectHandler(storage: SessionStorage) returns (target: Option<string>)
    modifies storage
    ensures (storage.items, target) == ConsumeRedirect(old(storage.items))
  {
    var redirectPath := storage.GetItem(RedirectKey);
    if redirectPath.Some? && redirectPath.value != "" {
      storage.RemoveItem(RedirectKey);
      target := Some(redirectPath.value);
    } else {
      target := None;
    }
  }
}
