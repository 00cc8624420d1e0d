/** The language context: the two display languages, their translation
    tables, the resolver that reads the `lang` query parameter, the lookup
    `t`, and the provider whose `setLanguage` writes the choice back into the
    query string. */
module LanguageContext {
  import opened Strings
  import opened Query

  datatype Language = En | Pl

  /** The code a language has in URLs and in the source's string union. */
  function Code(l: Language): (s: string)
    ensures |s| == 2 && '&' !in s && '=' !in s && '/' !in s
  {
    match l
    case En => "en"
    case Pl => "pl"
  }

  /** Locale fallback shared by both resolvers: a browser language that,
      lower-cased, starts with `pl` gives Polish, anything else English. */
  function LocaleDefault(locale: string): (r: Language)
    ensures |locale| < 2 ==> r == En
  {
    if StartsWith(ToLower(locale), "pl") then Pl else En
  }

  /** `getLanguageFromQuery`: an exact `lang=pl` or `lang=en` (the first
      `lang` pair only) wins; otherwise the browser locale decides. */
  function ResolveQuery(search: string, locale: string): (r: Language)
    ensures r == LocaleDefault(locale) || Lookup(Parse(search), "lang") == Some(Code(r))
  {
    var langParam := Lookup(Parse(search), "lang");
    if langParam == Some("pl") then Pl
    else if langParam == Some("en") then En
    else LocaleDefault(locale)
  }

  /** Only the first two characters of the locale matter, compared without
      regard to case. */
  lemma LocaleDefaultRule(locale: string)
    ensures LocaleDefault(locale) == Pl <==>
      |locale| >= 2 && (locale[0] == 'p' || locale[0] == 'P') && (locale[1] == 'l' || locale[1] == 'L')
  {
    var lower := ToLower(locale);
    if |locale| >= 2 {
      assert lower[..2] == [LowerChar(locale[0]), LowerChar(locale[1])];
    }
  }

  /** A `lang` value naming a language wins whatever the locale. */
  lemma ExplicitLangWins(search: string, locale: string, l: Language)
    requires Lookup(Parse(search), "lang") == Some(Code(l))
    ensures ResolveQuery(search, locale) == l
  {
  }

  /** Any other `lang` value, or none, falls through to the locale. */
  lemma UnknownLangFallsThrough(search: string, locale: string)
    requires Lookup(Parse(search), "lang") != Some("en")
    requires Lookup(Parse(search), "lang") != Some("pl")
    ensures ResolveQuery(search, locale) == LocaleDefault(locale)
  {
  }

  lemma ParseOnePair(name: string, value: string)
    requires '&' !in name && '=' !in name && '&' !in value
    ensures Parse("?" + name + "=" + value) == [Pair(name, value)]
  {
    var q := [Pair(name, value)];
    ParseSerialize(q);
    assert Serialize(q) == name + "=" + value;
    assert "?" + name + "=" + value == "?" + Serialize(q);
  }

  /** A query holding only `lang=v` gives `v` to `get("lang")`. */
  lemma LangQuery(v: string)
    requires '&' !in v
    ensures Lookup(Parse("?lang=" + v), "lang") == Some(v)
  {
    ParseOnePair("lang", v);
    assert "?lang=" + v == "?" + "lang" + "=" + v;
  }

  /** The match is exact and case-sensitive: `lang=PL` is ignored and the
      locale decides. */
  lemma UpperCaseLangIgnored(locale: string)
    ensures ResolveQuery("?lang=PL", locale) == LocaleDefault(locale)
  {
    LangQuery("PL");
    assert "?lang=PL" == "?lang=" + "PL";
    UnknownLangFallsThrough("?lang=PL", locale);
  }

  /** An unsupported `lang=fr` is ignored and the locale decides. */
  lemma UnsupportedLangIgnored(locale: string)
    ensures ResolveQuery("?lang=fr", locale) == LocaleDefault(locale)
  {
    LangQuery("fr");
    assert "?lang=fr" == "?lang=" + "fr";
    UnknownLangFallsThrough("?lang=fr", locale);
  }

  /** An empty `lang=` is ignored and the locale decides. */
  lemma EmptyLangIgnored(locale: string)
    ensures ResolveQuery("?lang=", locale) == LocaleDefault(locale)
  {
    LangQuery("");
    assert "?lang=" == "?lang=" + "";
    UnknownLangFallsThrough("?lang=", locale);
  }

  /** Whatever follows the first `lang=v` piece, `get("lang")` gives `v`. */
  lemma FirstLangPiece(v: string, rest: string)
    requires '&' !in v
    ensures Lookup(Parse("?lang=" + v + "&" + rest), "lang") == Some(v)
  {
    var piece := "lang=" + v;
    var s := "?lang=" + v + "&" + rest;
    assert s[1..] == piece + "&" + rest;
    SplitAtFirstSep(piece, rest, '&');
    var pieces := Split(s[1..], '&');
    assert pieces[0] == piece;
    assert piece == "lang" + "=" + v;
    ParsePairOf("lang", v);
    assert Parse(s)[0] == Pair("lang", v);
  }

  /** Only the first `lang` pair is read, as `get` does: its value alone
      decides, whatever later pairs say (`lang=fr&lang=pl` is left to the
      locale). */
  lemma FirstLangPairCounts(v: string, rest: string, locale: string)
    requires '&' !in v
    ensures ResolveQuery("?lang=" + v + "&" + rest, locale) ==
      if v == "pl" then Pl else if v == "en" then En else LocaleDefault(locale)
  {
    FirstLangPiece(v, rest);
  }

  /** The query string `setLanguage(l)` navigates to. */
  function SearchAfterSet(search: string, l: Language): (r: string)
    ensures Lookup(Parse(r), "lang") == Some(Code(l))
  {
    var q := SetParam(Parse(search), "lang", Code(l));
    SetParamWellFormed(Parse(search), "lang", Code(l));
    ParseSerialize(q);
    "?" + Serialize(q)
  }

  /** After `setLanguage(l)` a reload resolves to `l`, whatever the old
      query and the locale. */
  lemma SetLanguageResolves(search: string, locale: string, l: Language)
    ensures ResolveQuery(SearchAfterSet(search, l), locale) == l
  {
    var q := SetParam(Parse(search), "lang", Code(l));
    SetParamWellFormed(Parse(search), "lang", Code(l));
    ParseSerialize(q);
    SetParamFacts(Parse(search), "lang", Code(l));
  }

  /** The new query holds exactly one `lang` pair, the other pairs keep
      their order, and setting the same language again changes nothing. */
  lemma SetLanguageQuery(search: string, l: Language)
    ensures var q := Parse(SearchAfterSet(search, l));
      CountName(q, "lang") == 1 && Remove(q, "lang") == Remove(Parse(search), "lang")
    ensures SearchAfterSet(SearchAfterSet(search, l), l) == SearchAfterSet(search, l)
  {
    var q := SetParam(Parse(search), "lang", Code(l));
    SetParamWellFormed(Parse(search), "lang", Code(l));
    ParseSerialize(q);
    SetParamFacts(Parse(search), "lang", Code(l));
    SetParamIdempotent(Parse(search), "lang", Code(l));
  }

  /** The key at position `i` of `translations.en` and `translations.pl`,
      in the order the source lists them. */
  function KeyAt(l: Language, i: nat): string
    requires i < 44
  {
    match l
    case En =>
      if i == 0 then "nav.about"
      else if i == 1 then "nav.projects"
      else if i == 2 then "nav.experience"
      else if i == 3 then "nav.contact"
      else if i == 4 then "hero.available"
      else if i == 5 then "hero.role"
      else if i == 6 then "hero.desc"
      else if i == 7 then "hero.viewWork"
      else if i == 8 then "hero.contactMe"
      else if i == 9 then "hero.whyHire"
      else if i == 10 then "skills.title"
      else if i == 11 then "projects.title"
      else if i == 12 then "projects.subtitle"
      else if i == 13 then "projects.visit"
      else if i == 14 then "projects.internal"
      else if i == 15 then "experience.title"
      else if i == 16 then "contact.title"
      else if i == 17 then "contact.desc"
      else if i == 18 then "contact.footer"
      else if i == 19 then "404.title"
      else if i == 20 then "404.message"
      else if i == 21 then "404.home"
      else if i == 22 then "404.back"
      else if i == 23 then "skills.tooltip.openai"
      else if i == 24 then "skills.tooltip.gemini"
      else if i == 25 then "skills.tooltip.customAgents"
      else if i == 26 then "skills.tooltip.rag"
      else if i == 27 then "skills.tooltip.promptEngineering"
      else if i == 28 then "skills.tooltip.n8n"
      else if i == 29 then "skills.tooltip.webhooks"
      else if i == 30 then "skills.tooltip.react"
      else if i == 31 then "skills.tooltip.nextjs"
      else if i == 32 then "skills.tooltip.typescript"
      else if i == 33 then "skills.tooltip.tailwind"
      else if i == 34 then "skills.tooltip.framerMotion"
      else if i == 35 then "skills.tooltip.figma"
      else if i == 36 then "skills.tooltip.nodejs"
      else if i == 37 then "skills.tooltip.postgresql"
      else if i == 38 then "skills.tooltip.payload"
      else if i == 39 then "skills.tooltip.strapi"
      else if i == 40 then "skills.tooltip.stripe"
      else if i == 41 then "skills.tooltip.serverless"
      else if i == 42 then "skills.tooltip.vercel"
      else "skills.tooltip.git"
    case Pl =>
      if i == 0 then "nav.about"
      else if i == 1 then "nav.projects"
      else if i == 2 then "nav.experience"
      else if i == 3 then "nav.contact"
      else if i == 4 then "hero.available"
      else if i == 5 then "hero.role"
      else if i == 6 then "hero.desc"
      else if i == 7 then "hero.viewWork"
      else if i == 8 then "hero.contactMe"
      else if i == 9 then "hero.whyHire"
      else if i == 10 then "skills.title"
      else if i == 11 then "projects.title"
      else if i == 12 then "projects.subtitle"
      else if i == 13 then "projects.visit"
      else if i == 14 then "projects.internal"
      else if i == 15 then "experience.title"
      else if i == 16 then "contact.title"
      else if i == 17 then "contact.desc"
      else if i == 18 then "contact.footer"
      else if i == 19 then "404.title"
      else if i == 20 then "404.message"
      else if i == 21 then "404.home"
      else if i == 22 then "404.back"
      else if i == 23 then "skills.tooltip.openai"
      else if i == 24 then "skills.tooltip.gemini"
      else if i == 25 then "skills.tooltip.customAgents"
      else if i == 26 then "skills.tooltip.rag"
      else if i == 27 then "skills.tooltip.promptEngineering"
      else if i == 28 then "skills.tooltip.n8n"
      else if i == 29 then "skills.tooltip.webhooks"
      else if i == 30 then "skills.tooltip.react"
      else if i == 31 then "skills.tooltip.nextjs"
      else if i == 32 then "skills.tooltip.typescript"
      else if i == 33 then "skills.tooltip.tailwind"
      else if i == 34 then "skills.tooltip.framerMotion"
      else if i == 35 then "skills.tooltip.figma"
      else if i == 36 then "skills.tooltip.nodejs"
      else if i == 37 then "skills.tooltip.postgresql"
      else if i == 38 then "skills.tooltip.payload"
      else if i == 39 then "skills.tooltip.strapi"
      else if i == 40 then "skills.tooltip.stripe"
      else if i == 41 then "skills.tooltip.serverless"
      else if i == 42 then "skills.tooltip.vercel"
      else "skills.tooltip.git"
  }

  /** Every key is namespaced: it holds a `.` (`nav.about`, `404.home`,
      `skills.tooltip.git`, ...). */
  lemma KeyDotted(l: Language, i: nat)
    requires i < 44
    ensures '.' in KeyAt(l, i)
  {
    if i < 11 {
      KeyDottedA(l, i);
    } else if i < 23 {
      KeyDottedB(l, i);
    } else if i < 34 {
      KeyDottedC(l, i);
    } else {
      KeyDottedD(l, i);
    }
  }

  /** The four slices of the tables, one proof each. The split has no
      counterpart in the tables themselves: it only keeps each proof about
      the literal keys small enough for the solver. */
  lemma KeyDottedA(l: Language, i: nat)
    requires 0 <= i < 11
    ensures '.' in KeyAt(l, i)
  {
  }

  lemma KeyDottedB(l: Language, i: nat)
    requires 11 <= i < 23
    ensures '.' in KeyAt(l, i)
  {
  }

  lemma KeyDottedC(l: Language, i: nat)
    requires 23 <= i < 34
    ensures '.' in KeyAt(l, i)
  {
  }

  lemma KeyDottedD(l: Language, i: nat)
    requires 34 <= i < 44
    ensures '.' in KeyAt(l, i)
  {
  }

  /** The keys of a table, in order. */
  function Keys(l: Language): (ks: seq<string>)
    ensures |ks| == 44
    ensures forall i :: 0 <= i < 44 ==> ks[i] == KeyAt(l, i)
  {
    seq(44, i requires 0 <= i < 44 => KeyAt(l, i))
  }

  /** Entries 0 to 3 of the tables: the `nav.*` labels. */
  function NavText(l: Language, i: nat): (r: string)
    requires i < 4
    ensures r != ""
  {
    match l
    case En =>
      if i == 0 then "About"
      else if i == 1 then "Projects"
      else if i == 2 then "Experience"
      else "Contact"
    case Pl =>
      if i == 0 then "O mnie"
      else if i == 1 then "Projekty"
      else if i == 2 then "Doświadczenie"
      else "Kontakt"
  }

  /* The text groups below are written per language (`...En`, `...Pl`) and,
     within a language, in slices of at most three entries (`...EnA`,
     `...EnB`, ...). The tables themselves are two flat object literals; the
     slices only keep each proof about the literal texts small enough for
     the solver. */

  /** Entries 4 to 9 of the tables: the `hero.*` texts. */
  function HeroText(l: Language, i: nat): (r: string)
    requires i < 6
    ensures r != ""
  {
    match l
    case En => HeroTextEn(i)
    case Pl => HeroTextPl(i)
  }

  function HeroTextEn(i: nat): (r: string)
    requires i < 6
    ensures r != ""
  {
    if i < 3 then HeroTextEnA(i)
    else HeroTextEnB(i - 3)
  }

  function HeroTextEnA(i: nat): (r: string)
    requires i < 3
    ensures r != ""
  {
    if i == 0 then "Available for new projects"
    else if i == 1 then "Web Developer & Website Creator"
    else ("I create modern, fast, and easy-to-manage websites. "
        + "Available for freelance projects through Useme. I "
        + "specialize in Strapi CMS - a powerful alternative to "
        + "WordPress that gives you more control and better "
        + "performance.")
  }

  function HeroTextEnB(i: nat): (r: string)
    requires i < 3
    ensures r != ""
  {
    if i == 0 then "View Work"
    else if i == 1 then "Contact Me"
    else "Why Hire Piotr?"
  }

  function HeroTextPl(i: nat): (r: string)
    requires i < 6
    ensures r != ""
  {
    if i < 3 then HeroTextPlA(i)
    else HeroTextPlB(i - 3)
  }

  function HeroTextPlA(i: nat): (r: string)
    requires i < 3
    ensures r != ""
  {
    if i == 0 then "Dostępny do nowych projektów"
    else if i == 1 then "Twórca Stron Internetowych"
    else ("Tworzę nowoczesne, szybkie i łatwe w zarządzaniu strony "
        + "internetowe. Dostępny do projektów na zlecenie przez Useme. "
        + "Specjalizuję się w Strapi CMS - potężnej alternatywie dla "
        + "WordPress, która daje większą kontrolę i lepszą wydajność.")
  }

  function HeroTextPlB(i: nat): (r: string)
    requires i < 3
    ensures r != ""
  {
    if i == 0 then "Zobacz Projekty"
    else if i == 1 then "Skontaktuj się"
    else "Dlaczego warto?"
  }

  /** Entries 10 to 18 of the tables: the section headings: `skills.title`, `projects.*`, `experience.title`, `contact.*`. */
  function SectionText(l: Language, i: nat): (r: string)
    requires i < 9
    ensures r != ""
  {
    match l
    case En => SectionTextEn(i)
    case Pl => SectionTextPl(i)
  }

  function SectionTextEn(i: nat): (r: string)
    requires i < 9
    ensures r != ""
  {
    if i < 3 then SectionTextEnA(i)
    else if i < 6 then SectionTextEnB(i - 3)
    else SectionTextEnC(i - 6)
  }

  function SectionTextEnA(i: nat): (r: string)
    requires i < 3
    ensures r != ""
  {
    if i == 0 then "Technical Arsenal"
    else if i == 1 then "Selected Work"
    else ("A collection of SaaS products, e-commerce platforms, and "
        + "specialized databases built for clients and self-founded "
        + "ventures.")
  }

  function SectionTextEnB(i: nat): (r: string)
    requires i < 3
    ensures r != ""
  {
    if i == 0 then "Visit Live Site"
    else if i == 1 then "Internal / Client Access"
    else "Professional Journey"
  }

  function SectionTextEnC(i: nat): (r: string)
    requires i < 3
    ensures r != ""
  {
    if i == 0 then "Let's Build Something Great"
    else if i == 1 then ("I'm currently available for freelance projects and "
        + "full-time opportunities. Specializing in React, Next.js, "
        + "and high-performance SaaS architecture.")
    else "Based in Poland."
  }

  function SectionTextPl(i: nat): (r: string)
    requires i < 9
    ensures r != ""
  {
    if i < 3 then SectionTextPlA(i)
    else if i < 6 then SectionTextPlB(i - 3)
    else SectionTextPlC(i - 6)
  }

  function SectionTextPlA(i: nat): (r: string)
    requires i < 3
    ensures r != ""
  {
    if i == 0 then "Technologie"
    else if i == 1 then "Wybrane Projekty"
    else ("Kolekcja produktów SaaS, platform e-commerce i dedykowanych "
        + "baz danych stworzonych dla klientów oraz jako własne "
        + "przedsięwzięcia.")
  }

  function SectionTextPlB(i: nat): (r: string)
    requires i < 3
    ensures r != ""
  {
    if i == 0 then "Zobacz online"
    else if i == 1 then "Dostęp wewnętrzny / Klienta"
    else "Doświadczenie"
  }

  function SectionTextPlC(i: nat): (r: string)
    requires i < 3
    ensures r != ""
  {
    if i == 0 then "Stwórzmy coś wyjątkowego"
    else if i == 1 then ("Jestem dostępny do projektów freelance oraz stałej "
        + "współpracy. Specjalizuję się w React, Next.js i wydajnej "
        + "architekturze SaaS.")
    else "Polska."
  }

  /** Entries 19 to 22 of the tables: the `404.*` texts. */
  function NotFoundText(l: Language, i: nat): (r: string)
    requires i < 4
    ensures r != ""
  {
    match l
    case En => NotFoundTextEn(i)
    case Pl => NotFoundTextPl(i)
  }

  function NotFoundTextEn(i: nat): (r: string)
    requires i < 4
    ensures r != ""
  {
      if i == 0 then "Page Not Found"
      else if i == 1 then ("It looks like the page you're looking for doesn't exist or "
          + "has been moved.")
      else if i == 2 then "Back to Home"
      else "Go Back"
  }

  function NotFoundTextPl(i: nat): (r: string)
    requires i < 4
    ensures r != ""
  {
      if i == 0 then "Strona nie znaleziona"
      else if i == 1 then ("Wygląda na to, że strona, której szukasz, nie istnieje lub "
          + "została przeniesiona.")
      else if i == 2 then "Powrót do strony głównej"
      else "Wstecz"
  }

  /** Entries 23 to 29 of the tables: the tooltips of the AI and automation skills. */
  function AiTooltipText(l: Language, i: nat): (r: string)
    requires i < 7
    ensures r != ""
  {
    match l
    case En => AiTooltipTextEn(i)
    case Pl => AiTooltipTextPl(i)
  }

  function AiTooltipTextEn(i: nat): (r: string)
    requires i < 7
    ensures r != ""
  {
    if i < 3 then AiTooltipTextEnA(i)
    else if i < 5 then AiTooltipTextEnB(i - 3)
    else AiTooltipTextEnC(i - 5)
  }

  function AiTooltipTextEnA(i: nat): (r: string)
    requires i < 3
    ensures r != ""
  {
    if i == 0 then ("Advanced AI models for text generation, analysis, and "
        + "automation")
    else if i == 1 then "Multimodal AI model for content generation and analysis"
    else "Automated workflows and intelligent task processing"
  }

  function AiTooltipTextEnB(i: nat): (r: string)
    requires i < 2
    ensures r != ""
  {
    if i == 0 then "AI systems that use external knowledge sources"
    else "Optimizing AI inputs for better outputs"
  }

  function AiTooltipTextEnC(i: nat): (r: string)
    requires i < 2
    ensures r != ""
  {
    if i == 0 then ("Workflow automation platform for connecting services and "
        + "APIs")
    else "Real-time event notifications between applications"
  }

  function AiTooltipTextPl(i: nat): (r: string)
    requires i < 7
    ensures r != ""
  {
    if i < 3 then AiTooltipTextPlA(i)
    else if i < 5 then AiTooltipTextPlB(i - 3)
    else AiTooltipTextPlC(i - 5)
  }

  function AiTooltipTextPlA(i: nat): (r: string)
    requires i < 3
    ensures r != ""
  {
    if i == 0 then ("Zaawansowane modele AI do generowania tekstu, analizy i "
        + "automatyzacji")
    else if i == 1 then "Wielomodalny model AI do generowania treści i analizy"
    else "Zautomatyzowane workflow i inteligentne przetwarzanie zadań"
  }

  function AiTooltipTextPlB(i: nat): (r: string)
    requires i < 2
    ensures r != ""
  {
    if i == 0 then "Systemy AI wykorzystujące zewnętrzne źródła wiedzy"
    else "Optymalizacja wejść AI dla lepszych wyników"
  }

  function AiTooltipTextPlC(i: nat): (r: string)
    requires i < 2
    ensures r != ""
  {
    if i == 0 then "Platforma automatyzacji workflow do łączenia serwisów i API"
    else ("Powiadomienia o zdarzeniach w czasie rzeczywistym między "
        + "aplikacjami")
  }

  /** Entries 30 to 35 of the tables: the tooltips of the frontend skills. */
  function FrontendTooltipText(l: Language, i: nat): (r: string)
    requires i < 6
    ensures r != ""
  {
    match l
    case En => FrontendTooltipTextEn(i)
    case Pl => FrontendTooltipTextPl(i)
  }

  function FrontendTooltipTextEn(i: nat): (r: string)
    requires i < 6
    ensures r != ""
  {
    if i < 3 then FrontendTooltipTextEnA(i)
    else FrontendTooltipTextEnB(i - 3)
  }

  function FrontendTooltipTextEnA(i: nat): (r: string)
    requires i < 3
    ensures r != ""
  {
    if i == 0 then "JavaScript library for building user interfaces"
    else if i == 1 then "React framework with server-side rendering and routing"
    else "Typed JavaScript for safer and more maintainable code"
  }

  function FrontendTooltipTextEnB(i: nat): (r: string)
    requires i < 3
    ensures r != ""
  {
    if i == 0 then "Utility-first CSS framework for rapid UI development"
    else if i == 1 then "Animation library for React components"
    else "Design tool for creating and prototyping user interfaces"
  }

  function FrontendTooltipTextPl(i: nat): (r: string)
    requires i < 6
    ensures r != ""
  {
    if i < 3 then FrontendTooltipTextPlA(i)
    else FrontendTooltipTextPlB(i - 3)
  }

  function FrontendTooltipTextPlA(i: nat): (r: string)
    requires i < 3
    ensures r != ""
  {
    if i == 0 then "Biblioteka JavaScript do budowania interfejsów użytkownika"
    else if i == 1 then ("Framework React z renderowaniem po stronie serwera i "
        + "routingiem")
    else ("Typowany JavaScript dla bezpieczniejszego i łatwiejszego w "
        + "utrzymaniu kodu")
  }

  function FrontendTooltipTextPlB(i: nat): (r: string)
    requires i < 3
    ensures r != ""
  {
    if i == 0 then ("Framework CSS oparty na utility classes do szybkiego "
        + "rozwoju UI")
    else if i == 1 then "Biblioteka animacji dla komponentów React"
    else "Narzędzie do projektowania interfejsów użytkownika"
  }

  /** Entries 36 to 41 of the tables: the tooltips of the backend and CMS skills. */
  function BackendTooltipText(l: Language, i: nat): (r: string)
    requires i < 6
    ensures r != ""
  {
    match l
    case En => BackendTooltipTextEn(i)
    case Pl => BackendTooltipTextPl(i)
  }

  function BackendTooltipTextEn(i: nat): (r: string)
    requires i < 6
    ensures r != ""
  {
    if i < 3 then BackendTooltipTextEnA(i)
    else BackendTooltipTextEnB(i - 3)
  }

  function BackendTooltipTextEnA(i: nat): (r: string)
    requires i < 3
    ensures r != ""
  {
    if i == 0 then "JavaScript runtime for building server-side applications"
    else if i == 1 then "Powerful open-source relational database"
    else "Headless CMS built with TypeScript and React"
  }

  function BackendTooltipTextEnB(i: nat): (r: string)
    requires i < 3
    ensures r != ""
  {
    if i == 0 then "Open-source headless CMS for managing content"
    else if i == 1 then "Payment processing for e-commerce and subscriptions"
    else "Cloud functions that scale automatically"
  }

  function BackendTooltipTextPl(i: nat): (r: string)
    requires i < 6
    ensures r != ""
  {
    if i < 3 then BackendTooltipTextPlA(i)
    else BackendTooltipTextPlB(i - 3)
  }

  function BackendTooltipTextPlA(i: nat): (r: string)
    requires i < 3
    ensures r != ""
  {
    if i == 0 then ("Środowisko uruchomieniowe JavaScript do budowania aplikacji "
        + "serwerowych")
    else if i == 1 then "Potężna relacyjna baza danych open-source"
    else "Headless CMS zbudowany w TypeScript i React"
  }

  function BackendTooltipTextPlB(i: nat): (r: string)
    requires i < 3
    ensures r != ""
  {
    if i == 0 then "Headless CMS open-source do zarządzania treścią"
    else if i == 1 then "Przetwarzanie płatności dla e-commerce i subskrypcji"
    else "Funkcje w chmurze skalujące się automatycznie"
  }

  /** Entries 42 to 43 of the tables: the tooltips of the DevOps skills. */
  function DevOpsTooltipText(l: Language, i: nat): (r: string)
    requires i < 2
    ensures r != ""
  {
    match l
    case En =>
      if i == 0 then "Platform for deploying and hosting web applications"
      else "Version control and collaboration platform"
    case Pl =>
      if i == 0 then "Platforma do wdrażania i hostowania aplikacji webowych"
      else "System kontroli wersji i platforma współpracy"
  }

  /** The text stored at position `i` of the table for `l` (long texts
      are written as concatenations of shorter literals). */
  function Text(l: Language, i: nat): (r: string)
    requires i < 44
    ensures r != ""
  {
    if i < 4 then NavText(l, i)
    else if i < 10 then HeroText(l, i - 4)
    else if i < 19 then SectionText(l, i - 10)
    else if i < 23 then NotFoundText(l, i - 19)
    else if i < 30 then AiTooltipText(l, i - 23)
    else if i < 36 then FrontendTooltipText(l, i - 30)
    else if i < 42 then BackendTooltipText(l, i - 36)
    else DevOpsTooltipText(l, i - 42)
  }

  /** Position of the first occurrence of `key` in `keys`, if any. */
  function IndexOf(keys: seq<string>, key: string): (r: Option<nat>)
    ensures r.None? <==> key !in keys
    ensures r.Some? ==> r.value < |keys| && keys[r.value] == key
    decreases |keys|
  {
    if |keys| == 0 then None
    else if keys[0] == key then Some(0)
    else
      match IndexOf(keys[1..], key)
      case None => None
      case Some(j) => Some(j + 1)
  }

  /** Both tables list the same 44 keys in the same order. */
  lemma TablesAgree()
    ensures Keys(En) == Keys(Pl)
    ensures |Keys(En)| == 44
  {
  }

  /** `t(key)`: `translations[language][key] || key`, so a missing key and
      an empty text would both give the key back. Since no text is empty,
      a known key gives its text and only an unknown key falls back. */
  function Translate(l: Language, key: string): (r: string)
    ensures key !in Keys(l) ==> r == key
    ensures key in Keys(l) ==> r == Text(l, IndexOf(Keys(l), key).value)
  {
    match IndexOf(Keys(l), key)
    case None => key
    case Some(i) =>
      var text := Text(l, i);
      if text != "" then text else key
  }

  lemma TranslateKnownKey()
    ensures Translate(En, "nav.about") == "About"
    ensures Translate(Pl, "nav.about") == "O mnie"
  {
    assert IndexOf(Keys(En), "nav.about") == Some(0);
    assert IndexOf(Keys(Pl), "nav.about") == Some(0);
  }

  /** A key without a namespace is in neither table, so it comes back
      unchanged. */
  lemma UndottedKeyUnchanged(l: Language, key: string)
    requires '.' !in key
    ensures key !in Keys(l)
    ensures Translate(l, key) == key
  {
    forall i | 0 <= i < 44
      ensures KeyAt(l, i) != key
    {
      KeyDotted(l, i);
    }
  }

  /** The names a plain object literal inherits from `Object.prototype`. */
  function InheritedNames(): set<string> {
    {"constructor", "hasOwnProperty", "isPrototypeOf", "propertyIsEnumerable",
     "toLocaleString", "toString", "valueOf", "__proto__",
     "__defineGetter__", "__defineSetter__", "__lookupGetter__", "__lookupSetter__"}
  }

  /** A JavaScript value `t` can return: a string, or an inherited function
      or object (always truthy), named by the property it came from. */
  datatype JsValue = Str(s: string) | Inherited(name: string)

  /** `t` as written: the property read `translations[language][key]` also
      finds the inherited members, which are truthy, so `|| key` does not
      replace them. */
  function TranslateAsWritten(l: Language, key: string): (r: JsValue)
    ensures key in Keys(l) ==> r == Str(Translate(l, key))
    ensures key !in Keys(l) && key !in InheritedNames() ==> r == Str(key)
    ensures key !in Keys(l) && key in InheritedNames() ==> r == Inherited(key)
  {
    match IndexOf(Keys(l), key)
    case Some(i) =>
      var text := Text(l, i);
      Str(if text != "" then text else key)
    case None =>
      if key in InheritedNames() then Inherited(key) else Str(key)
  }

  /** `t('constructor')` gives the `Object` constructor rather than the key,
      while the own-property lookup `Translate` echoes the key. */
  lemma InheritedNameNotEchoed(l: Language)
    ensures TranslateAsWritten(l, "constructor") == Inherited("constructor")
    ensures TranslateAsWritten(l, "constructor") != Str("constructor")
    ensures Translate(l, "constructor") == "constructor"
  {
    UndottedKeyUnchanged(l, "constructor");
  }

  /** The two lookups agree on every key except the inherited names. */
  lemma TranslationsAgreeOffPrototype(l: Language, key: string)
    requires key !in InheritedNames()
    ensures TranslateAsWritten(l, key) == Str(Translate(l, key))
  {
  }

  /** `LanguageProvider`: the `language` state plus the location it reads
      (`pathname` and `search`) and the browser locale. */
  class LanguageProvider {
    var language: Language
    var pathname: string
    var search: string
    const locale: string

    /** Language and location agree, as after the first render and after
        every run of the sync effect. */
    predicate Synced()
      reads this
    {
      language == ResolveQuery(search, locale)
    }

    /** The initial state is the resolver applied to the current search. */
    constructor (pathname: string, search: string, locale: string)
      ensures this.pathname == pathname && this.search == search && this.locale == locale
      ensures language == ResolveQuery(search, locale)
      ensures Synced()
    {
      this.pathname := pathname;
      this.search := search;
      this.locale := locale;
      language := ResolveQuery(search, locale);
    }

    /** `setLanguage`: set the state, then rewrite the query with `lang=<l>`
        and replace the location (same path). */
    method SetLanguage(l: Language)
      modifies this
      ensures language == l
      ensures pathname == old(pathname)
      ensures search == SearchAfterSet(old(search), l)
      ensures Synced()
    {
      var before := search;
      var params := new SearchParams(before);
      params.Set("lang", Code(l));
      var after := "?" + params.ToString();
      assert after == SearchAfterSet(before, l);
      SetLanguageResolves(before, locale, l);
      language := l;
      search := after;
    }

    /** The router moves to another location; the language state is not
        touched until the sync effect runs. */
    method Navigate(pathname: string, search: string)
      modifies this
      ensures this.pathname == pathname && this.search == search
      ensures language == old(language)
    {
      this.pathname := pathname;
      this.search := search;
    }

    /** The sync effect: re-resolve from the current search and store the
        result only when it differs. */
    method SyncEffect()
      modifies this
      ensures Synced()
      ensures pathname == old(pathname) && search == old(search)
      ensures old(Synced()) ==> language == old(language)
    {
      var currentLang := ResolveQuery(search, locale);
      if currentLang != language {
        language := currentLang;
      }
    }

    /** `t`, bound to the current language. */
    function T(key: string): string
      reads this
    {
      Translate(language, key)
    }
  }
}
