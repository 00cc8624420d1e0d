/** The content tables: navigation links, skill groups, projects,
    experience and the reasons to hire, each chosen by a conditional on the
    display language. The list rendering pairs the two languages position by
    position, so the tables must have the same shape in both: same ids, same
    order, same list lengths. */
module Constants {
  import opened Query
  import opened LanguageContext

  datatype NavLink = NavLink(name: string, href: string)

  datatype SkillGroup = SkillGroup(category: string, skills: seq<string>)

  datatype Category = SaaS | ECommerce | BookingPlatform | ReferenceDB | Marketing

  datatype Status = Live | ProductionReady | Active

  /** `isMonetized` and `link` are optional fields of the record. */
  datatype Project = Project(
    id: string,
    title: string,
    category: Category,
    description: string,
    features: seq<string>,
    techStack: seq<string>,
    status: Status,
    isMonetized: Option<bool>,
    link: Option<string>)

  datatype Experience = Experience(
    id: string,
    role: string,
    company: string,
    period: string,
    description: seq<string>)

  /** `getNavLinks`: four in-page links whose labels come from `t`. */
  function GetNavLinks(t: string -> string): (links: seq<NavLink>)
    ensures |links| == 4
    ensures forall i :: 0 <= i < 4 ==> links[i].name == t(NavKeys()[i])
    ensures forall i :: 0 <= i < 4 ==> links[i].href == "#" + SectionIds()[i]
  {
    [ NavLink(t("nav.about"), "#about"),
      NavLink(t("nav.projects"), "#projects"),
      NavLink(t("nav.experience"), "#experience"),
      NavLink(t("nav.contact"), "#contact") ]
  }

  /** The translation keys of the four link labels. */
  function NavKeys(): seq<string> {
    ["nav.about", "nav.projects", "nav.experience", "nav.contact"]
  }

  /** The ids of the page sections the links point at, in page order. */
  function SectionIds(): seq<string> {
    ["about", "projects", "experience", "contact"]
  }

  /** `getSkills`: four groups; only the category title is translated. */
  function GetSkills(lang: Language): (r: seq<SkillGroup>)
    ensures |r| == 4
    ensures forall i :: 0 <= i < |r| ==> |r[i].skills| >= 2
  {
    [ SkillGroup(
        if lang == Pl then "AI Engineering & Automatyzacja" else "AI Engineering & Automation",
        ["OpenAI API", "Google Gemini", "Custom AI Agents", "RAG", "Prompt Engineering", "n8n", "Webhooks"]),
      SkillGroup(
        if lang == Pl then "Modern Frontend & UI/UX" else "Modern Frontend & UI/UX",
        ["React", "Next.js 14+", "TypeScript", "Tailwind CSS", "Framer Motion", "Figma"]),
      SkillGroup(
        if lang == Pl then "Backend, CMS & Dane" else "Backend, CMS & Data",
        ["Node.js", "PostgreSQL", "PayloadCMS", "Strapi", "Stripe Integration", "Serverless Functions"]),
      SkillGroup(
        if lang == Pl then "DevOps & Narzędzia" else "DevOps & Tools",
        ["Vercel", "Git & GitHub"]) ]
  }

  /** `getProjects`: six projects in a fixed order, the literal list of the
      source written as a list of positions. */
  function GetProjects(lang: Language): (ps: seq<Project>)
    ensures |ps| == 6
  {
    seq(6, i requires 0 <= i < 6 => ProjectAt(lang == Pl, i))
  }

  /** The entry at position `i` of the project list. */
  function ProjectAt(isPl: bool, i: nat): Project
    requires i < 6
  {
    if i == 0 then Deeplomai(isPl)
    else if i == 1 then WygodaSki(isPl)
    else if i == 2 then Gta5Hair(isPl)
    else if i == 3 then Anubis(isPl)
    else if i == 4 then HelenDoron(isPl)
    else ArkTested(isPl)
  }

  function Deeplomai(isPl: bool): (p: Project)
  {
    Project(
      id := "deeplomai",
      title := "Deeplomai",
      category := SaaS,
      description :=
        if isPl then
          ("Platforma AI wspierająca "
           + "pisanie prac dyplomowych. "
           + "Gotowy produkt SaaS z "
           + "regularnymi przychodami i "
           + "bazą użytkowników.")
        else
          ("AI-Powered academic writing "
           + "assistance platform "
           + "targeting Polish "
           + "universities. "
           + "Production-ready SaaS with "
           + "recurring revenue."),
      features :=
        if isPl then
          [
            ("Generowanie struktury prac z "
             + "Gemini"),
            ("Sugestie AI w czasie "
             + "rzeczywistym"),
            ("Automatyczne cytowania "
             + "(APA/MLA)"),
            "Płatności subskrypcyjne Stripe"
          ]
        else
          [
            ("Gemini content generation "
             + "for thesis structure"),
            ("Real-time AI suggestions & "
             + "style verification"),
            ("Automated citations "
             + "(APA/MLA) & DOI lookup"),
            ("Stripe subscription "
             + "monetization")
          ],
      techStack := [
        "Next.js",
        "TypeScript",
        "Google Gemini",
        "Stripe",
        "Vercel"
      ],
      status := Live,
      isMonetized := Some(true),
      link := Some("https://deeplomai.com/"))
  }

  function WygodaSki(isPl: bool): (p: Project)
  {
    Project(
      id := "wygoda-ski",
      title := "Wygoda.ski",
      category := ECommerce,
      description :=
        if isPl then
          ("Frontend platformy "
           + "rezerwacyjnej wyjazdów "
           + "narciarskich zintegrowany ze "
           + "Strapi CMS.")
        else
          ("Frontend for ski trip "
           + "booking platform integrated "
           + "with Strapi CMS."),
      features :=
        if isPl then
          [
            "Frontend w Next.js",
            "Integracja ze Strapi CMS",
            "Responsywny design",
            "Optymalizacja wydajności"
          ]
        else
          [
            "Next.js frontend",
            "Strapi CMS integration",
            "Responsive design",
            "Performance optimization"
          ],
      techStack := [
        "Next.js",
        "Strapi",
        "Performance Optimization"
      ],
      status := Live,
      isMonetized := None,
      link := Some("https://wygoda.ski"))
  }

  function Gta5Hair(isPl: bool): (p: Project)
  {
    Project(
      id := "gta5-hair",
      title := "GTA5 Hairstyles DB",
      category := ReferenceDB,
      description :=
        if isPl then
          ("Interaktywny katalog dla "
           + "społeczności graczy ze "
           + "zoptymalizowanym "
           + "wyszukiwaniem.")
        else
          ("Interactive catalog for the "
           + "gaming community with "
           + "optimized search and "
           + "filtering."),
      features :=
        if isPl then
          [
            "400+ fryzur w bazie",
            "Wyszukiwanie z MeiliSearch",
            "Filtrowanie i sortowanie",
            "Optymalizacja statyczna"
          ]
        else
          [
            ("400+ searchable hairstyle "
             + "entries"),
            "MeiliSearch integration",
            "Filterable search & sorting",
            ("Static content delivery "
             + "optimization")
          ],
      techStack := [
        "Next.js",
        "MeiliSearch",
        "Responsive Design"
      ],
      status := Live,
      isMonetized := None,
      link := Some("https://hairstyles-gta5.com"))
  }

  function Anubis(isPl: bool): (p: Project)
  {
    Project(
      id := "anubis",
      title := "Anubis Travel",
      category := BookingPlatform,
      description :=
        if isPl then
          ("Frontend strony biura "
           + "podróży z dynamicznym "
           + "wyświetlaniem ofert.")
        else
          ("Frontend for travel agency "
           + "website with dynamic tour "
           + "package displays."),
      features :=
        if isPl then
          [
            "Frontend w Next.js",
            "Integracja z API",
            "Nowoczesne UX",
            "Responsywny design"
          ]
        else
          [
            "Next.js frontend",
            "API integration",
            "Modern UX patterns",
            "Responsive design"
          ],
      techStack := [
        "Next.js",
        "Strapi",
        "Responsive Design"
      ],
      status := Live,
      isMonetized := None,
      link := Some("https://anubistravel.com/"))
  }

  function HelenDoron(isPl: bool): (p: Project)
  {
    Project(
      id := "helen-doron",
      title := "Helen Doron",
      category := Marketing,
      description :=
        if isPl then
          ("Strategia social media i "
           + "tworzenie treści wizualnych "
           + "dla oddziałów Grodzisk "
           + "Mazowiecki i Pruszków.")
        else
          ("Social media strategy and "
           + "visual content creation for "
           + "Grodzisk Mazowiecki & "
           + "Pruszkow branches."),
      features :=
        if isPl then
          [
            "Spójny branding wizualny",
            "Strategia social media",
            "Materiały promocyjne"
          ]
        else
          [
            "Cohesive visual branding",
            "Social media strategy",
            "Promotional material design"
          ],
      techStack := [
        "Adobe Suite",
        "Graphic Design"
      ],
      status := Active,
      isMonetized := None,
      link := None)
  }

  function ArkTested(isPl: bool): (p: Project)
  {
    Project(
      id := "ark-tested",
      title := "ARK Tested",
      category := ReferenceDB,
      description :=
        if isPl then
          ("Baza wiedzy o mechanikach "
           + "gier survivalowych z "
           + "kalkulatorami surowcowymi. "
           + "Projekt na zlecenie - "
           + "statyczna generacja z plików "
           + "Markdown bez CMS.")
        else
          ("Knowledge base for survival "
           + "game mechanics with resource "
           + "calculators. Client project "
           + "- static generation from "
           + "Markdown files without CMS."),
      features :=
        if isPl then
          [
            "Kalkulatory surowcowe",
            "Statyczna generacja z MD",
            ("Złożona architektura "
             + "informacji"),
            "Projekt na zlecenie"
          ]
        else
          [
            "Resource calculators",
            "Static generation from MD",
            ("Complex information "
             + "architecture"),
            "Client project"
          ],
      techStack := [
        "Gatsby",
        "React",
        "Markdown",
        "Static Generation"
      ],
      status := Live,
      isMonetized := None,
      link := Some("https://arktested.com"))
  }

  function Bluevendo(isPl: bool): (e: Experience)
    ensures e.id == "bluevendo" && |e.description| == 3
  {
    Experience(
      id := "bluevendo",
      role := "Full-Stack Developer",
      company := "Bluevendo",
      period := if isPl then "2022 - Obecnie" else "2022 - Present",
      description :=
        if isPl then
          [
            ("Rozwój dynamicznych "
             + "aplikacji webowych w "
             + "Next.js, w tym wygoda.ski, "
             + "Anubis Travel oraz "
             + "OnHolidays."),
            ("Implementacja integracji z "
             + "systemami CMS: PayloadCMS "
             + "oraz Strapi."),
            ("Optymalizacja wydajności i "
             + "doświadczenia użytkownika "
             + "dla platform rezerwacyjnych "
             + "i e-commerce.")
          ]
        else
          [
            ("Developing dynamic web "
             + "applications in Next.js, "
             + "including wygoda.ski, Anubis "
             + "Travel, and OnHolidays."),
            ("Implementing CMS "
             + "integrations with PayloadCMS "
             + "and Strapi."),
            ("Optimizing performance and "
             + "user experience for booking "
             + "platforms and e-commerce "
             + "solutions.")
          ])
  }

  function DeeplomaiRole(isPl: bool): (e: Experience)
    ensures e.id == "deeplomai" && |e.description| == 3
  {
    Experience(
      id := "deeplomai",
      role :=
        if isPl then "Założyciel & Full-Stack Developer"
        else "Founder & Full-Stack Developer",
      company := "Deeplomai",
      period := if isPl then "2024 - Obecnie" else "2024 - Present",
      description :=
        if isPl then
          [
            ("Budowa i monetyzacja "
             + "narzędzia SaaS opartego na "
             + "sztucznej inteligencji od "
             + "zera."),
            ("Specjalizacja w integracjach "
             + "płatności Stripe oraz "
             + "implementacji zaawansowanych "
             + "workflow AI."),
            ("Kompleksowe zarządzanie "
             + "produktem od koncepcji do "
             + "wdrożenia i utrzymania.")
          ]
        else
          [
            ("Building and monetizing an "
             + "AI-powered SaaS tool from "
             + "the ground up."),
            ("Specializing in Stripe "
             + "payment integrations and "
             + "advanced AI workflow "
             + "implementation."),
            ("End-to-end product "
             + "management from concept to "
             + "deployment and maintenance.")
          ])
  }

  function ChaosManagement(isPl: bool): (e: Experience)
    ensures e.id == "chaos-management" && |e.description| == 3
  {
    Experience(
      id := "chaos-management",
      role := "Web Developer",
      company := "Chaos Management Paweł Kozubal",
      period := "2021 - 2022",
      description :=
        if isPl then
          [
            ("Projektowanie i rozwój bloga "
             + "z informacjami oraz "
             + "poradnikami dla graczy."),
            ("Implementacja dedykowanych "
             + "narzędzi wspierających "
             + "społeczność graczy."),
            ("Zapewnienie responsywnego "
             + "interfejsu oraz optymalnej "
             + "funkcjonalności.")
          ]
        else
          [
            ("Designing and developing a "
             + "blog with gaming information "
             + "and player guides."),
            ("Implementing dedicated tools "
             + "to support the gaming "
             + "community."),
            ("Ensuring responsive "
             + "interface and optimal "
             + "functionality.")
          ])
  }

  function Freelance(isPl: bool): (e: Experience)
    ensures e.id == "freelance" && |e.description| == 3
  {
    Experience(
      id := "freelance",
      role := "Freelance Web Developer",
      company := "Freelance",
      period := if isPl then "2018 - Obecnie" else "2018 - Present",
      description :=
        if isPl then
          [
            ("Realizacja różnorodnych "
             + "projektów internetowych, w "
             + "tym platform e-commerce oraz "
             + "portfolio."),
            ("Dostarczanie nowoczesnych, "
             + "funkcjonalnych i "
             + "responsywnych rozwiązań "
             + "dostosowanych do "
             + "indywidualnych potrzeb "
             + "klientów."),
            ("Kompleksowa obsługa "
             + "projektów od koncepcji do "
             + "wdrożenia.")
          ]
        else
          [
            ("Delivering diverse web "
             + "projects, including "
             + "e-commerce platforms and "
             + "portfolios."),
            ("Providing modern, "
             + "functional, and responsive "
             + "solutions tailored to "
             + "individual client needs."),
            ("End-to-end project "
             + "management from concept to "
             + "deployment.")
          ])
  }

  /** `getExperience`: four positions in a fixed order, written as a list of
      positions like the project list. */
  function GetExperience(lang: Language): (es: seq<Experience>)
    ensures |es| == 4
  {
    seq(4, i requires 0 <= i < 4 => ExperienceAt(lang == Pl, i))
  }

  /** The entry at position `i` of the experience list. */
  function ExperienceAt(isPl: bool, i: nat): Experience
    requires i < 4
  {
    if i == 0 then Bluevendo(isPl)
    else if i == 1 then DeeplomaiRole(isPl)
    else if i == 2 then ChaosManagement(isPl)
    else Freelance(isPl)
  }

  /** `getWhyHire`: four reasons to hire. */
  function GetWhyHire(lang: Language): (r: seq<string>)
    ensures |r| == 4
    ensures forall i :: 0 <= i < |r| ==> r[i] != ""
  {
    if lang == Pl then
      [
        ("Strapi zamiast WordPress - "
         + "szybsze, bezpieczniejsze i "
         + "łatwiejsze w zarządzaniu"),
        ("Nowoczesne strony dostosowane "
         + "do Twoich potrzeb biznesowych"),
        ("Kompleksowa obsługa - od "
         + "projektu do wdrożenia i wsparcia"),
        ("Dostępny przez Useme - bezpieczna "
         + "współpraca na zlecenie")
      ]
    else
      [
        ("Strapi instead of WordPress - "
         + "faster, more secure, easier to manage"),
        ("Modern websites tailored to "
         + "your business needs"),
        ("Full service - from design to "
         + "deployment and support"),
        ("Available through Useme - "
         + "secure freelance collaboration")
      ]
  }

  /** A `link` counts only when it is present and non-empty, as JavaScript
      truthiness decides. */
  predicate HasLink(p: Project) {
    p.link.Some? && p.link.value != ""
  }

  /** An absent `isMonetized` is falsy. */
  predicate Monetized(p: Project) {
    p.isMonetized == Some(true)
  }

  /** Two entries of the project table agree on everything except the
      translated prose, and their feature lists have the same length. */
  predicate SameProjectShape(a: Project, b: Project) {
    && a.id == b.id && a.title == b.title && a.category == b.category
    && a.techStack == b.techStack && a.status == b.status
    && a.isMonetized == b.isMonetized && a.link == b.link
    && |a.features| == |b.features|
  }

  /** The ids of the project table, in order. */
  function ProjectIds(): seq<string> {
    ["deeplomai", "wygoda-ski", "gta5-hair", "anubis", "helen-doron", "ark-tested"]
  }

  /** The ids of the experience table, in order. */
  function ExperienceIds(): seq<string> {
    ["bluevendo", "deeplomai", "chaos-management", "freelance"]
  }

  /** The nav links point at the same sections whatever `t` does. */
  lemma NavLinksIgnoreLabels(t1: string -> string, t2: string -> string)
    ensures |GetNavLinks(t1)| == |GetNavLinks(t2)|
    ensures forall i :: 0 <= i < |GetNavLinks(t1)| ==> GetNavLinks(t1)[i].href == GetNavLinks(t2)[i].href
  {
  }

  /** Both languages have four skill groups with identical skill lists; only
      the category title differs. */
  lemma SkillsParity()
    ensures |GetSkills(En)| == 4 && |GetSkills(Pl)| == 4
    ensures forall i :: 0 <= i < 4 ==> GetSkills(En)[i].skills == GetSkills(Pl)[i].skills
  {
  }

  /** What each project contributes to the parity of the table: the same
      shape in both languages, the expected id, a link unless it is
      `helen-doron`, monetization only for `deeplomai`, and at least three
      features. */
  predicate ProjectParityAt(i: nat)
    requires i < 6
  {
    && SameProjectShape(ProjectAt(false, i), ProjectAt(true, i))
    && ProjectAt(false, i).id == ProjectIds()[i]
    && (HasLink(ProjectAt(false, i)) <==> ProjectIds()[i] != "helen-doron")
    && (Monetized(ProjectAt(false, i)) <==> ProjectIds()[i] == "deeplomai")
    && |ProjectAt(false, i).features| >= 3
  }

  /* One parity lemma per entry (`DeeplomaiParity` ... `ArkTestedParity`),
     gathered by `ProjectParityOf`. The table is one literal list; the
     per-entry lemmas only keep each proof about its literals small enough
     for the solver. */

  lemma DeeplomaiParity()
    ensures ProjectParityAt(0)
  {
    assert ProjectAt(false, 0) == Deeplomai(false) && ProjectAt(true, 0) == Deeplomai(true);
  }

  lemma WygodaSkiParity()
    ensures ProjectParityAt(1)
  {
    assert ProjectAt(false, 1) == WygodaSki(false) && ProjectAt(true, 1) == WygodaSki(true);
  }

  lemma Gta5HairParity()
    ensures ProjectParityAt(2)
  {
    assert ProjectAt(false, 2) == Gta5Hair(false) && ProjectAt(true, 2) == Gta5Hair(true);
  }

  lemma AnubisParity()
    ensures ProjectParityAt(3)
  {
    assert ProjectAt(false, 3) == Anubis(false) && ProjectAt(true, 3) == Anubis(true);
  }

  lemma HelenDoronParity()
    ensures ProjectParityAt(4)
  {
    assert ProjectAt(false, 4) == HelenDoron(false) && ProjectAt(true, 4) == HelenDoron(true);
  }

  lemma ArkTestedParity()
    ensures ProjectParityAt(5)
  {
    assert ProjectAt(false, 5) == ArkTested(false) && ProjectAt(true, 5) == ArkTested(true);
  }

  lemma ProjectParityOf(i: nat)
    requires i < 6
    ensures ProjectParityAt(i)
  {
    if i == 0 {
      DeeplomaiParity();
    } else if i == 1 {
      WygodaSkiParity();
    } else if i == 2 {
      Gta5HairParity();
    } else if i == 3 {
      AnubisParity();
    } else if i == 4 {
      HelenDoronParity();
    } else {
      ArkTestedParity();
    }
  }

  /** Both languages list the same six projects in the same order: same ids,
      titles, categories, tech stacks, statuses, links and monetization,
      and feature lists of the same length. */
  lemma ProjectsParity()
    ensures |GetProjects(En)| == 6 && |GetProjects(Pl)| == 6
    ensures forall i :: 0 <= i < 6 ==> SameProjectShape(GetProjects(En)[i], GetProjects(Pl)[i])
    ensures forall l, i :: 0 <= i < 6 ==> GetProjects(l)[i].id == ProjectIds()[i]
  {
    forall i | 0 <= i < 6
      ensures SameProjectShape(GetProjects(En)[i], GetProjects(Pl)[i])
      ensures GetProjects(En)[i].id == ProjectIds()[i]
    {
      ProjectParityOf(i);
    }
  }

  /** The project ids are distinct. */
  lemma ProjectIdsDistinct()
    ensures forall i, j :: 0 <= i < j < |ProjectIds()| ==> ProjectIds()[i] != ProjectIds()[j]
  {
  }

  /** `helen-doron` is the only project without a link and `deeplomai` the
      only monetized one, in both languages. */
  lemma LinkAndMonetization(l: Language)
    ensures forall i :: 0 <= i < 6 ==> (!HasLink(GetProjects(l)[i]) <==> GetProjects(l)[i].id == "helen-doron")
    ensures forall i :: 0 <= i < 6 ==> (Monetized(GetProjects(l)[i]) <==> GetProjects(l)[i].id == "deeplomai")
  {
    forall i | 0 <= i < 6
      ensures !HasLink(GetProjects(l)[i]) <==> GetProjects(l)[i].id == "helen-doron"
      ensures Monetized(GetProjects(l)[i]) <==> GetProjects(l)[i].id == "deeplomai"
    {
      ProjectParityOf(i);
    }
  }

  /** Both languages list the same four distinct positions in the same
      order, with three description bullets each. */
  lemma ExperienceParity()
    ensures forall l, i :: 0 <= i < 4 ==> GetExperience(l)[i].id == ExperienceIds()[i]
    ensures forall l, i :: 0 <= i < 4 ==> |GetExperience(l)[i].description| == 3
    ensures forall i, j :: 0 <= i < j < |ExperienceIds()| ==> ExperienceIds()[i] != ExperienceIds()[j]
  {
  }

  /** Both languages give four reasons to hire. */
  lemma WhyHireParity()
    ensures |GetWhyHire(En)| == 4 && |GetWhyHire(Pl)| == 4
  {
  }
}
