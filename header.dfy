/** The page header of the web client: the avatar initials of the signed-in user, the
    search box with its result overlay, the language buttons and the profile menu.

    The search handler is one atomic method whose awaited `/api/schemes/search` answer
    is an input (`None` when the call fails). Logging out and choosing a search result
    call into the root component, modelled by `App.AppShell`. */
module Header {
  import opened Wrappers
  import opened Text
  import opened SchemeData
  import opened Schemes
  import opened Auth
  import App
  import LanguageContext
  import SchemeDetails

  // ---------------------------------------------------------------------------------
  // Avatar initials
  // ---------------------------------------------------------------------------------

  /** The non-empty pieces of a name. */
  function Words(parts: seq<string>): (words: seq<string>)
    ensures forall w :: w in words ==> w != [] && w in parts
    ensures |words| <= |parts|
    decreases |parts|
  {
    if parts == [] then []
    else if parts[0] == "" then Words(parts[1..])
    else [parts[0]] + Words(parts[1..])
  }

  lemma {:induction false} WordsOfWords(parts: seq<string>)
    requires forall p :: p in parts ==> p != ""
    ensures Words(parts) == parts
    decreases |parts|
  {
    if parts != [] {
      assert parts[0] in parts;
      assert forall p :: p in parts[1..] ==> p in parts;
      WordsOfWords(parts[1..]);
    }
  }

  /** `str[0]`: `undefined` for an empty string. */
  function CharAt0(s: string): Option<char> {
    if s == [] then None else Some(s[0])
  }

  /** `a + b` for two values that are each a one-character string or `undefined`:
      `undefined` converts to the text "undefined" next to a string, and two
      `undefined`s add up to the number `NaN`. */
  function PlusAsWritten(a: Option<char>, b: Option<char>): string {
    match (a, b)
    case (Some(x), Some(y)) => [x, y]
    case (Some(x), None) => [x] + "undefined"
    case (None, Some(y)) => "undefined" + [y]
    case (None, None) => "NaN"
  }

  /** `getUserInitials` as written: "U" without a name; with two or more pieces the
      first characters of the first two pieces; otherwise the first two characters. */
  function InitialsAsWritten(name: Option<string>): (r: string)
    ensures name.None? || name == Some("") ==> r == "U"
  {
    if name.None? || name.value == "" then "U"
    else
      var names := SplitSpace(name.value);
      if |names| >= 2 then PlusAsWritten(CharAt0(names[0]), CharAt0(names[1]))
      else Take(name.value, 2)
  }

  /** The evidently intended initials: empty pieces (from leading, trailing or doubled
      spaces) are skipped, and a name of spaces only counts as no name. */
  function Initials(name: Option<string>): (r: string)
    ensures 1 <= |r| <= 2
    ensures name.Some? ==> forall c :: c in r ==> c != ' ' && (c in name.value || r == "U")
    ensures name.None? || name == Some("") ==> r == "U"
  {
    if name.None? || name.value == "" then "U"
    else
      var words := Words(SplitSpace(name.value));
      if |words| >= 2 then
        assert words[0] in SplitSpace(name.value) && words[0][0] in words[0];
        assert words[1] in SplitSpace(name.value) && words[1][0] in words[1];
        [words[0][0], words[1][0]]
      else if |words| == 1 then
        assert words[0] in SplitSpace(name.value);
        assert forall c :: c in Take(words[0], 2) ==> c in words[0];
        Take(words[0], 2)
      else "U"
  }

  /** On a name whose pieces are all non-empty (no leading, trailing or doubled
      space) the code as written already gives the intended initials. */
  lemma InitialsAgree(name: string)
    requires forall p :: p in SplitSpace(name) ==> p != ""
    ensures InitialsAsWritten(Some(name)) == Initials(Some(name))
  {
    if name != "" {
      var names := SplitSpace(name);
      WordsOfWords(names);
      if |names| < 2 {
        SplitJoin(name);
      }
    }
  }

  /** A trailing space turns the second initial into the text "undefined". */
  lemma TrailingSpaceInitials()
    ensures InitialsAsWritten(Some("Ravi ")) == "Rundefined"
    ensures Initials(Some("Ravi ")) == "Ra"
  {
    TrailingSpaceAsWritten();
    TrailingSpaceIntended();
  }

  lemma TrailingSpaceAsWritten()
    ensures InitialsAsWritten(Some("Ravi ")) == "Rundefined"
  {
    RaviSpaceSplits();
    var names := SplitSpace("Ravi ");
    assert CharAt0(names[0]) == Some('R') && CharAt0(names[1]) == None;
    assert PlusAsWritten(Some('R'), None) == "Rundefined";
  }

  lemma TrailingSpaceIntended()
    ensures Initials(Some("Ravi ")) == "Ra"
  {
    RaviSpaceSplits();
    var names := SplitSpace("Ravi ");
    assert Words(names) == ["Ravi"] by {
      assert Words([""]) == [];
      assert names[1..] == [""];
    }
    assert Take("Ravi", 2) == "Ra";
  }

  lemma RaviSpaceSplits()
    ensures SplitSpace("Ravi ") == ["Ravi", ""]
  {
    SplitTrailingSpace("Ravi");
    assert "Ravi" + " " == "Ravi ";
  }

  /** A name of spaces only is shown as "NaN". */
  lemma BlankNameInitials()
    ensures InitialsAsWritten(Some(" ")) == "NaN"
    ensures Initials(Some(" ")) == "U"
  {
    assert SplitSpace("") == [""];
    assert SplitSpace(" ") == ["", ""];
    assert Words(["", ""]) == [] by {
      assert Words([""]) == [];
      assert ["", ""][1..] == [""];
    }
  }

  // ---------------------------------------------------------------------------------
  // Search overlay and profile menu
  // ---------------------------------------------------------------------------------

  /** A snapshot of the header's own state. */
  datatype Bar = Bar(
    searchQuery: string,
    isSearching: bool,
    results: seq<SchemeBasic>,
    showResults: bool,
    showProfileMenu: bool)

  const Initial := Bar("", false, [], false, false)

  /** `handleSearch`: a query that trims to nothing sends no request; otherwise the
      answer replaces the results and shows the overlay, a failure keeps both, and
      `isSearching` ends false. */
  function Searched(b: Bar, answer: Option<SearchResponse>): Bar {
    if Strip(b.searchQuery) == "" then b
    else match answer
      case Some(response) => b.(results := response.schemes, showResults := true, isSearching := false)
      case None => b.(isSearching := false)
  }

  /** The overlay heading's count, and whether the overlay shows its empty state. */
  function Count(b: Bar): nat {
    |b.results|
  }

  predicate ShowsEmptyState(b: Bar) {
    Count(b) == 0
  }

  /** A successful search of a table shows exactly the schemes the endpoint returned,
      and its count is the endpoint's `count`; the empty state shows exactly when no
      scheme matched. */
  lemma SearchShowsBackendAnswer(b: Bar, table: seq<Scheme>, language: string)
    requires Strip(b.searchQuery) != ""
    requires SearchSchemes(table, b.searchQuery, Some(language), None).Ok?
    ensures var response := SearchSchemes(table, b.searchQuery, Some(language), None).value;
      var after := Searched(b, Some(response));
      after.results == response.schemes && after.showResults && !after.isSearching
      && Count(after) == response.count
      && (ShowsEmptyState(after) <==> response.schemes == [])
  {
  }

  /** The header sends one-letter queries, which the endpoint refuses; the overlay then
      keeps its previous state. */
  lemma OneLetterQueryRefused(b: Bar, table: seq<Scheme>)
    requires b.searchQuery == "a"
    ensures Strip(b.searchQuery) != ""
    ensures SearchSchemes(table, b.searchQuery, Some("en"), None).Err?
    ensures Searched(b, None) == b.(isSearching := false)
  {
    assert "a"[0] == 'a';
  }

  /** A blank query changes nothing. */
  lemma BlankQueryIgnored(b: Bar, answer: Option<SearchResponse>)
    requires forall i :: 0 <= i < |b.searchQuery| ==> IsSpace(b.searchQuery[i])
    ensures Searched(b, answer) == b
  {
    StripAllSpace(b.searchQuery);
  }

  /** The name a search result shows (`Select` on its name columns) for a stored row is
      the name the details panel shows once that row is loaded. */
  lemma ResultNameMatchesDetails(row: Scheme, language: string)
    ensures Select(Basic(row).name, language) == SchemeDetails.Pick(Some(row), SchemeDetails.NameOf, language)
    ensures Select(Basic(row).name, language) == Select(row.name, language)
  {
  }

  class HeaderBar {
    var searchQuery: string
    var isSearching: bool
    var results: seq<SchemeBasic>
    var showResults: bool
    var showProfileMenu: bool

    function State(): Bar
      reads this
    {
      Bar(searchQuery, isSearching, results, showResults, showProfileMenu)
    }

    constructor ()
      ensures State() == Initial
    {
      searchQuery, isSearching, results, showResults, showProfileMenu := "", false, [], false, false;
    }

    method SetSearchQuery(query: string)
      modifies this
      ensures State() == old(State()).(searchQuery := query)
    {
      searchQuery := query;
    }

    /** `handleSearch`; `request` is the query and language sent, if any. */
    method HandleSearch(answer: Option<SearchResponse>, language: string)
      returns (request: Option<(string, string)>)
      modifies this
      ensures State() == Searched(old(State()), answer)
      ensures request.Some? <==> Strip(old(searchQuery)) != ""
      ensures request.Some? ==> request.value == (old(searchQuery), language)
    {
      request := None;
      if Strip(searchQuery) != "" {
        isSearching := true;
        request := Some((searchQuery, language));
        if answer.Some? {
          results := answer.value.schemes;
          showResults := true;
        }
        isSearching := false;
      }
    }

    method CloseResults()
      modifies this
      ensures State() == old(State()).(showResults := false)
    {
      showResults := false;
    }

    method ToggleProfileMenu()
      modifies this
      ensures State() == old(State()).(showProfileMenu := !old(showProfileMenu))
    {
      showProfileMenu := !showProfileMenu;
    }

    /** A language button. */
    method PickLanguage(provider: LanguageContext.LanguageProvider, lang: string)
      requires LanguageContext.IsLanguage(lang)
      modifies provider
      ensures provider.Valid() && provider.language == lang
    {
      provider.SetLanguage(lang);
    }

    /** The logout item: the menu closes, then the root component signs out. */
    method Logout(app: App.AppShell)
      modifies this, app
      ensures State() == old(State()).(showProfileMenu := false)
      ensures app.State() == App.SignOut(old(app.State()))
    {
      showProfileMenu := false;
      app.HandleLogout();
    }

    /** Choosing a result opens its details in the root component and hides the
        overlay. */
    method ChooseResult(scheme: SchemeBasic, app: App.AppShell)
      modifies this, app
      ensures State() == old(State()).(showResults := false)
      ensures app.State() == old(app.State()).(selectedSchemeId := Some(scheme.id), detailsOpen := true)
    {
      app.HandleSchemeClick(scheme.id);
      showResults := false;
    }
  }
}
