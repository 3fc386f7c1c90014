/** The assistant behind `POST /api/chatbot/chat` (backend/routes/chatbot.py): a keyword
    extractor over fixed per-language intent tables, a weighted search over the `schemes`
    table, a reply formatter, and the endpoint that ties them together. */
module Chatbot {
  import opened Wrappers
  import opened Text
  import opened Sorting
  import opened SchemeData

  // ---------------------------------------------------------------------------------
  // Keyword extraction
  // ---------------------------------------------------------------------------------

  /** One intent category of `INTENT_KEYWORDS` with the words that signal it. */
  datatype Intent = Intent(category: string, keywords: seq<string>)

  const EnglishIntents: seq<Intent> := [
    Intent("education", ["education", "student", "school", "college", "scholarship", "study", "exam", "degree", "university", "learning", "academic"]),
    Intent("agriculture", ["agriculture", "farmer", "farming", "crop", "kisan", "agricultural", "harvest", "cultivation", "irrigation", "land"]),
    Intent("women", ["women", "woman", "girl", "mother", "pregnant", "maternity", "female", "mahila", "widow", "self help"]),
    Intent("health", ["health", "medical", "hospital", "doctor", "medicine", "treatment", "disease", "insurance", "ayushman", "clinic"]),
    Intent("pension", ["pension", "senior citizen", "old age", "elderly", "retirement", "aged"]),
    Intent("employment", ["employment", "job", "work", "skill", "training", "rozgar", "unemployment", "wage", "labor"]),
    Intent("housing", ["housing", "house", "home", "shelter", "awas", "construction", "flat", "apartment"]),
    Intent("financial", ["loan", "credit", "bank", "finance", "subsidy", "grant", "money", "fund"])
  ]

  const TeluguIntents: seq<Intent> := [
    Intent("education", ["విద్య", "విద్యార్థి", "స్కూలు", "కళాశాల", "స్కాలర్‌షిప్", "చదువు", "పరీక్ష", "డిగ్రీ"]),
    Intent("agriculture", ["వ్యవసాయం", "రైతు", "పంట", "సాగు", "భూమి", "నీటిపారుదల"]),
    Intent("women", ["మహిళ", "స్త్రీ", "అమ్మాయి", "తల్లి", "గర్భిణి", "విధవ"]),
    Intent("health", ["ఆరోగ్యం", "వైద్యం", "ఆసుపత్రి", "డాక్టర్", "మందులు", "చికిత్స", "బీమా"]),
    Intent("pension", ["పెన్షన్", "వృద్ధులు", "వృద్ధాప్యం"]),
    Intent("employment", ["ఉద్యోగం", "ఉపాధి", "పని", "నైపుణ్యం", "శిక్షణ"]),
    Intent("housing", ["గృహం", "ఇల్లు", "నివాసం", "ఆవాసం", "నిర్మాణం"]),
    Intent("financial", ["రుణం", "బ్యాంకు", "సబ్సిడీ", "డబ్బు", "నిధి"])
  ]

  const HindiIntents: seq<Intent> := [
    Intent("education", ["शिक्षा", "छात्र", "स्कूल", "कॉलेज", "छात्रवृत्ति", "पढ़ाई", "परीक्षा"]),
    Intent("agriculture", ["कृषि", "किसान", "खेती", "फसल", "जमीन", "सिंचाई"]),
    Intent("women", ["महिला", "स्त्री", "लड़की", "मां", "गर्भवती", "विधवा"]),
    Intent("health", ["स्वास्थ्य", "चिकित्सा", "अस्पताल", "डॉक्टर", "दवा", "बीमा"]),
    Intent("pension", ["पेंशन", "वरिष्ठ नागरिक", "वृद्धावस्था"]),
    Intent("employment", ["रोजगार", "नौकरी", "काम", "कौशल", "प्रशिक्षण"]),
    Intent("housing", ["आवास", "घर", "मकान", "निर्माण"]),
    Intent("financial", ["ऋण", "बैंक", "सब्सिडी", "पैसा", "निधि"])
  ]

  /** `INTENT_KEYWORDS.get(language, INTENT_KEYWORDS["en"])`. */
  function IntentsFor(language: string): seq<Intent> {
    if language == "en" then EnglishIntents
    else if language == "te" then TeluguIntents
    else if language == "hi" then HindiIntents
    else EnglishIntents
  }

  /** A language without its own keyword table uses the English one. */
  lemma UnknownLanguageKeywords(language: string, query: string)
    requires language != "en" && language != "te" && language != "hi"
    ensures IntentHits(IntentsFor(language), Lower(query)) == IntentHits(IntentsFor("en"), Lower(query))
  {
  }

  /** What one keyword list adds to the result: every keyword found in `q`, each
      together with the category name. */
  function KeywordHits(category: string, keywords: seq<string>, q: string): set<string>
    decreases |keywords|
  {
    if keywords == [] then {}
    else
      var kw := keywords[|keywords| - 1];
      KeywordHits(category, keywords[..|keywords| - 1], q) + (if Contains(q, kw) then {kw, category} else {})
  }

  /** The set `extract_query_keywords` builds for a lower-cased query `q`. */
  function IntentHits(intents: seq<Intent>, q: string): set<string>
    decreases |intents|
  {
    if intents == [] then {}
    else
      var last := intents[|intents| - 1];
      IntentHits(intents[..|intents| - 1], q) + KeywordHits(last.category, last.keywords, q)
  }

  /** Keyword `j` of intent `i` occurs in `q`. */
  predicate Occurs(intents: seq<Intent>, q: string, i: int, j: int) {
    0 <= i < |intents| && 0 <= j < |intents[i].keywords| && Contains(q, intents[i].keywords[j])
  }

  lemma {:induction false} KeywordHitsMeaning(category: string, keywords: seq<string>, q: string)
    ensures forall x :: x in KeywordHits(category, keywords, q) <==>
      (exists j :: 0 <= j < |keywords| && Contains(q, keywords[j]) && (x == keywords[j] || x == category))
    decreases |keywords|
  {
    if keywords != [] {
      var init := keywords[..|keywords| - 1];
      KeywordHitsMeaning(category, init, q);
      forall x | x in KeywordHits(category, keywords, q)
        ensures exists j :: 0 <= j < |keywords| && Contains(q, keywords[j]) && (x == keywords[j] || x == category)
      {
        if x in KeywordHits(category, init, q) {
          var j :| 0 <= j < |init| && Contains(q, init[j]) && (x == init[j] || x == category);
          assert keywords[j] == init[j];
        } else {
          assert Contains(q, keywords[|keywords| - 1]);
        }
      }
      forall x, j | 0 <= j < |keywords| && Contains(q, keywords[j]) && (x == keywords[j] || x == category)
        ensures x in KeywordHits(category, keywords, q)
      {
        if j < |init| {
          assert init[j] == keywords[j];
        }
      }
    }
  }

  /** An element of the result is a keyword that occurs in the query or the category
      of such a keyword, and every occurring keyword puts both itself and its category
      into the result. */
  lemma {:induction false} IntentHitsMeaning(intents: seq<Intent>, q: string)
    ensures forall x :: x in IntentHits(intents, q) <==>
      (exists i, j :: Occurs(intents, q, i, j) && (x == intents[i].keywords[j] || x == intents[i].category))
    decreases |intents|
  {
    if intents != [] {
      var init, last := intents[..|intents| - 1], intents[|intents| - 1];
      IntentHitsMeaning(init, q);
      KeywordHitsMeaning(last.category, last.keywords, q);
      forall x | x in IntentHits(intents, q)
        ensures exists i, j :: Occurs(intents, q, i, j) && (x == intents[i].keywords[j] || x == intents[i].category)
      {
        if x in IntentHits(init, q) {
          var i, j :| Occurs(init, q, i, j) && (x == init[i].keywords[j] || x == init[i].category);
          assert intents[i] == init[i];
          assert Occurs(intents, q, i, j);
        } else {
          var j :| 0 <= j < |last.keywords| && Contains(q, last.keywords[j]) && (x == last.keywords[j] || x == last.category);
          assert Occurs(intents, q, |intents| - 1, j);
        }
      }
      forall x, i, j | Occurs(intents, q, i, j) && (x == intents[i].keywords[j] || x == intents[i].category)
        ensures x in IntentHits(intents, q)
      {
        if i < |init| {
          assert init[i] == intents[i];
          assert Occurs(init, q, i, j);
        }
      }
    }
  }

  /** Nothing is extracted exactly when no keyword of the table occurs. */
  lemma IntentHitsEmpty(intents: seq<Intent>, q: string)
    ensures IntentHits(intents, q) == {} <==> forall i, j :: !Occurs(intents, q, i, j)
  {
    IntentHitsMeaning(intents, q);
    if i, j :| Occurs(intents, q, i, j) {
      assert intents[i].category in IntentHits(intents, q);
    }
  }

  /** The nested loops of `extract_query_keywords` over one keyword table and a
      lower-cased query. */
  method CollectHits(intents: seq<Intent>, queryLower: string) returns (matched: set<string>)
    ensures matched == IntentHits(intents, queryLower)
  {
    matched := {};
    for i := 0 to |intents|
      invariant matched == IntentHits(intents[..i], queryLower)
    {
      var intent := intents[i];
      for j := 0 to |intent.keywords|
        invariant matched == IntentHits(intents[..i], queryLower) + KeywordHits(intent.category, intent.keywords[..j], queryLower)
      {
        var keyword := intent.keywords[j];
        assert intent.keywords[..j + 1][..j] == intent.keywords[..j];
        if Contains(queryLower, keyword) {
          matched := matched + {keyword};
          matched := matched + {intent.category};
        }
      }
      assert intent.keywords[..|intent.keywords|] == intent.keywords;
      assert intents[..i + 1][..i] == intents[..i];
    }
    assert intents[..|intents|] == intents;
  }

  /** `extract_query_keywords`: lower-cases the query and, for every category and every
      keyword of the language's table, adds the keyword and the category to the set when
      the keyword occurs in the query. */
  method ExtractQueryKeywords(query: string, language: string) returns (matched: set<string>)
    ensures matched == IntentHits(IntentsFor(language), Lower(query))
  {
    var queryLower := Lower(query);
    var intents := IntentsFor(language);
    matched := CollectHits(intents, queryLower);
  }

  // ---------------------------------------------------------------------------------
  // Weighted search
  // ---------------------------------------------------------------------------------

  /** What one search looks for: the stripped, lower-cased query, the extracted keywords
      and the language whose columns are read. */
  datatype Terms = Terms(needle: string, keywords: set<string>, language: string)

  /** `LOWER(column) LIKE '%needle%'`. */
  predicate Like(text: string, needle: string) {
    Contains(Lower(text), needle)
  }

  /** The interpolated keyword clause: some keyword occurs in the tags or the category;
      `1=0` when no keyword was extracted. */
  predicate KeywordClause(row: Scheme, keywords: set<string>) {
    exists kw | kw in keywords :: Like(row.beneficiaryTags, kw) || Like(row.category, kw)
  }

  /** The `WHERE` clause: the pattern occurs in one of the eight searched columns, or the
      keyword clause holds. */
  predicate Selected(row: Scheme, t: Terms) {
    Like(Select(row.name, t.language), t.needle)
    || Like(Select(row.description, t.language), t.needle)
    || Like(Select(row.eligibility, t.language), t.needle)
    || Like(Select(row.benefits, t.language), t.needle)
    || Like(Select(row.applicationProcess, t.language), t.needle)
    || Like(row.schemeType, t.needle)
    || Like(row.category, t.needle)
    || Like(row.beneficiaryTags, t.needle)
    || KeywordClause(row, t.keywords)
  }

  function Weight(hit: bool, w: nat): nat {
    if hit then w else 0
  }

  /** The `score` column: 100 for the name, 90 category, 80 tags, 70 scheme type,
      60 description, 40 eligibility, 30 benefits, 20 application process, and 50 when
      the keyword clause holds. A row scores at all exactly when the `WHERE` clause
      selects it. */
  function RowScore(row: Scheme, t: Terms): (score: nat)
    ensures score <= 540
    ensures score > 0 <==> Selected(row, t)
  {
    Weight(Like(Select(row.name, t.language), t.needle), 100)
    + Weight(Like(row.category, t.needle), 90)
    + Weight(Like(row.beneficiaryTags, t.needle), 80)
    + Weight(Like(row.schemeType, t.needle), 70)
    + Weight(Like(Select(row.description, t.language), t.needle), 60)
    + Weight(Like(Select(row.eligibility, t.language), t.needle), 40)
    + Weight(Like(Select(row.benefits, t.language), t.needle), 30)
    + Weight(Like(Select(row.applicationProcess, t.language), t.needle), 20)
    + Weight(KeywordClause(row, t.keywords), 50)
  }

  /** A row whose every searched column and keyword test matches reaches the maximum. */
  lemma FullScore(row: Scheme, t: Terms)
    requires Like(Select(row.name, t.language), t.needle) && Like(row.category, t.needle)
    requires Like(row.beneficiaryTags, t.needle) && Like(row.schemeType, t.needle)
    requires Like(Select(row.description, t.language), t.needle) && Like(Select(row.eligibility, t.language), t.needle)
    requires Like(Select(row.benefits, t.language), t.needle) && Like(Select(row.applicationProcess, t.language), t.needle)
    requires KeywordClause(row, t.keywords)
    ensures RowScore(row, t) == 540
  {
  }

  function ScoreKey(t: Terms): Scheme -> int {
    (row: Scheme) => RowScore(row, t)
  }

  function IsSelected(t: Terms): Scheme -> bool {
    (row: Scheme) => Selected(row, t)
  }

  /** `WHERE … ORDER BY score DESC, id ASC LIMIT limit`. */
  function TopMatches(table: seq<Scheme>, t: Terms, limit: nat): seq<Scheme> {
    Take(SortDesc(ById(Where(table, IsSelected(t))), ScoreKey(t)), limit)
  }

  /** The rows come by score descending, then id ascending, at most `limit` of them. */
  lemma TopMatchesOrder(table: seq<Scheme>, t: Terms, limit: nat)
    ensures |TopMatches(table, t, limit)| == Min(limit, |Where(table, IsSelected(t))|)
    ensures LexSorted(TopMatches(table, t, limit), ScoreKey(t), Id)
  {
    var hits := ById(Where(table, IsSelected(t)));
    ByIdOrdered(Where(table, IsSelected(t)));
    SortPermutes(hits, ScoreKey(t));
    SortLex(hits, ScoreKey(t), Id);
  }

  /** Every returned row is a selected row of the table, scoring between 1 and 540. */
  lemma TopMatchesSelected(table: seq<Scheme>, t: Terms, limit: nat)
    ensures forall row :: row in TopMatches(table, t, limit) ==>
      (row in table && Selected(row, t) && 0 < RowScore(row, t) <= 540)
  {
    var hits := ById(Where(table, IsSelected(t)));
    ByIdOrdered(Where(table, IsSelected(t)));
    SortPermutes(hits, ScoreKey(t));
    forall row | row in TopMatches(table, t, limit) ensures row in table && Selected(row, t) {
      assert row in multiset(SortDesc(hits, ScoreKey(t)));
      assert row in multiset(Where(table, IsSelected(t)));
    }
  }

  /** A selected row left out by the limit scores no more than any returned row. */
  lemma TopMatchesAreTop(table: seq<Scheme>, t: Terms, limit: nat)
    ensures forall x, row ::
      (x in TopMatches(table, t, limit) && row in Where(table, IsSelected(t)) && row !in TopMatches(table, t, limit)
       ==> RowScore(x, t) >= RowScore(row, t))
  {
    var selected := Where(table, IsSelected(t));
    var hits := ById(selected);
    var sorted := SortDesc(hits, ScoreKey(t));
    var top := TopMatches(table, t, limit);
    ByIdOrdered(selected);
    SortPermutes(hits, ScoreKey(t));
    SortSorted(hits, ScoreKey(t));
    forall x, row | x in top && row in selected && row !in top
      ensures RowScore(x, t) >= RowScore(row, t)
    {
      assert row in multiset(sorted);
      PrefixDominates(sorted, |top|, ScoreKey(t), x, row);
    }
  }

  /** When the selection fits the limit, every selected row is returned. */
  lemma TopMatchesComplete(table: seq<Scheme>, t: Terms, limit: nat)
    requires |Where(table, IsSelected(t))| <= limit
    ensures forall row :: row in table && Selected(row, t) ==> row in TopMatches(table, t, limit)
  {
    var selected := Where(table, IsSelected(t));
    var sorted := SortDesc(ById(selected), ScoreKey(t));
    ByIdOrdered(selected);
    SortPermutes(ById(selected), ScoreKey(t));
    assert TopMatches(table, t, limit) == sorted;
    forall row | row in table && Selected(row, t) ensures row in sorted {
      assert IsSelected(t)(row);
      assert row in selected;
      assert row in multiset(sorted);
    }
  }

  /** One result entry as `search_database` returns it. */
  datatype Found = Found(
    id: int,
    schemeName: string,
    description: string,
    eligibility: string,
    benefits: string,
    applicationProcess: string,
    schemeType: string,
    category: string,
    officialLink: string,
    beneficiaryTags: string,
    score: nat)

  /** Description shortening: longer than 180 characters becomes its first 180
      characters followed by "...". */
  function Truncate(desc: string): (r: string)
    ensures |desc| <= 180 ==> r == desc
    ensures |r| <= 183 && (|desc| > 180 ==> |r| == 183)
    ensures r[..Min(180, |r|)] == desc[..Min(180, |desc|)]
  {
    if |desc| > 180 then desc[..180] + "..." else desc
  }

  /** Shortening an already shortened description changes nothing. */
  lemma TruncateIdempotent(desc: string)
    ensures Truncate(Truncate(desc)) == Truncate(desc)
  {
    if |desc| > 180 {
      var r := Truncate(desc);
      assert r[..180] == desc[..180];
      assert r[180..] == "...";
      assert r == r[..180] + r[180..];
    }
  }

  /** The entry built for one row: the name falls back to "N/A" and the description is
      shortened; every text column is read in the search language. */
  function Present(row: Scheme, t: Terms): Found {
    var name := Select(row.name, t.language);
    Found(
      row.id,
      if name == "" then "N/A" else name,
      Truncate(Select(row.description, t.language)),
      Select(row.eligibility, t.language),
      Select(row.benefits, t.language),
      Select(row.applicationProcess, t.language),
      row.schemeType,
      row.category,
      row.officialLink,
      row.beneficiaryTags,
      RowScore(row, t))
  }

  predicate SearchLanguage(language: string) {
    language == "en" || language == "te" || language == "hi"
  }

  function SearchTerms(query: string, language: string): Terms {
    Terms(Lower(Strip(query)), IntentHits(IntentsFor(language), Lower(query)), language)
  }

  /** The list `search_database` returns. A language other than en/te/hi names columns
      that do not exist; the query fails and the failure is answered with `[]`. */
  function SearchResults(table: seq<Scheme>, query: string, language: string, limit: nat): (r: seq<Found>)
    ensures |r| <= limit
  {
    if !SearchLanguage(language) then []
    else
      var t := SearchTerms(query, language);
      var rows := TopMatches(table, t, limit);
      TopMatchesOrder(table, t, limit);
      seq(|rows|, i requires 0 <= i < |rows| => Present(rows[i], t))
  }

  function FoundScore(f: Found): int { f.score }

  function FoundId(f: Found): int { f.id }

  /** Presenting rows one by one keeps their "score descending, then id ascending"
      order. */
  lemma PresentedOrder(rows: seq<Scheme>, t: Terms, r: seq<Found>)
    requires |r| == |rows| && forall i :: 0 <= i < |r| ==> r[i] == Present(rows[i], t)
    requires LexSorted(rows, ScoreKey(t), Id)
    ensures LexSorted(r, FoundScore, FoundId)
  {
    forall i, j | 0 <= i < j < |r|
      ensures FoundScore(r[i]) > FoundScore(r[j]) || (FoundScore(r[i]) == FoundScore(r[j]) && FoundId(r[i]) <= FoundId(r[j]))
    {
      assert ScoreKey(t)(rows[i]) > ScoreKey(t)(rows[j]) || (ScoreKey(t)(rows[i]) == ScoreKey(t)(rows[j]) && Id(rows[i]) <= Id(rows[j]));
    }
  }

  /** Each presented entry comes from one of the rows, with that row's score. */
  lemma PresentedSound(table: seq<Scheme>, rows: seq<Scheme>, t: Terms, r: seq<Found>)
    requires |r| == |rows| && forall i :: 0 <= i < |r| ==> r[i] == Present(rows[i], t)
    requires forall row :: row in rows ==> (row in table && Selected(row, t) && 0 < RowScore(row, t) <= 540)
    ensures forall f :: f in r ==>
      (0 < f.score <= 540 && exists row :: (row in table && Selected(row, t) && f == Present(row, t)))
  {
    forall f | f in r
      ensures 0 < f.score <= 540 && exists row :: row in table && Selected(row, t) && f == Present(row, t)
    {
      var i :| 0 <= i < |r| && r[i] == f;
      assert rows[i] in rows;
    }
  }

  /** The entries come by score descending, then id ascending; every entry presents a
      selected row of the table with a score between 1 and 540. */
  lemma SearchResultsSpec(table: seq<Scheme>, query: string, language: string, limit: nat)
    ensures LexSorted(SearchResults(table, query, language, limit), FoundScore, FoundId)
    ensures forall f :: f in SearchResults(table, query, language, limit) ==>
      (0 < f.score <= 540
       && exists row :: (row in table && Selected(row, SearchTerms(query, language))
                        && f == Present(row, SearchTerms(query, language))))
  {
    if SearchLanguage(language) {
      var t := SearchTerms(query, language);
      var rows := TopMatches(table, t, limit);
      var r := SearchResults(table, query, language, limit);
      TopMatchesOrder(table, t, limit);
      TopMatchesSelected(table, t, limit);
      PresentedOrder(rows, t, r);
      PresentedSound(table, rows, t, r);
    }
  }

  /** The loop of `search_database` over the returned rows: each row becomes one entry,
      in the order the query returned them. */
  method PresentRows(result: seq<Scheme>, t: Terms) returns (schemes: seq<Found>)
    ensures |schemes| == |result|
    ensures forall i :: 0 <= i < |result| ==> schemes[i] == Present(result[i], t)
  {
    var language := t.language;
    schemes := [];
    for k := 0 to |result|
      invariant |schemes| == k
      invariant forall i :: 0 <= i < k ==> schemes[i] == Present(result[i], t)
    {
      var row := result[k];
      var name := Select(row.name, language);
      var desc := Select(row.description, language);
      var truncatedDesc := if |desc| > 180 then desc[..180] + "..." else desc;
      var entry := Found(
        row.id,
        if name == "" then "N/A" else name,
        truncatedDesc,
        Select(row.eligibility, language),
        Select(row.benefits, language),
        Select(row.applicationProcess, language),
        row.schemeType,
        row.category,
        row.officialLink,
        row.beneficiaryTags,
        RowScore(row, t));
      assert entry == Present(row, t);
      schemes := schemes + [entry];
    }
  }

  /** `search_database`: extracts the keywords, runs the scored query and turns each
      returned row into an entry. `failed` stands for an exception raised inside it (a
      database error), which the function catches and answers with no entries. */
  method SearchDatabase(table: seq<Scheme>, query: string, language: string, limit: nat, failed: bool)
    returns (schemes: seq<Found>)
    ensures failed ==> schemes == []
    ensures !failed ==> schemes == SearchResults(table, query, language, limit)
    ensures |schemes| <= limit
    ensures !SearchLanguage(language) ==> schemes == []
  {
    if failed || !SearchLanguage(language) {
      return [];
    }
    var keywords := ExtractQueryKeywords(query, language);
    var t := Terms(Lower(Strip(query)), keywords, language);
    assert t == SearchTerms(query, language);
    var result := TopMatches(table, t, limit);
    schemes := PresentRows(result, t);
  }

  // ---------------------------------------------------------------------------------
  // Reply formatting
  // ---------------------------------------------------------------------------------

  /** The marks that open the "nothing found" suggestions and the error text. */
  const NotFoundMark := "❌ "
  const WarningMark := "⚠️ "

  /** The suggestion block answered when nothing was found. */
  datatype Suggestions = Suggestions(text: string, options: seq<string>)

  /** `suggestions.get(language, suggestions["en"])`: the not-found mark and line, then
      the options. */
  function SuggestionsFor(language: string): (r: Suggestions)
    ensures r.text != [] && r.text[0] == '❌'
  {
    Suggestions(NotFoundMark + NotFoundLine(language), SuggestionOptions(language))
  }

  /** The suggestion text after its mark. */
  function NotFoundLine(language: string): string {
    if language == "te" then "మీ ప్రశ్నకు పథకాలు కనుగొనబడలేదు.\n\n💡 **ఈ సూచనలను ప్రయత్నించండి:**"
    else if language == "hi" then "आपकी क्वेरी के लिए कोई योजना नहीं मिली.\n\n💡 **ये सुझाव आज़माएं:**"
    else "No schemes found for your query.\n\n💡 **Try these suggestions:**"
  }

  /** The suggestion options, in the order they are joined. */
  function SuggestionOptions(language: string): seq<string> {
    if language == "te" then [
        "\n🎓 విద్య: 'విద్యార్థి స్కాలర్‌షిప్' లేదా 'విద్య'",
        "🌾 వ్యవసాయం: 'రైతు రుణం' లేదా 'వ్యవసాయం'",
        "👩 మహిళలు: 'మహిళ పథకం' లేదా 'మహిళ'",
        "🏥 ఆరోగ్యం: 'ఆరోగ్య బీమా' లేదా 'ఆరోగ్యం'",
        "💰 పెన్షన్: 'పెన్షన్' లేదా 'వృద్ధులు'",
        "🏠 గృహాలు: 'గృహం' లేదా 'ఇల్లు'",
        "💼 ఉద్యోగం: 'ఉద్యోగం' లేదా 'పని శిక్షణ'",
        "\n🔍 **లేదా పైన ఉన్న వర్గం బటన్లను క్లిక్ చేయండి!**"]
    else if language == "hi" then [
        "\n🎓 शिक्षा: 'छात्र छात्रवृत्ति' या 'शिक्षा'",
        "🌾 कृषि: 'किसान ऋण' या 'कृषि'",
        "👩 महिला: 'महिला योजना' या 'महिला'",
        "🏥 स्वास्थ्य: 'स्वास्थ्य बीमा' या 'स्वास्थ्य'",
        "💰 पेंशन: 'पेंशन' या 'वरिष्ठ नागरिक'",
        "🏠 आवास: 'आवास' या 'घर'",
        "💼 रोजगार: 'रोजगार' या 'नौकरी प्रशिक्षण'",
        "\n🔍 **या ऊपर श्रेणी बटन पर क्लिक करें!**"]
    else [
        "\n🎓 Education: 'student scholarship' or 'education'",
        "🌾 Agriculture: 'farmer loan' or 'agriculture'",
        "👩 Women: 'women scheme' or 'mahila'",
        "🏥 Health: 'health insurance' or 'medical'",
        "💰 Pension: 'pension' or 'senior citizen'",
        "🏠 Housing: 'housing' or 'awas'",
        "💼 Employment: 'employment' or 'job training'",
        "\n🔍 **Or click the category buttons above!**"]
  }

  /** Python `"".join(parts)`. */
  function Join(parts: seq<string>): (r: string)
    ensures forall i :: 0 <= i < |parts| ==> Contains(r, parts[i])
    decreases |parts|
  {
    if parts == [] then []
    else
      var init := Join(parts[..|parts| - 1]);
      var last := parts[|parts| - 1];
      forall i | 0 <= i < |parts| - 1 ensures Contains(init + last, parts[i]) {
        assert parts[i] == parts[..|parts| - 1][i];
        ContainsExtend(init, parts[i], "", last);
        assert "" + init + last == init + last;
      }
      ContainsItself(last);
      ContainsExtend(last, last, init, "");
      assert init + last + "" == init + last;
      init + last
  }

  /** The fixed phrases of one language's reply. */
  datatype Phrasing = Phrasing(
    countBefore: string,
    countAfter: string,
    categoryLabel: string,
    typeLabel: string,
    moreLabel: string,
    footer: string)

  /** The reply templates exist for en, te and hi only. */
  function PhrasingFor(language: string): (p: Option<Phrasing>)
    ensures p.Some? <==> SearchLanguage(language)
  {
    if language == "en" then Some(Phrasing("✅ Found ", " relevant scheme(s)!\n\n", "📂 Category: ", "🏷️ Type: ", "\n➕ **More schemes found:**", "\n\n👇 **Click any scheme below for full details!**"))
    else if language == "te" then Some(Phrasing("✅ ", " సంబంధిత పథకం(లు) దొరికాయి!\n\n", "📂 వర్గం: ", "🏷️ రకం: ", "\n➕ **మరిన్ని పథకాలు:**", "\n\n👇 **పూర్తి వివరాల కోసం క్రింద ఏదైనా పథకాన్ని క్లిక్ చేయండి!**"))
    else if language == "hi" then Some(Phrasing("✅ ", " प्रासंगिक योजना मिली!\n\n", "📂 श्रेणी: ", "🏷️ प्रकार: ", "\n➕ **और योजनाएं:**", "\n\n👇 **पूर्ण विवरण के लिए नीचे किसी भी योजना पर क्लिक करें!**"))
    else None
  }

  /** The first block of a reply: the full count, the top scheme's name, its category and
      type when present, and the first 160 characters of its description. */
  function Headline(schemes: seq<Found>, p: Phrasing): string
    requires schemes != []
  {
    var top := schemes[0];
    Opening(|schemes|, p) + NameLine(top) + CategoryLine(top, p) + TypeLine(top, p) + Excerpt(top)
  }

  function Opening(count: nat, p: Phrasing): string {
    p.countBefore + NatToString(count) + p.countAfter
  }

  function NameLine(top: Found): string {
    "**🎯 " + top.schemeName + "**\n"
  }

  function CategoryLine(top: Found, p: Phrasing): string {
    if top.category != "" then p.categoryLabel + top.category + "\n" else ""
  }

  function TypeLine(top: Found, p: Phrasing): string {
    if top.schemeType != "" then p.typeLabel + top.schemeType + "\n" else ""
  }

  function Excerpt(top: Found): string {
    "\n" + Take(top.description, 160) + "...\n"
  }

  /** The line that lists entry `i` (numbered from 1, so the second entry is "2."). */
  function Line(i: nat, f: Found): string {
    "\n" + NatToString(i + 1) + ". " + f.schemeName
  }

  /** The lines for the entries at indices 1 to n-1. */
  function Lines(schemes: seq<Found>, n: nat): string
    requires n <= |schemes|
  {
    if n <= 1 then "" else Lines(schemes, n - 1) + Line(n - 1, schemes[n - 1])
  }

  function Listing(schemes: seq<Found>, p: Phrasing): string {
    if |schemes| > 1 then p.moreLabel + Lines(schemes, Min(3, |schemes|)) else ""
  }

  /** What `generate_response` returns; `None` stands for the failure when schemes were
      found but the language has no template (the reply variable is never bound). */
  function Reply(schemes: seq<Found>, language: string): Option<string> {
    if schemes == [] then
      var s := SuggestionsFor(language);
      Some(s.text + Join(s.options))
    else
      match PhrasingFor(language)
      case None => None
      case Some(p) => Some(Compose(schemes, p))
  }

  /** A reply about found schemes in the phrases `p`. */
  function Compose(schemes: seq<Found>, p: Phrasing): string
    requires schemes != []
  {
    Headline(schemes, p) + Listing(schemes, p) + p.footer
  }

  /** A reply exists exactly when nothing was found or the language has templates; with
      nothing found, a language without suggestions gets the English ones. */
  lemma ReplyDefined(schemes: seq<Found>, language: string)
    ensures Reply(schemes, language).Some? <==> (schemes == [] || SearchLanguage(language))
    ensures !SearchLanguage(language) ==> Reply([], language) == Reply([], "en")
  {
  }

  /** A reply about found schemes opens with the full count and names the top scheme. */
  lemma ComposeHeadlines(schemes: seq<Found>, p: Phrasing)
    requires schemes != []
    ensures StartsWith(Compose(schemes, p), p.countBefore + NatToString(|schemes|))
    ensures Contains(Compose(schemes, p), "**🎯 " + schemes[0].schemeName + "**\n")
  {
    var top := schemes[0];
    var lead := p.countBefore + NatToString(|schemes|);
    var named := Opening(|schemes|, p) + NameLine(top);
    assert StartsWith(lead + p.countAfter, lead);
    StartsWithAppend(lead + p.countAfter, lead, NameLine(top));
    ContainsInfix(Opening(|schemes|, p), NameLine(top), "");
    assert Opening(|schemes|, p) + NameLine(top) + "" == named;
    var s1 := named + CategoryLine(top, p);
    var s2 := s1 + TypeLine(top, p);
    var s3 := s2 + Excerpt(top);
    var s4 := s3 + Listing(schemes, p);
    StartsWithAppend(named, lead, CategoryLine(top, p));
    StartsWithAppend(s1, lead, TypeLine(top, p));
    StartsWithAppend(s2, lead, Excerpt(top));
    StartsWithAppend(s3, lead, Listing(schemes, p));
    StartsWithAppend(s4, lead, p.footer);
    ContainsAppend(named, NameLine(top), CategoryLine(top, p));
    ContainsAppend(s1, NameLine(top), TypeLine(top, p));
    ContainsAppend(s2, NameLine(top), Excerpt(top));
    ContainsAppend(s3, NameLine(top), Listing(schemes, p));
    ContainsAppend(s4, NameLine(top), p.footer);
    assert s3 == Headline(schemes, p);
  }

  /** Whatever the listing lines contain, the composed reply contains. */
  lemma ListedInCompose(schemes: seq<Found>, p: Phrasing, piece: string)
    requires |schemes| >= 2
    requires Contains(Lines(schemes, Min(3, |schemes|)), piece)
    ensures Contains(Compose(schemes, p), piece)
  {
    var lines := Lines(schemes, Min(3, |schemes|));
    assert Listing(schemes, p) == p.moreLabel + lines;
    ContainsPrepend(lines, piece, p.moreLabel);
    ContainsExtend(Listing(schemes, p), piece, Headline(schemes, p), p.footer);
  }

  /** A reply about several schemes lists the second and third entries as "2." and "3.". */
  lemma ComposeListsNext(schemes: seq<Found>, p: Phrasing)
    requires |schemes| >= 2
    ensures Contains(Compose(schemes, p), "\n2. " + schemes[1].schemeName)
    ensures |schemes| >= 3 ==> Contains(Compose(schemes, p), "\n3. " + schemes[2].schemeName)
  {
    var second := Line(1, schemes[1]);
    assert second == "\n2. " + schemes[1].schemeName;
    assert Lines(schemes, 2) == "" + second;
    if |schemes| == 2 {
      ContainsInfix("", second, "");
      assert "" + second + "" == Lines(schemes, 2);
      ListedInCompose(schemes, p, second);
    } else {
      var third := Line(2, schemes[2]);
      assert third == "\n3. " + schemes[2].schemeName;
      var lines := Lines(schemes, 3);
      assert lines == "" + second + third;
      ContainsInfix("", second, third);
      ListedInCompose(schemes, p, second);
      ContainsInfix("" + second, third, "");
      assert "" + second + third + "" == lines;
      ListedInCompose(schemes, p, third);
    }
  }

  lemma {:induction false} LinesPrefix(s: seq<Found>, u: seq<Found>, n: nat)
    requires n <= |s| && n <= |u| && s[..n] == u[..n]
    ensures Lines(s, n) == Lines(u, n)
  {
    if n > 1 {
      assert s[..n - 1] == u[..n - 1] by {
        assert s[..n - 1] == s[..n][..n - 1] && u[..n - 1] == u[..n][..n - 1];
      }
      LinesPrefix(s, u, n - 1);
      assert s[n - 1] == s[..n][n - 1] && u[n - 1] == u[..n][n - 1];
    }
  }

  /** Beyond the count, a reply reads only the first three entries. */
  lemma ReplyReadsTopThree(s: seq<Found>, u: seq<Found>, language: string)
    requires |s| == |u| && s[..Min(3, |s|)] == u[..Min(3, |u|)]
    ensures Reply(s, language) == Reply(u, language)
  {
    if s != [] {
      assert s[0] == s[..Min(3, |s|)][0] && u[0] == u[..Min(3, |u|)][0];
      LinesPrefix(s, u, Min(3, |s|));
    }
  }

  /** The found-schemes branch of `generate_response` in the phrases `p`: the headline,
      the "more" list built line by line, and the footer. */
  method Describe(schemes: seq<Found>, p: Phrasing) returns (text: string)
    requires schemes != []
    ensures text == Compose(schemes, p)
  {
    var headline := WriteHeadline(schemes, p);
    var listing := WriteListing(schemes, p);
    text := headline + listing + p.footer;
  }

  /** The headline: count, top scheme's name, category and type when present, and the
      first 160 characters of its description. */
  method WriteHeadline(schemes: seq<Found>, p: Phrasing) returns (text: string)
    requires schemes != []
    ensures text == Headline(schemes, p)
  {
    var top := schemes[0];
    var count := |schemes|;
    text := p.countBefore + NatToString(count) + p.countAfter;
    text := text + ("**🎯 " + top.schemeName + "**\n");
    ghost var named := text;
    if top.category != "" {
      text := text + (p.categoryLabel + top.category + "\n");
    }
    assert text == named + CategoryLine(top, p);
    ghost var categorised := text;
    if top.schemeType != "" {
      text := text + (p.typeLabel + top.schemeType + "\n");
    }
    assert text == categorised + TypeLine(top, p);
    text := text + ("\n" + Take(top.description, 160) + "...\n");
  }

  /** The "more" list: the label, then one line for each of the second and third
      schemes present. */
  method WriteListing(schemes: seq<Found>, p: Phrasing) returns (text: string)
    ensures text == Listing(schemes, p)
  {
    text := "";
    if |schemes| > 1 {
      text := p.moreLabel;
      for i := 1 to Min(3, |schemes|)
        invariant text == p.moreLabel + Lines(schemes, i)
      {
        text := text + ("\n" + NatToString(i + 1) + ". " + schemes[i].schemeName);
      }
    }
  }

  /** `generate_response`: the suggestion block when nothing was found, otherwise the
      reply in the language's phrases. */
  method GenerateResponse(query: string, schemes: seq<Found>, language: string) returns (resp: Option<string>)
    ensures resp == Reply(schemes, language)
  {
    if schemes == [] {
      var sug := SuggestionsFor(language);
      return Some(sug.text + Join(sug.options));
    }
    var phrasing := PhrasingFor(language);
    if phrasing.None? {
      return None;
    }
    var text := Describe(schemes, phrasing.value);
    return Some(text);
  }

  // ---------------------------------------------------------------------------------
  // The endpoint
  // ---------------------------------------------------------------------------------

  datatype ChatRequest = ChatRequest(message: string, language: string)

  datatype ChatResponse = ChatResponse(response: string, schemes: seq<Found>, language: string)

  /** The language actually used: en, te or hi as given, anything else becomes en. */
  function Normalise(language: string): (lang: string)
    ensures SearchLanguage(lang)
    ensures SearchLanguage(language) ==> lang == language
  {
    if SearchLanguage(language) then language else "en"
  }

  /** `error_messages.get(language, error_messages["en"])`: the warning mark, then the
      message. */
  function ErrorText(language: string): (r: string)
    ensures r != [] && r[0] == '⚠'
  {
    WarningMark + ErrorLine(language)
  }

  /** The error message after its mark. */
  function ErrorLine(language: string): string {
    if language == "te" then "లోపం సంభవించింది. దయచేసి మళ్లీ ప్రయత్నించండి లేదా పైన ఉన్న వర్గం బటన్లను ఉపయోగించండి."
    else if language == "hi" then "एक त्रुटि हुई। कृपया पुनः प्रयास करें या ऊपर श्रेणी बटन का उपयोग करें।"
    else "An error occurred. Please try again or use the category buttons above."
  }

  /** `chat`: normalises the language, searches with limit 10, formats the reply and
      attaches the first three entries. `searchFailed` is a failure inside the search,
      which the search turns into no entries, so the answer is the suggestions reply.
      `fault` stands for an exception escaping the handler itself, answered with the
      error text of the language as requested (not normalised) and no schemes. */
  method Chat(table: seq<Scheme>, request: ChatRequest, searchFailed: bool, fault: bool)
    returns (response: ChatResponse)
    ensures !fault ==> response.language == Normalise(request.language)
    ensures !fault && !searchFailed ==>
      response.schemes == Take(SearchResults(table, request.message, response.language, 10), 3)
      && Some(response.response) == Reply(SearchResults(table, request.message, response.language, 10), response.language)
    ensures !fault && searchFailed ==>
      response.schemes == [] && Some(response.response) == Reply([], response.language)
    ensures !fault ==> |response.schemes| <= 3
    ensures fault ==> response == ChatResponse(ErrorText(request.language), [], request.language)
  {
    if fault {
      return ChatResponse(ErrorText(request.language), [], request.language);
    }
    var lang := Normalise(request.language);
    var schemes := SearchDatabase(table, request.message, lang, 10, searchFailed);
    var reply := GenerateResponse(request.message, schemes, lang);
    ReplyDefined(schemes, lang);
    response := ChatResponse(reply.value, Take(schemes, 3), lang);
  }

  /** A failed search is answered like a search that found nothing: the suggestions of
      the normalised language, never the error text. */
  lemma SearchFailureSuggests(language: string)
    ensures var lang := Normalise(language);
      Reply([], lang) == Some(SuggestionsFor(lang).text + Join(SuggestionsFor(lang).options))
      && Reply([], lang) != Some(ErrorText(language))
  {
    var lang := Normalise(language);
    var text := SuggestionsFor(lang).text;
    assert (text + Join(SuggestionsFor(lang).options))[0] == text[0];
  }

}
