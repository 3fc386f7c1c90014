/** The CSV import (backend/import_data.py): the category classifier applied to the
    beneficiary tags, and the per-row field mapping that strips every text cell. */
module ImportData {
  import opened Text
  import opened SchemeData

  /** A CSV cell as pandas hands it over: text, or a missing value (NaN). */
  datatype Cell = Text(text: string) | Missing

  /** Python `str(value)`: a missing value prints as "nan". */
  function Stringify(c: Cell): string {
    match c
    case Text(s) => s
    case Missing => "nan"
  }

  const AgricultureCategory := "Agriculture, Rural & Environment"
  const EducationCategory := "Education & Learning"
  const WomenChildCategory := "Women and Child"
  const HealthCategory := "Health & Wellness"
  const SkillsCategory := "Skills & Employment"
  const BusinessCategory := "Business & Entrepreneurship"
  const HousingCategory := "Housing & Shelter"
  const BankingCategory := "Banking, Financial Services and Insurance"
  const TransportCategory := "Transport & Infrastructure"
  const DefaultCategory := "Social welfare & Empowerment"

  /** The ten category names the classifier can produce. */
  const Categories: set<string> := {
    AgricultureCategory, EducationCategory, WomenChildCategory, HealthCategory, SkillsCategory,
    BusinessCategory, HousingCategory, BankingCategory, TransportCategory, DefaultCategory
  }

  /** `extract_category`: lower-cases the stringified tags and returns the category of the
      first test in the chain that finds one of its words. */
  function ExtractCategory(beneficiaryTags: Cell): (category: string)
    ensures category in Categories
  {
    Chain(Lower(Stringify(beneficiaryTags)))
  }

  /** The if/elif chain of `extract_category` over the lower-cased tags. */
  function Chain(tags: string): (category: string)
    ensures category in Categories
  {
    if Contains(tags, "farmer") || Contains(tags, "agriculture") || Contains(tags, "rural") then AgricultureCategory
    else if Contains(tags, "education") || Contains(tags, "student") || Contains(tags, "learning") then EducationCategory
    else if Contains(tags, "women") || Contains(tags, "child") then WomenChildCategory
    else if Contains(tags, "health") || Contains(tags, "medical") then HealthCategory
    else if Contains(tags, "employment") || Contains(tags, "skill") || Contains(tags, "job") then SkillsCategory
    else if Contains(tags, "entrepreneur") || Contains(tags, "business") then BusinessCategory
    else if Contains(tags, "housing") || Contains(tags, "shelter") then HousingCategory
    else if Contains(tags, "bank") || Contains(tags, "insurance") || Contains(tags, "financial") then BankingCategory
    else if Contains(tags, "transport") then TransportCategory
    else DefaultCategory
  }

  /** One test of the chain: the category and the words that select it. */
  datatype Rule = Rule(category: string, words: seq<string>)

  /** The chain as a table, in priority order. */
  const Rules: seq<Rule> := [
    Rule(AgricultureCategory, ["farmer", "agriculture", "rural"]),
    Rule(EducationCategory, ["education", "student", "learning"]),
    Rule(WomenChildCategory, ["women", "child"]),
    Rule(HealthCategory, ["health", "medical"]),
    Rule(SkillsCategory, ["employment", "skill", "job"]),
    Rule(BusinessCategory, ["entrepreneur", "business"]),
    Rule(HousingCategory, ["housing", "shelter"]),
    Rule(BankingCategory, ["bank", "insurance", "financial"]),
    Rule(TransportCategory, ["transport"])
  ]

  predicate AnyWord(words: seq<string>, tags: string) {
    exists k :: 0 <= k < |words| && Contains(tags, words[k])
  }

  /** First-match classification over a rule table, with the default when no rule fires. */
  function Classify(rules: seq<Rule>, tags: string): (category: string)
    ensures category == DefaultCategory || exists i :: 0 <= i < |rules| && category == rules[i].category
    decreases |rules|
  {
    if rules == [] then DefaultCategory
    else if AnyWord(rules[0].words, tags) then rules[0].category
    else
      var rest := Classify(rules[1..], tags);
      assert rest != DefaultCategory ==> exists i :: 0 <= i < |rules| && rest == rules[i].category by {
        if rest != DefaultCategory {
          var i :| 0 <= i < |rules[1..]| && rest == rules[1..][i].category;
          assert rules[i + 1] == rules[1..][i];
        }
      }
      rest
  }

  /** The rule that fires is the first one with a word in the tags; when none has,
      the result is the default. */
  lemma {:induction false} ClassifyFirstMatch(rules: seq<Rule>, tags: string, i: nat)
    requires i <= |rules|
    requires forall k :: 0 <= k < i ==> !AnyWord(rules[k].words, tags)
    requires i < |rules| ==> AnyWord(rules[i].words, tags)
    ensures Classify(rules, tags) == if i < |rules| then rules[i].category else DefaultCategory
    decreases i
  {
    if i > 0 {
      assert !AnyWord(rules[0].words, tags);
      ClassifyFirstMatch(rules[1..], tags, i - 1);
    }
  }

  lemma ChainFirstRules(tags: string)
    ensures AnyWord(Rules[0].words, tags) <==> Contains(tags, "farmer") || Contains(tags, "agriculture") || Contains(tags, "rural")
    ensures AnyWord(Rules[1].words, tags) <==> Contains(tags, "education") || Contains(tags, "student") || Contains(tags, "learning")
    ensures AnyWord(Rules[2].words, tags) <==> Contains(tags, "women") || Contains(tags, "child")
    ensures AnyWord(Rules[3].words, tags) <==> Contains(tags, "health") || Contains(tags, "medical")
  {
    assert Rules[0].words[0] == "farmer" && Rules[0].words[1] == "agriculture" && Rules[0].words[2] == "rural";
    assert Rules[1].words[0] == "education" && Rules[1].words[1] == "student" && Rules[1].words[2] == "learning";
    assert Rules[2].words[0] == "women" && Rules[2].words[1] == "child";
    assert Rules[3].words[0] == "health" && Rules[3].words[1] == "medical";
  }

  lemma ChainLastRules(tags: string)
    ensures AnyWord(Rules[4].words, tags) <==> Contains(tags, "employment") || Contains(tags, "skill") || Contains(tags, "job")
    ensures AnyWord(Rules[5].words, tags) <==> Contains(tags, "entrepreneur") || Contains(tags, "business")
    ensures AnyWord(Rules[6].words, tags) <==> Contains(tags, "housing") || Contains(tags, "shelter")
    ensures AnyWord(Rules[7].words, tags) <==> Contains(tags, "bank") || Contains(tags, "insurance") || Contains(tags, "financial")
    ensures AnyWord(Rules[8].words, tags) <==> Contains(tags, "transport")
  {
    assert Rules[4].words[0] == "employment" && Rules[4].words[1] == "skill" && Rules[4].words[2] == "job";
    assert Rules[5].words[0] == "entrepreneur" && Rules[5].words[1] == "business";
    assert Rules[6].words[0] == "housing" && Rules[6].words[1] == "shelter";
    assert Rules[7].words[0] == "bank" && Rules[7].words[1] == "insurance" && Rules[7].words[2] == "financial";
    assert Rules[8].words[0] == "transport";
  }

  /** The chain is first-match classification over `Rules`. */
  lemma ExtractCategoryFollowsRules(c: Cell)
    ensures ExtractCategory(c) == Classify(Rules, Lower(Stringify(c)))
  {
    assert ExtractCategory(c) == Chain(Lower(Stringify(c)));
    var tags := Lower(Stringify(c));
    var k := FirstFiring(Rules, tags, 0);
    ClassifyFirstMatch(Rules, tags, k);
    if k < 4 {
      ChainFirstRules(tags);
      assert Chain(tags) == Rules[k].category;
    } else {
      ChainFirstRules(tags);
      assert !AnyWord(Rules[0].words, tags) && !AnyWord(Rules[1].words, tags);
      assert !AnyWord(Rules[2].words, tags) && !AnyWord(Rules[3].words, tags);
      ChainLastRules(tags);
    }
  }

  /** The index of the first rule from `i` on with a word in the tags, or `|rules|`. */
  function FirstFiring(rules: seq<Rule>, tags: string, i: nat): (k: nat)
    requires i <= |rules|
    requires forall j :: 0 <= j < i ==> !AnyWord(rules[j].words, tags)
    ensures i <= k <= |rules|
    ensures forall j :: 0 <= j < k ==> !AnyWord(rules[j].words, tags)
    ensures k < |rules| ==> AnyWord(rules[k].words, tags)
    decreases |rules| - i
  {
    if i == |rules| || AnyWord(rules[i].words, tags) then i else FirstFiring(rules, tags, i + 1)
  }

  /** A word with solid ends is found in stripped text exactly when it is found in
      the text itself, lower-cased or not. */
  lemma StrippedWord(s: string, w: string)
    requires SolidEnds(w)
    ensures Contains(Lower(Strip(s)), w) <==> Contains(Lower(s), w)
  {
    LowerStrip(s);
    StripKeepsWords(Lower(s), w);
  }

  /** Every word of the table is non-empty and neither starts nor ends with whitespace. */
  predicate PlainWords(rules: seq<Rule>) {
    forall i, k :: 0 <= i < |rules| && 0 <= k < |rules[i].words| ==> SolidEnds(rules[i].words[k])
  }

  /** Classification by such words does not see surrounding whitespace. */
  lemma {:induction false} ClassifyIgnoresStrip(rules: seq<Rule>, s: string)
    requires PlainWords(rules)
    ensures Classify(rules, Lower(Strip(s))) == Classify(rules, Lower(s))
    decreases |rules|
  {
    if rules != [] {
      var words := rules[0].words;
      forall k | 0 <= k < |words| ensures Contains(Lower(Strip(s)), words[k]) <==> Contains(Lower(s), words[k]) {
        StrippedWord(s, words[k]);
      }
      assert AnyWord(words, Lower(Strip(s))) <==> AnyWord(words, Lower(s));
      assert PlainWords(rules[1..]) by {
        forall i, k | 0 <= i < |rules[1..]| && 0 <= k < |rules[1..][i].words|
          ensures SolidEnds(rules[1..][i].words[k])
        {
          assert rules[1..][i] == rules[i + 1];
        }
      }
      ClassifyIgnoresStrip(rules[1..], s);
    }
  }

  lemma RulesArePlain()
    ensures PlainWords(Rules)
  {
    FirstRulesPlain();
    LastRulesPlain();
  }

  lemma FirstRulesPlain()
    ensures forall i, k :: 0 <= i < 4 && 0 <= k < |Rules[i].words| ==> SolidEnds(Rules[i].words[k])
  {
    assert forall k :: 0 <= k < |Rules[0].words| ==> SolidEnds(Rules[0].words[k]);
    assert forall k :: 0 <= k < |Rules[1].words| ==> SolidEnds(Rules[1].words[k]);
    assert forall k :: 0 <= k < |Rules[2].words| ==> SolidEnds(Rules[2].words[k]);
    assert forall k :: 0 <= k < |Rules[3].words| ==> SolidEnds(Rules[3].words[k]);
  }

  lemma LastRulesPlain()
    ensures forall i, k :: 4 <= i < 9 && 0 <= k < |Rules[i].words| ==> SolidEnds(Rules[i].words[k])
  {
    assert forall k :: 0 <= k < |Rules[4].words| ==> SolidEnds(Rules[4].words[k]);
    assert forall k :: 0 <= k < |Rules[5].words| ==> SolidEnds(Rules[5].words[k]);
    assert forall k :: 0 <= k < |Rules[6].words| ==> SolidEnds(Rules[6].words[k]);
    assert forall k :: 0 <= k < |Rules[7].words| ==> SolidEnds(Rules[7].words[k]);
    assert forall k :: 0 <= k < |Rules[8].words| ==> SolidEnds(Rules[8].words[k]);
  }

  /** Stripping the tags before classifying them changes nothing. */
  lemma CategoryIgnoresStrip(s: string)
    ensures ExtractCategory(Text(Strip(s))) == ExtractCategory(Text(s))
  {
    ExtractCategoryFollowsRules(Text(Strip(s)));
    ExtractCategoryFollowsRules(Text(s));
    RulesArePlain();
    ClassifyIgnoresStrip(Rules, s);
  }

  /** Tags naming both a farmer and a student go to agriculture: the earlier test wins. */
  lemma FarmerBeforeStudent()
    ensures ExtractCategory(Text("Farmer Student")) == AgricultureCategory
  {
    var tags := Lower("Farmer Student");
    assert "farmer" == [tags[0], tags[1], tags[2], tags[3], tags[4], tags[5]];
    OccursAtChars(tags, "farmer", 0);
  }

  /** Matching is case-insensitive: "Children" contains "child". */
  lemma ChildrenIsWomenAndChild()
    ensures ExtractCategory(Text("Children")) == WomenChildCategory
  {
    var tags := Lower("Children");
    assert tags == "children";
    AbsentChar(tags, "farmer", 0);
    AbsentChar(tags, "agriculture", 0);
    AbsentChar(tags, "rural", 1);
    AbsentChar(tags, "education", 2);
    AbsentChar(tags, "student", 0);
    AbsentChar(tags, "learning", 2);
    assert "child" == tags[..5];
    OccursAtChars(tags, "child", 0);
  }

  /** A missing tags cell reads as "nan", which no test matches. */
  lemma MissingTagsDefault()
    ensures ExtractCategory(Missing) == DefaultCategory
  {
    var tags := Lower("nan");
    assert tags == "nan";
    AbsentChar(tags, "job", 0);
  }

  /** The keys of the category icon table in frontend/src/components/Categories/Categories.tsx. */
  const CategoryIconKeys: set<string> := {
    "Social welfare & Empowerment", "Agriculture, Rural & Environment", "Education & Learning",
    "Women and Child", "Transport & Infrastructure", "Business & Entrepreneurship",
    "Health & Wellness", "Skills & Employment", "Housing & Shelter",
    "Banking, Financial Services and Insurance"
  }

  /** Every category the importer stores has an icon on the categories page. */
  lemma CategoriesHaveIcons(c: Cell)
    ensures ExtractCategory(c) in CategoryIconKeys
  {
    assert Categories == CategoryIconKeys;
  }

  /** A CSV row: column name to cell; a column the file lacks reads as "". */
  type CsvRow = map<string, Cell>

  function Get(row: CsvRow, column: string): string {
    if column in row then Stringify(row[column]) else ""
  }

  /** The record inserted for one CSV row (the database assigns the id). */
  datatype ImportedScheme = ImportedScheme(
    name: Trilingual,
    description: Trilingual,
    eligibility: Trilingual,
    benefits: Trilingual,
    applicationProcess: Trilingual,
    officialLink: string,
    beneficiaryTags: string,
    schemeType: string,
    category: string)

  function Field(row: CsvRow, column: string): (r: string)
    ensures r != [] ==> !IsSpace(r[0]) && !IsSpace(r[|r| - 1])
  {
    Strip(Get(row, column))
  }

  function Columns(row: CsvRow, heading: string): Trilingual {
    Trilingual(Field(row, heading + " (EN)"), Field(row, heading + " (TE)"), Field(row, heading + " (HI)"))
  }

  /** The per-row mapping of `import_schemes`: every text field is the stripped cell and
      the category comes from the raw tags cell; the stored category is the one the
      stored tags would get. */
  function ImportRow(row: CsvRow): (r: ImportedScheme)
    ensures r.category in Categories
    ensures r.category == ExtractCategory(Text(r.beneficiaryTags))
  {
    var tags := if "Beneficiary Tags" in row then row["Beneficiary Tags"] else Text("");
    var category := ExtractCategory(tags);
    assert Stringify(tags) == Get(row, "Beneficiary Tags");
    CategoryIgnoresStrip(Stringify(tags));
    assert Stringify(Text(Field(row, "Beneficiary Tags"))) == Strip(Stringify(tags));
    ImportedScheme(
      Columns(row, "Scheme Name"),
      Columns(row, "Description"),
      Columns(row, "Eligibility"),
      Columns(row, "Benefits"),
      Columns(row, "Application Process"),
      Field(row, "Official Link"),
      Field(row, "Beneficiary Tags"),
      Field(row, "Scheme Type"),
      category)
  }

  /** The rows handed to the bulk insert, one per CSV row in file order. */
  function ImportRows(rows: seq<CsvRow>): (r: seq<ImportedScheme>)
    ensures |r| == |rows| && forall i :: 0 <= i < |rows| ==> r[i] == ImportRow(rows[i])
  {
    seq(|rows|, i requires 0 <= i < |rows| => ImportRow(rows[i]))
  }
}
