/** The scheme endpoints of the backend (`/api/schemes`): the relevance scorer, the
    eligibility check (filter builder, AND query with OR fallback, ranking and
    truncation), the statistics counts and the search parameters. */
module Schemes {
  import opened Wrappers
  import opened Text
  import opened Sorting
  import opened SchemeData

  /** The request body of `POST /check-eligibility`; every field may be omitted. */
  datatype EligibilityRequest = EligibilityRequest(
    gender: Option<string>,
    age: Option<int>,
    occupation: Option<string>,
    location: Option<string>,
    caste: Option<string>,
    disability: Option<bool>,
    minority: Option<bool>,
    annualIncome: Option<int>)

  const EmptyProfile := EligibilityRequest(None, None, None, None, None, None, None, None)

  // Python truthiness of the optional fields: `None`, `""`, `0` and `False` are false.
  predicate Given(o: Option<string>) { o.Some? && o.value != "" }
  predicate NonZero(o: Option<int>) { o.Some? && o.value != 0 }
  predicate IsSet(o: Option<bool>) { o.Some? && o.value }

  // ---------------------------------------------------------------------------------
  // calculate_relevance: one bonus per matched criterion, on the lower-cased tags `tl`.

  function GenderBonus(req: EligibilityRequest, tl: string): nat {
    if Given(req.gender) && Contains(tl, Lower(req.gender.value)) then 20 else 0
  }

  function AgeBonus(req: EligibilityRequest, tl: string): nat {
    if !NonZero(req.age) then 0
    else
      var age := req.age.value;
      if age < 18 && (Contains(tl, "child") || Contains(tl, "student") || Contains(tl, "minor")) then 25
      else if 18 <= age <= 35 && (Contains(tl, "youth") || Contains(tl, "young")) then 25
      else if age >= 60 && (Contains(tl, "senior") || Contains(tl, "elderly")) then 25
      else 0
  }

  function OccupationBonus(req: EligibilityRequest, tl: string): nat {
    if Given(req.occupation) && Contains(tl, Lower(req.occupation.value)) then 30 else 0
  }

  function LocationBonus(req: EligibilityRequest, tl: string): nat {
    if Given(req.location) && Contains(tl, Lower(req.location.value)) then 15 else 0
  }

  function CasteBonus(req: EligibilityRequest, tl: string): nat {
    if Given(req.caste) && Contains(tl, Lower(req.caste.value)) then 20 else 0
  }

  function DisabilityBonus(req: EligibilityRequest, tl: string): nat {
    if IsSet(req.disability) && (Contains(tl, "disability") || Contains(tl, "divyang")) then 30 else 0
  }

  function MinorityBonus(req: EligibilityRequest, tl: string): nat {
    if IsSet(req.minority) && Contains(tl, "minority") then 30 else 0
  }

  function IncomeBonus(req: EligibilityRequest, tl: string): nat {
    if req.annualIncome.None? then 0
    else
      var income := req.annualIncome.value;
      if income < 100000 && (Contains(tl, "bpl") || Contains(tl, "poor")) then 25
      else if income < 300000 && Contains(tl, "ews") then 25
      else 0
  }

  function UniversalBonus(tl: string): nat {
    if Contains(tl, "all") then 5 else 0
  }

  /** How relevant a scheme with these beneficiary tags is to the profile. The score is
      bounded by the sum of all nine bonuses. */
  function CalculateRelevance(tags: string, req: EligibilityRequest): (score: nat)
    ensures score <= 20 + 25 + 30 + 15 + 20 + 30 + 30 + 25 + 5
  {
    var tl := Lower(tags);
    GenderBonus(req, tl) + AgeBonus(req, tl) + OccupationBonus(req, tl) + LocationBonus(req, tl)
    + CasteBonus(req, tl) + DisabilityBonus(req, tl) + MinorityBonus(req, tl) + IncomeBonus(req, tl)
    + UniversalBonus(tl)
  }

  /** The bound is reached: a full profile scores 200 on any scheme whose tags name
      every matched word. */
  lemma RelevanceBoundReached(tags: string)
    requires Contains(Lower(tags), "female") && Contains(Lower(tags), "child") && Contains(Lower(tags), "farmer")
    requires Contains(Lower(tags), "rural") && Contains(Lower(tags), "sc") && Contains(Lower(tags), "disability")
    requires Contains(Lower(tags), "minority") && Contains(Lower(tags), "bpl") && Contains(Lower(tags), "all")
    ensures CalculateRelevance(tags, EligibilityRequest(Some("Female"), Some(10), Some("Farmer"), Some("Rural"),
      Some("SC"), Some(true), Some(true), Some(50000))) == 200
  {
    assert Lower("Female") == "female" && Lower("Farmer") == "farmer";
    assert Lower("Rural") == "rural" && Lower("SC") == "sc";
  }

  /** The age block and the income block each add 0 or 25; ages 36 to 59 add nothing. */
  lemma AgeAndIncomeBlocks(req: EligibilityRequest, tags: string)
    ensures AgeBonus(req, Lower(tags)) in {0, 25}
    ensures IncomeBonus(req, Lower(tags)) in {0, 25}
    ensures req.age.Some? && 36 <= req.age.value <= 59 ==> AgeBonus(req, Lower(tags)) == 0
    ensures req.annualIncome.Some? && req.annualIncome.value >= 300000 ==> IncomeBonus(req, Lower(tags)) == 0
  {
  }

  /** An income under 100000 without a "bpl"/"poor" tag still earns the income bonus
      through the EWS branch. */
  lemma LowIncomeFallsToEws(req: EligibilityRequest, tags: string)
    requires req.annualIncome.Some? && req.annualIncome.value < 100000
    requires Contains(Lower(tags), "ews")
    ensures IncomeBonus(req, Lower(tags)) == 25
  {
  }

  /** With an empty profile only the universal bonus remains. */
  lemma EmptyProfileRelevance(tags: string)
    ensures CalculateRelevance(tags, EmptyProfile) == if Contains(Lower(tags), "all") then 5 else 0
  {
  }

  /** Matching lower-cases both sides, so the case of the tags does not matter. */
  lemma RelevanceIgnoresCase(tags: string, req: EligibilityRequest)
    ensures CalculateRelevance(Lower(tags), req) == CalculateRelevance(tags, req)
  {
    LowerIdempotent(tags);
  }

  // ---------------------------------------------------------------------------------
  // The criteria a profile activates, in the order the filter builder visits them,
  // and what each one demands of a row's tags.

  datatype Criterion =
    | Gender(gender: string)
    | AgeChild
    | AgeYouth
    | AgeSenior
    | Occupation(occupation: string)
    | Location(location: string)
    | Caste(caste: string)
    | Disability
    | Minority
    | IncomeBpl
    | IncomeEws

  function GenderCriteria(req: EligibilityRequest): seq<Criterion> {
    if Given(req.gender) then [Gender(req.gender.value)] else []
  }

  function AgeCriteria(req: EligibilityRequest): seq<Criterion> {
    if !NonZero(req.age) then []
    else if req.age.value < 18 then [AgeChild]
    else if 18 <= req.age.value <= 35 then [AgeYouth]
    else if req.age.value >= 60 then [AgeSenior]
    else []
  }

  function OccupationCriteria(req: EligibilityRequest): seq<Criterion> {
    if Given(req.occupation) && req.occupation.value != "Other" then [Occupation(req.occupation.value)] else []
  }

  function LocationCriteria(req: EligibilityRequest): seq<Criterion> {
    if Given(req.location) then [Location(req.location.value)] else []
  }

  function CasteCriteria(req: EligibilityRequest): seq<Criterion> {
    if Given(req.caste) && req.caste.value != "General" then [Caste(req.caste.value)] else []
  }

  function DisabilityCriteria(req: EligibilityRequest): seq<Criterion> {
    if IsSet(req.disability) then [Disability] else []
  }

  function MinorityCriteria(req: EligibilityRequest): seq<Criterion> {
    if IsSet(req.minority) then [Minority] else []
  }

  function IncomeCriteria(req: EligibilityRequest): seq<Criterion> {
    if req.annualIncome.None? then []
    else if req.annualIncome.value < 100000 then [IncomeBpl]
    else if req.annualIncome.value < 300000 then [IncomeEws]
    else []
  }

  /** The active criteria: at most one per field of the profile. */
  function ActiveCriteria(req: EligibilityRequest): (cs: seq<Criterion>)
    ensures |cs| <= 8
  {
    GenderCriteria(req) + AgeCriteria(req) + OccupationCriteria(req) + LocationCriteria(req)
    + CasteCriteria(req) + DisabilityCriteria(req) + MinorityCriteria(req) + IncomeCriteria(req)
  }

  /** The profile values that activate no criterion. */
  lemma InactiveValues(req: EligibilityRequest)
    ensures AgeCriteria(req) == [] <==> !NonZero(req.age) || 36 <= req.age.value <= 59
    ensures OccupationCriteria(req) == [] <==> !Given(req.occupation) || req.occupation.value == "Other"
    ensures CasteCriteria(req) == [] <==> !Given(req.caste) || req.caste.value == "General"
    ensures IncomeCriteria(req) == [] <==> req.annualIncome.None? || req.annualIncome.value >= 300000
    ensures ActiveCriteria(EmptyProfile) == []
  {
  }

  /** What a criterion demands of a row's beneficiary tags (case-insensitively). */
  predicate Satisfies(c: Criterion, tags: string) {
    var tl := Lower(tags);
    match c
    case Gender(g) => Contains(tl, Lower(g)) || Contains(tl, "all")
    case AgeChild => Contains(tl, "child") || Contains(tl, "student") || Contains(tl, "minor")
    case AgeYouth => Contains(tl, "youth") || Contains(tl, "young")
    case AgeSenior => Contains(tl, "senior") || Contains(tl, "elderly")
    case Occupation(o) => Contains(tl, Lower(o))
    case Location(l) => Contains(tl, Lower(l)) || Contains(tl, "all")
    case Caste(k) => Contains(tl, Lower(k)) || Contains(tl, "backward")
    case Disability => Contains(tl, "disability") || Contains(tl, "divyang")
    case Minority => Contains(tl, "minority")
    case IncomeBpl => Contains(tl, "bpl") || Contains(tl, "poor")
    case IncomeEws => Contains(tl, "ews")
  }

  predicate MatchesAll(cs: seq<Criterion>, tags: string) {
    forall k :: 0 <= k < |cs| ==> Satisfies(cs[k], tags)
  }

  predicate MatchesAny(cs: seq<Criterion>, tags: string) {
    exists k :: 0 <= k < |cs| && Satisfies(cs[k], tags)
  }

  // ---------------------------------------------------------------------------------
  // The SQL the filter builder emits: each filter is a disjunction of `beneficiary_tags
  // ILIKE ...` tests against a bound parameter or a literal pattern.

  datatype Alt = Param(name: string) | Pattern(pattern: string)

  type Filter = seq<Alt>

  /** The parameter name `filter{index}{suffix}`. */
  function Key(index: nat, suffix: string): string {
    "filter" + NatToString(index) + suffix
  }

  predicate AltHolds(a: Alt, params: map<string, string>, tags: string) {
    match a
    case Param(n) => n in params && ILike(tags, params[n])
    case Pattern(p) => ILike(tags, p)
  }

  predicate FilterHolds(f: Filter, params: map<string, string>, tags: string) {
    exists a :: a in f && AltHolds(a, params, tags)
  }

  /** `WHERE (f0) AND (f1) AND ...` */
  predicate AllHold(fs: seq<Filter>, params: map<string, string>, tags: string) {
    forall k :: 0 <= k < |fs| ==> FilterHolds(fs[k], params, tags)
  }

  /** `WHERE (f0) OR (f1) OR ...` */
  predicate AnyHolds(fs: seq<Filter>, params: map<string, string>, tags: string) {
    exists k :: 0 <= k < |fs| && FilterHolds(fs[k], params, tags)
  }

  /** The filter text the builder appends for a criterion at position `i`. */
  function FilterOf(c: Criterion, i: nat): Filter {
    match c
    case Gender(_) => [Param(Key(i, "")), Pattern("%All%")]
    case AgeChild => [Param(Key(i, "1")), Param(Key(i, "2")), Param(Key(i, "3"))]
    case AgeYouth => [Param(Key(i, "1")), Param(Key(i, "2"))]
    case AgeSenior => [Param(Key(i, "1")), Param(Key(i, "2"))]
    case Occupation(_) => [Param(Key(i, ""))]
    case Location(_) => [Param(Key(i, "")), Pattern("%All%")]
    case Caste(_) => [Param(Key(i, "1")), Param(Key(i, "2"))]
    case Disability => [Param(Key(i, "1")), Param(Key(i, "2"))]
    case Minority => [Param(Key(i, ""))]
    case IncomeBpl => [Param(Key(i, "1")), Param(Key(i, "2"))]
    case IncomeEws => [Param(Key(i, ""))]
  }

  /** The parameters the builder binds for a criterion at position `i`. The caste value
      is bound without lower-casing; `ILIKE` makes that immaterial. */
  function ParamsOf(c: Criterion, i: nat): map<string, string> {
    match c
    case Gender(g) => map[Key(i, "") := "%" + Lower(g) + "%"]
    case AgeChild => map[Key(i, "1") := "%Child%", Key(i, "2") := "%Student%", Key(i, "3") := "%Minor%"]
    case AgeYouth => map[Key(i, "1") := "%Youth%", Key(i, "2") := "%Young%"]
    case AgeSenior => map[Key(i, "1") := "%Senior%", Key(i, "2") := "%Elderly%"]
    case Occupation(o) => map[Key(i, "") := "%" + Lower(o) + "%"]
    case Location(l) => map[Key(i, "") := "%" + Lower(l) + "%"]
    case Caste(k) => map[Key(i, "1") := "%" + k + "%", Key(i, "2") := "%Backward%"]
    case Disability => map[Key(i, "1") := "%Disability%", Key(i, "2") := "%Divyang%"]
    case Minority => map[Key(i, "") := "%Minority%"]
    case IncomeBpl => map[Key(i, "1") := "%BPL%", Key(i, "2") := "%Poor%"]
    case IncomeEws => map[Key(i, "") := "%EWS%"]
  }

  function Filters(cs: seq<Criterion>): (fs: seq<Filter>)
    ensures |fs| == |cs|
    decreases |cs|
  {
    if cs == [] then [] else Filters(cs[..|cs| - 1]) + [FilterOf(cs[|cs| - 1], |cs| - 1)]
  }

  function Params(cs: seq<Criterion>): map<string, string>
    decreases |cs|
  {
    if cs == [] then map[] else Params(cs[..|cs| - 1]) + ParamsOf(cs[|cs| - 1], |cs| - 1)
  }

  lemma FiltersSnoc(cs: seq<Criterion>, c: Criterion)
    ensures Filters(cs + [c]) == Filters(cs) + [FilterOf(c, |cs|)]
    ensures Params(cs + [c]) == Params(cs) + ParamsOf(c, |cs|)
  {
    FiltersAppend(cs, c);
    ParamsAppend(cs, c);
  }

  lemma FiltersAppend(cs: seq<Criterion>, c: Criterion)
    ensures Filters(cs + [c]) == Filters(cs) + [FilterOf(c, |cs|)]
  {
    var ds := cs + [c];
    assert ds[..|ds| - 1] == cs;
    assert Filters(ds) == Filters(ds[..|ds| - 1]) + [FilterOf(ds[|ds| - 1], |ds| - 1)];
  }

  lemma ParamsAppend(cs: seq<Criterion>, c: Criterion)
    ensures Params(cs + [c]) == Params(cs) + ParamsOf(c, |cs|)
  {
    var ds := cs + [c];
    assert ds[..|ds| - 1] == cs;
    assert Params(ds) == Params(ds[..|ds| - 1]) + ParamsOf(ds[|ds| - 1], |ds| - 1);
  }

  lemma {:induction false} FiltersAt(cs: seq<Criterion>, k: nat)
    requires k < |cs|
    ensures Filters(cs)[k] == FilterOf(cs[k], k)
    decreases |cs|
  {
    if k < |cs| - 1 {
      FiltersAt(cs[..|cs| - 1], k);
    }
  }

  predicate IsSuffix(s: string) {
    s == "" || s == "1" || s == "2" || s == "3"
  }

  /** Single-digit indices with the suffixes in use never produce the same name twice. */
  lemma KeyInjective(i: nat, s: string, j: nat, t: string)
    requires i < 10 && j < 10 && IsSuffix(s) && IsSuffix(t)
    requires Key(i, s) == Key(j, t)
    ensures i == j && s == t
  {
    assert Key(i, s)[6] == Key(j, t)[6];
    assert |Key(i, s)| == |Key(j, t)|;
    if s != "" {
      assert Key(i, s)[7] == Key(j, t)[7];
    }
  }

  /** The suffixed names of one filter differ in their last character. */
  lemma SuffixedKeysDistinct(i: nat)
    ensures Key(i, "1") != Key(i, "2") && Key(i, "1") != Key(i, "3") && Key(i, "2") != Key(i, "3")
  {
    var n1, n2, n3 := Key(i, "1"), Key(i, "2"), Key(i, "3");
    assert n1[|n1| - 1] == '1' && n2[|n2| - 1] == '2' && n3[|n3| - 1] == '3';
  }

  lemma KeysOfCriterion(c: Criterion, i: nat, n: string)
    requires n in ParamsOf(c, i)
    ensures exists s :: IsSuffix(s) && n == Key(i, s)
  {
    var s :| s in {"", "1", "2", "3"} && n == Key(i, s);
  }

  /** Later criteria never overwrite the parameters of an earlier one, so every
      parameter keeps the value bound for its own criterion. */
  lemma {:induction false} ParamsLookup(cs: seq<Criterion>, k: nat, n: string)
    requires |cs| <= 10 && k < |cs|
    requires n in ParamsOf(cs[k], k)
    ensures n in Params(cs) && Params(cs)[n] == ParamsOf(cs[k], k)[n]
    decreases |cs|
  {
    var last := |cs| - 1;
    if k < last {
      ParamsLookup(cs[..last], k, n);
      if n in ParamsOf(cs[last], last) {
        KeysOfCriterion(cs[k], k, n);
        KeysOfCriterion(cs[last], last, n);
        var s :| IsSuffix(s) && n == Key(k, s);
        var t :| IsSuffix(t) && n == Key(last, t);
        KeyInjective(k, s, last, t);
      }
    }
  }

  /** Every name a parameter map binds is one of its criterion's keys. */
  lemma {:induction false} ParamsKeys(cs: seq<Criterion>, n: string)
    requires n in Params(cs)
    ensures exists k :: 0 <= k < |cs| && n in ParamsOf(cs[k], k)
    decreases |cs|
  {
    var last := |cs| - 1;
    if n !in ParamsOf(cs[last], last) {
      ParamsKeys(cs[..last], n);
    }
  }

  /** Every placeholder of a filter is bound to the pattern of its criterion. */
  lemma PlaceholdersBound(c: Criterion, i: nat)
    ensures forall a :: a in FilterOf(c, i) && a.Param? ==> a.name in ParamsOf(c, i)
  {
  }

  lemma Holds1(a: Alt, params: map<string, string>, tags: string)
    ensures FilterHolds([a], params, tags) <==> AltHolds(a, params, tags)
  {
    assert a in [a];
  }

  lemma Holds2(a: Alt, b: Alt, params: map<string, string>, tags: string)
    ensures FilterHolds([a, b], params, tags) <==> AltHolds(a, params, tags) || AltHolds(b, params, tags)
  {
    assert a in [a, b] && b in [a, b];
  }

  lemma Holds3(a: Alt, b: Alt, c: Alt, params: map<string, string>, tags: string)
    ensures FilterHolds([a, b, c], params, tags)
      <==> AltHolds(a, params, tags) || AltHolds(b, params, tags) || AltHolds(c, params, tags)
  {
    assert a in [a, b, c] && b in [a, b, c] && c in [a, b, c];
  }

  /** A fixed pattern `%w%` is a case-insensitive test for `w`. */
  lemma FixedPattern(tags: string, pattern: string, w: string, lw: string)
    requires pattern == "%" + w + "%" && Lower(w) == lw
    ensures ILike(tags, pattern) <==> Contains(Lower(tags), lw)
  {
    ILikeWrapped(tags, w);
  }

  /** A placeholder bound to `%x%` tests the tags for `x`, case-insensitively. */
  lemma BoundParam(n: string, x: string, params: map<string, string>, tags: string)
    requires n in params && params[n] == "%" + x + "%"
    ensures AltHolds(Param(n), params, tags) <==> Contains(Lower(tags), Lower(x))
  {
    ILikeWrapped(tags, x);
  }

  /** A filter built from a profile value: the value's own pattern, possibly or'ed with
      a fixed pattern. */
  lemma ValueFilterMeaning(c: Criterion, i: nat, params: map<string, string>, tags: string)
    requires c.Gender? || c.Occupation? || c.Location? || c.Caste?
    requires forall n :: n in ParamsOf(c, i) ==> n in params && params[n] == ParamsOf(c, i)[n]
    ensures FilterHolds(FilterOf(c, i), params, tags) <==> Satisfies(c, tags)
  {
    match c
    case Gender(_) => ValueOrAllMeaning(c, i, params, tags);
    case Location(_) => ValueOrAllMeaning(c, i, params, tags);
    case Occupation(o) => OccupationFilterMeaning(o, i, params, tags);
    case Caste(x) => CasteFilterMeaning(x, i, params, tags);
  }

  /** The gender and location filters: the value's pattern or the fixed `%All%`. */
  lemma ValueOrAllMeaning(c: Criterion, i: nat, params: map<string, string>, tags: string)
    requires c.Gender? || c.Location?
    requires forall n :: n in ParamsOf(c, i) ==> n in params && params[n] == ParamsOf(c, i)[n]
    ensures FilterHolds(FilterOf(c, i), params, tags) <==> Satisfies(c, tags)
  {
    FixedPattern(tags, "%All%", "All", "all");
    var k := Key(i, "");
    var v := if c.Gender? then c.gender else c.location;
    assert k in ParamsOf(c, i);
    LowerIdempotent(v);
    BoundParam(k, Lower(v), params, tags);
    Holds2(Param(k), Pattern("%All%"), params, tags);
  }

  lemma OccupationFilterMeaning(o: string, i: nat, params: map<string, string>, tags: string)
    requires forall n :: n in ParamsOf(Occupation(o), i) ==> n in params && params[n] == ParamsOf(Occupation(o), i)[n]
    ensures FilterHolds(FilterOf(Occupation(o), i), params, tags) <==> Satisfies(Occupation(o), tags)
  {
    var k := Key(i, "");
    assert k in ParamsOf(Occupation(o), i);
    LowerIdempotent(o);
    BoundParam(k, Lower(o), params, tags);
    Holds1(Param(k), params, tags);
  }

  lemma CasteFilterMeaning(x: string, i: nat, params: map<string, string>, tags: string)
    requires forall n :: n in ParamsOf(Caste(x), i) ==> n in params && params[n] == ParamsOf(Caste(x), i)[n]
    ensures FilterHolds(FilterOf(Caste(x), i), params, tags) <==> Satisfies(Caste(x), tags)
  {
    var k1, k2 := Key(i, "1"), Key(i, "2");
    SuffixedKeysDistinct(i);
    assert k1 in ParamsOf(Caste(x), i) && k2 in ParamsOf(Caste(x), i);
    BoundParam(k1, x, params, tags);
    FixedPattern(tags, "%Backward%", "Backward", "backward");
    Holds2(Param(k1), Param(k2), params, tags);
  }

  /** The child-age filter: three fixed patterns. */
  lemma ChildFilterMeaning(i: nat, params: map<string, string>, tags: string)
    requires forall n :: n in ParamsOf(AgeChild, i) ==> n in params && params[n] == ParamsOf(AgeChild, i)[n]
    ensures FilterHolds(FilterOf(AgeChild, i), params, tags) <==> Satisfies(AgeChild, tags)
  {
    SuffixedKeysDistinct(i);
    var k1, k2, k3 := Key(i, "1"), Key(i, "2"), Key(i, "3");
    FixedPattern(tags, "%Child%", "Child", "child");
    FixedPattern(tags, "%Student%", "Student", "student");
    FixedPattern(tags, "%Minor%", "Minor", "minor");
    assert k1 in ParamsOf(AgeChild, i) && k2 in ParamsOf(AgeChild, i) && k3 in ParamsOf(AgeChild, i);
    Holds3(Param(k1), Param(k2), Param(k3), params, tags);
  }

  /** The youth and senior filters: two fixed patterns each. */
  lemma AgeFilterMeaning(c: Criterion, i: nat, params: map<string, string>, tags: string)
    requires c.AgeYouth? || c.AgeSenior?
    requires forall n :: n in ParamsOf(c, i) ==> n in params && params[n] == ParamsOf(c, i)[n]
    ensures FilterHolds(FilterOf(c, i), params, tags) <==> Satisfies(c, tags)
  {
    if c.AgeYouth? {
      FixedPattern(tags, "%Youth%", "Youth", "youth");
      FixedPattern(tags, "%Young%", "Young", "young");
    } else {
      FixedPattern(tags, "%Senior%", "Senior", "senior");
      FixedPattern(tags, "%Elderly%", "Elderly", "elderly");
    }
    SuffixedKeysDistinct(i);
    var k1, k2 := Key(i, "1"), Key(i, "2");
    assert k1 in ParamsOf(c, i) && k2 in ParamsOf(c, i);
    Holds2(Param(k1), Param(k2), params, tags);
  }

  /** The disability and minority filters: fixed patterns only. */
  lemma NeedFilterMeaning(c: Criterion, i: nat, params: map<string, string>, tags: string)
    requires c.Disability? || c.Minority?
    requires forall n :: n in ParamsOf(c, i) ==> n in params && params[n] == ParamsOf(c, i)[n]
    ensures FilterHolds(FilterOf(c, i), params, tags) <==> Satisfies(c, tags)
  {
    var k, k1, k2 := Key(i, ""), Key(i, "1"), Key(i, "2");
    if c.Disability? {
      SuffixedKeysDistinct(i);
      FixedPattern(tags, "%Disability%", "Disability", "disability");
      FixedPattern(tags, "%Divyang%", "Divyang", "divyang");
      assert k1 in ParamsOf(c, i) && k2 in ParamsOf(c, i);
      Holds2(Param(k1), Param(k2), params, tags);
    } else {
      FixedPattern(tags, "%Minority%", "Minority", "minority");
      assert k in ParamsOf(c, i);
      Holds1(Param(k), params, tags);
    }
  }

  /** The two income filters: fixed patterns only. */
  lemma IncomeFilterMeaning(c: Criterion, i: nat, params: map<string, string>, tags: string)
    requires c.IncomeBpl? || c.IncomeEws?
    requires forall n :: n in ParamsOf(c, i) ==> n in params && params[n] == ParamsOf(c, i)[n]
    ensures FilterHolds(FilterOf(c, i), params, tags) <==> Satisfies(c, tags)
  {
    var k, k1, k2 := Key(i, ""), Key(i, "1"), Key(i, "2");
    if c.IncomeBpl? {
      SuffixedKeysDistinct(i);
      FixedPattern(tags, "%BPL%", "BPL", "bpl");
      FixedPattern(tags, "%Poor%", "Poor", "poor");
      assert k1 in ParamsOf(c, i) && k2 in ParamsOf(c, i);
      Holds2(Param(k1), Param(k2), params, tags);
    } else {
      FixedPattern(tags, "%EWS%", "EWS", "ews");
      assert k in ParamsOf(c, i);
      Holds1(Param(k), params, tags);
    }
  }

  /** A filter, evaluated with its own parameters, holds exactly when the tags satisfy
      its criterion. */
  lemma FilterMeaning(c: Criterion, i: nat, params: map<string, string>, tags: string)
    requires forall n :: n in ParamsOf(c, i) ==> n in params && params[n] == ParamsOf(c, i)[n]
    ensures FilterHolds(FilterOf(c, i), params, tags) <==> Satisfies(c, tags)
  {
    if c.Gender? || c.Occupation? || c.Location? || c.Caste? {
      ValueFilterMeaning(c, i, params, tags);
    } else if c.AgeChild? {
      ChildFilterMeaning(i, params, tags);
    } else if c.AgeYouth? || c.AgeSenior? {
      AgeFilterMeaning(c, i, params, tags);
    } else if c.Disability? || c.Minority? {
      NeedFilterMeaning(c, i, params, tags);
    } else {
      IncomeFilterMeaning(c, i, params, tags);
    }
  }

  /** The whole filter list means the criteria list, position by position. */
  lemma FiltersMeaning(cs: seq<Criterion>, tags: string)
    requires |cs| <= 10
    ensures forall k :: 0 <= k < |cs| ==>
      (FilterHolds(Filters(cs)[k], Params(cs), tags) <==> Satisfies(cs[k], tags))
    ensures AllHold(Filters(cs), Params(cs), tags) <==> MatchesAll(cs, tags)
    ensures AnyHolds(Filters(cs), Params(cs), tags) <==> MatchesAny(cs, tags)
  {
    forall k | 0 <= k < |cs|
      ensures FilterHolds(Filters(cs)[k], Params(cs), tags) <==> Satisfies(cs[k], tags)
    {
      FiltersAt(cs, k);
      forall n | n in ParamsOf(cs[k], k)
        ensures n in Params(cs) && Params(cs)[n] == ParamsOf(cs[k], k)[n]
      {
        ParamsLookup(cs, k, n);
      }
      FilterMeaning(cs[k], k, Params(cs), tags);
    }
  }

  /** Criteria whose filter has a single placeholder, named without a suffix. */
  predicate SingleParam(c: Criterion) {
    c.Gender? || c.Occupation? || c.Location? || c.Minority? || c.IncomeEws?
  }

  /** The suffix of the `p`-th placeholder of a criterion's filter. */
  function Suffix(c: Criterion, p: nat): string {
    if SingleParam(c) then "" else if p == 0 then "1" else if p == 1 then "2" else "3"
  }

  lemma PlaceholderName(c: Criterion, i: nat, p: nat)
    requires p < |FilterOf(c, i)| && FilterOf(c, i)[p].Param?
    ensures FilterOf(c, i)[p].name == Key(i, Suffix(c, p)) && IsSuffix(Suffix(c, p))
    ensures SingleParam(c) ==> p == 0
    ensures p < 3
  {
  }

  /** The parameter names of all filters are pairwise distinct. */
  lemma ParamNamesDistinct(cs: seq<Criterion>)
    requires |cs| <= 10
    ensures forall k1, p1, k2, p2 ::
      0 <= k1 < |cs| && 0 <= k2 < |cs| && 0 <= p1 < |Filters(cs)[k1]| && 0 <= p2 < |Filters(cs)[k2]|
      && Filters(cs)[k1][p1].Param? && Filters(cs)[k2][p2].Param? && (k1, p1) != (k2, p2)
      ==> Filters(cs)[k1][p1].name != Filters(cs)[k2][p2].name
  {
    forall k1, p1, k2, p2 |
      0 <= k1 < |cs| && 0 <= k2 < |cs| && 0 <= p1 < |Filters(cs)[k1]| && 0 <= p2 < |Filters(cs)[k2]|
      && Filters(cs)[k1][p1].Param? && Filters(cs)[k2][p2].Param? && (k1, p1) != (k2, p2)
      ensures Filters(cs)[k1][p1].name != Filters(cs)[k2][p2].name
    {
      FiltersAt(cs, k1);
      FiltersAt(cs, k2);
      PlaceholderName(cs[k1], k1, p1);
      PlaceholderName(cs[k2], k2, p2);
      if Filters(cs)[k1][p1].name == Filters(cs)[k2][p2].name {
        KeyInjective(k1, Suffix(cs[k1], p1), k2, Suffix(cs[k2], p2));
      }
    }
  }

  lemma Put1(m: map<string, string>, k: string, v: string)
    ensures m[k := v] == m + map[k := v]
  {
  }

  lemma Put2(m: map<string, string>, k1: string, v1: string, k2: string, v2: string)
    requires k1 != k2
    ensures m[k1 := v1][k2 := v2] == m + map[k1 := v1, k2 := v2]
  {
  }

  lemma Put3(m: map<string, string>, k1: string, v1: string, k2: string, v2: string, k3: string, v3: string)
    requires k1 != k2 && k1 != k3 && k2 != k3
    ensures m[k1 := v1][k2 := v2][k3 := v3] == m + map[k1 := v1, k2 := v2, k3 := v3]
  {
  }

  /** The builder's state after visiting the criteria `cs`. */
  predicate Built(filters: seq<Filter>, params: map<string, string>, filterIndex: nat, cs: seq<Criterion>) {
    filters == Filters(cs) && params == Params(cs) && filterIndex == |cs|
  }

  // One step per block of the builder; each appends its filter and binds its parameters.

  method AddGender(req: EligibilityRequest, filters: seq<Filter>, params: map<string, string>, filterIndex: nat, ghost cs: seq<Criterion>)
    returns (filters': seq<Filter>, params': map<string, string>, filterIndex': nat)
    requires Built(filters, params, filterIndex, cs)
    ensures Built(filters', params', filterIndex', cs + GenderCriteria(req))
  {
    filters', params', filterIndex' := filters, params, filterIndex;
    if Given(req.gender) {
      var genderLower := Lower(req.gender.value);
      FiltersSnoc(cs, Gender(req.gender.value));
      Put1(params, Key(filterIndex, ""), "%" + genderLower + "%");
      filters' := filters + [[Param(Key(filterIndex, "")), Pattern("%All%")]];
      params' := params[Key(filterIndex, "") := "%" + genderLower + "%"];
      filterIndex' := filterIndex + 1;
    } else {
      assert cs + [] == cs;
    }
  }

  method AddAge(req: EligibilityRequest, filters: seq<Filter>, params: map<string, string>, filterIndex: nat, ghost cs: seq<Criterion>)
    returns (filters': seq<Filter>, params': map<string, string>, filterIndex': nat)
    requires Built(filters, params, filterIndex, cs)
    ensures Built(filters', params', filterIndex', cs + AgeCriteria(req))
  {
    filters', params', filterIndex' := filters, params, filterIndex;
    assert cs + [] == cs;
    if NonZero(req.age) {
      var age := req.age.value;
      SuffixedKeysDistinct(filterIndex);
      if age < 18 {
        FiltersSnoc(cs, AgeChild);
        Put3(params, Key(filterIndex, "1"), "%Child%", Key(filterIndex, "2"), "%Student%", Key(filterIndex, "3"), "%Minor%");
        filters' := filters + [[Param(Key(filterIndex, "1")), Param(Key(filterIndex, "2")), Param(Key(filterIndex, "3"))]];
        params' := params[Key(filterIndex, "1") := "%Child%"][Key(filterIndex, "2") := "%Student%"][Key(filterIndex, "3") := "%Minor%"];
        filterIndex' := filterIndex + 1;
      } else if age >= 18 && age <= 35 {
        FiltersSnoc(cs, AgeYouth);
        Put2(params, Key(filterIndex, "1"), "%Youth%", Key(filterIndex, "2"), "%Young%");
        filters' := filters + [[Param(Key(filterIndex, "1")), Param(Key(filterIndex, "2"))]];
        params' := params[Key(filterIndex, "1") := "%Youth%"][Key(filterIndex, "2") := "%Young%"];
        filterIndex' := filterIndex + 1;
      } else if age >= 60 {
        FiltersSnoc(cs, AgeSenior);
        Put2(params, Key(filterIndex, "1"), "%Senior%", Key(filterIndex, "2"), "%Elderly%");
        filters' := filters + [[Param(Key(filterIndex, "1")), Param(Key(filterIndex, "2"))]];
        params' := params[Key(filterIndex, "1") := "%Senior%"][Key(filterIndex, "2") := "%Elderly%"];
        filterIndex' := filterIndex + 1;
      }
    }
  }

  method AddOccupation(req: EligibilityRequest, filters: seq<Filter>, params: map<string, string>, filterIndex: nat, ghost cs: seq<Criterion>)
    returns (filters': seq<Filter>, params': map<string, string>, filterIndex': nat)
    requires Built(filters, params, filterIndex, cs)
    ensures Built(filters', params', filterIndex', cs + OccupationCriteria(req))
  {
    filters', params', filterIndex' := filters, params, filterIndex;
    if Given(req.occupation) && req.occupation.value != "Other" {
      var occupationLower := Lower(req.occupation.value);
      FiltersSnoc(cs, Occupation(req.occupation.value));
      Put1(params, Key(filterIndex, ""), "%" + occupationLower + "%");
      filters' := filters + [[Param(Key(filterIndex, ""))]];
      params' := params[Key(filterIndex, "") := "%" + occupationLower + "%"];
      filterIndex' := filterIndex + 1;
    } else {
      assert cs + [] == cs;
    }
  }

  method AddLocation(req: EligibilityRequest, filters: seq<Filter>, params: map<string, string>, filterIndex: nat, ghost cs: seq<Criterion>)
    returns (filters': seq<Filter>, params': map<string, string>, filterIndex': nat)
    requires Built(filters, params, filterIndex, cs)
    ensures Built(filters', params', filterIndex', cs + LocationCriteria(req))
  {
    filters', params', filterIndex' := filters, params, filterIndex;
    if Given(req.location) {
      var locationLower := Lower(req.location.value);
      FiltersSnoc(cs, Location(req.location.value));
      Put1(params, Key(filterIndex, ""), "%" + locationLower + "%");
      filters' := filters + [[Param(Key(filterIndex, "")), Pattern("%All%")]];
      params' := params[Key(filterIndex, "") := "%" + locationLower + "%"];
      filterIndex' := filterIndex + 1;
    } else {
      assert cs + [] == cs;
    }
  }

  method AddCaste(req: EligibilityRequest, filters: seq<Filter>, params: map<string, string>, filterIndex: nat, ghost cs: seq<Criterion>)
    returns (filters': seq<Filter>, params': map<string, string>, filterIndex': nat)
    requires Built(filters, params, filterIndex, cs)
    ensures Built(filters', params', filterIndex', cs + CasteCriteria(req))
  {
    filters', params', filterIndex' := filters, params, filterIndex;
    if Given(req.caste) && req.caste.value != "General" {
      var casteValue := req.caste.value;
      SuffixedKeysDistinct(filterIndex);
      FiltersSnoc(cs, Caste(casteValue));
      Put2(params, Key(filterIndex, "1"), "%" + casteValue + "%", Key(filterIndex, "2"), "%Backward%");
      filters' := filters + [[Param(Key(filterIndex, "1")), Param(Key(filterIndex, "2"))]];
      params' := params[Key(filterIndex, "1") := "%" + casteValue + "%"][Key(filterIndex, "2") := "%Backward%"];
      filterIndex' := filterIndex + 1;
    } else {
      assert cs + [] == cs;
    }
  }

  method AddDisability(req: EligibilityRequest, filters: seq<Filter>, params: map<string, string>, filterIndex: nat, ghost cs: seq<Criterion>)
    returns (filters': seq<Filter>, params': map<string, string>, filterIndex': nat)
    requires Built(filters, params, filterIndex, cs)
    ensures Built(filters', params', filterIndex', cs + DisabilityCriteria(req))
  {
    filters', params', filterIndex' := filters, params, filterIndex;
    if IsSet(req.disability) {
      SuffixedKeysDistinct(filterIndex);
      FiltersSnoc(cs, Disability);
      Put2(params, Key(filterIndex, "1"), "%Disability%", Key(filterIndex, "2"), "%Divyang%");
      filters' := filters + [[Param(Key(filterIndex, "1")), Param(Key(filterIndex, "2"))]];
      params' := params[Key(filterIndex, "1") := "%Disability%"][Key(filterIndex, "2") := "%Divyang%"];
      filterIndex' := filterIndex + 1;
    } else {
      assert cs + [] == cs;
    }
  }

  method AddMinority(req: EligibilityRequest, filters: seq<Filter>, params: map<string, string>, filterIndex: nat, ghost cs: seq<Criterion>)
    returns (filters': seq<Filter>, params': map<string, string>, filterIndex': nat)
    requires Built(filters, params, filterIndex, cs)
    ensures Built(filters', params', filterIndex', cs + MinorityCriteria(req))
  {
    filters', params', filterIndex' := filters, params, filterIndex;
    if IsSet(req.minority) {
      FiltersSnoc(cs, Minority);
      Put1(params, Key(filterIndex, ""), "%Minority%");
      filters' := filters + [[Param(Key(filterIndex, ""))]];
      params' := params[Key(filterIndex, "") := "%Minority%"];
      filterIndex' := filterIndex + 1;
    } else {
      assert cs + [] == cs;
    }
  }

  method AddIncome(req: EligibilityRequest, filters: seq<Filter>, params: map<string, string>, filterIndex: nat, ghost cs: seq<Criterion>)
    returns (filters': seq<Filter>, params': map<string, string>, filterIndex': nat)
    requires Built(filters, params, filterIndex, cs)
    ensures Built(filters', params', filterIndex', cs + IncomeCriteria(req))
  {
    filters', params', filterIndex' := filters, params, filterIndex;
    if req.annualIncome.Some? && req.annualIncome.value < 100000 {
      assert IncomeCriteria(req) == [IncomeBpl];
      SuffixedKeysDistinct(filterIndex);
      FiltersSnoc(cs, IncomeBpl);
      Put2(params, Key(filterIndex, "1"), "%BPL%", Key(filterIndex, "2"), "%Poor%");
      filters' := filters + [[Param(Key(filterIndex, "1")), Param(Key(filterIndex, "2"))]];
      params' := params[Key(filterIndex, "1") := "%BPL%"][Key(filterIndex, "2") := "%Poor%"];
      filterIndex' := filterIndex + 1;
    } else if req.annualIncome.Some? && req.annualIncome.value < 300000 {
      assert IncomeCriteria(req) == [IncomeEws];
      FiltersSnoc(cs, IncomeEws);
      Put1(params, Key(filterIndex, ""), "%EWS%");
      filters' := filters + [[Param(Key(filterIndex, ""))]];
      params' := params[Key(filterIndex, "") := "%EWS%"];
      filterIndex' := filterIndex + 1;
    } else {
      assert IncomeCriteria(req) == [];
      assert cs + [] == cs;
    }
  }

  /** The filter builder of `check_eligibility`: one filter per active criterion, its
      parameters bound under pairwise distinct names, and `filterIndex` counting them. */
  method BuildFilters(req: EligibilityRequest) returns (filters: seq<Filter>, params: map<string, string>, filterIndex: nat)
    ensures filters == Filters(ActiveCriteria(req)) && params == Params(ActiveCriteria(req))
    ensures filterIndex == |filters| == |ActiveCriteria(req)| <= 8
    ensures forall k, tags :: 0 <= k < |filters| ==>
      (FilterHolds(filters[k], params, tags) <==> Satisfies(ActiveCriteria(req)[k], tags))
  {
    filters, params, filterIndex := [], map[], 0;
    ghost var cs: seq<Criterion> := [];
    filters, params, filterIndex := AddGender(req, filters, params, filterIndex, cs);
    cs := cs + GenderCriteria(req);
    filters, params, filterIndex := AddAge(req, filters, params, filterIndex, cs);
    cs := cs + AgeCriteria(req);
    filters, params, filterIndex := AddOccupation(req, filters, params, filterIndex, cs);
    cs := cs + OccupationCriteria(req);
    filters, params, filterIndex := AddLocation(req, filters, params, filterIndex, cs);
    cs := cs + LocationCriteria(req);
    filters, params, filterIndex := AddCaste(req, filters, params, filterIndex, cs);
    cs := cs + CasteCriteria(req);
    filters, params, filterIndex := AddDisability(req, filters, params, filterIndex, cs);
    cs := cs + DisabilityCriteria(req);
    filters, params, filterIndex := AddMinority(req, filters, params, filterIndex, cs);
    cs := cs + MinorityCriteria(req);
    filters, params, filterIndex := AddIncome(req, filters, params, filterIndex, cs);
    cs := cs + IncomeCriteria(req);
    assert cs == ActiveCriteria(req);
    forall k, tags | 0 <= k < |filters|
      ensures FilterHolds(filters[k], params, tags) <==> Satisfies(cs[k], tags)
    {
      FiltersMeaning(cs, tags);
    }
  }

  // ---------------------------------------------------------------------------------
  // The rows check_eligibility selects and ranks.

  /** The query used when no filter applies: `WHERE beneficiary_tags ILIKE '%All%'`. */
  predicate IsUniversal(row: Scheme) {
    ILike(row.beneficiaryTags, "%All%")
  }

  /** The rows selected for a profile, stated on its criteria: universal schemes when
      no criterion applies, otherwise the rows meeting all criteria, or, when there are
      none, the rows meeting any; each query ordered by id and limited to 50 rows. */
  function EligibleRows(table: seq<Scheme>, req: EligibilityRequest): seq<Scheme> {
    var cs := ActiveCriteria(req);
    if cs == [] then Take(Where(table, IsUniversal), 50)
    else
      var conjunctive := Take(ById(Where(table, (row: Scheme) => MatchesAll(cs, row.beneficiaryTags))), 50);
      if conjunctive != [] then conjunctive
      else Take(ById(Where(table, (row: Scheme) => MatchesAny(cs, row.beneficiaryTags))), 50)
  }

  lemma TakeById(rows: seq<Scheme>, n: nat)
    ensures Ascending(Take(ById(rows), n), Id)
    ensures forall x :: x in Take(ById(rows), n) ==> x in rows
    ensures n > 0 ==> (Take(ById(rows), n) == [] <==> rows == [])
  {
    ByIdOrdered(rows);
    var r := Take(ById(rows), n);
    forall x | x in r ensures x in rows {
      assert x in multiset(ById(rows));
    }
    if rows != [] && n > 0 {
      assert |ById(rows)| > 0;
    }
  }

  /** At most 50 rows, all from the table; with criteria, in ascending id order and each
      meeting at least one criterion. */
  lemma EligibleRowsBounds(table: seq<Scheme>, req: EligibilityRequest)
    ensures |EligibleRows(table, req)| <= 50
    ensures forall row :: row in EligibleRows(table, req) ==> row in table
    ensures ActiveCriteria(req) != [] ==> Ascending(EligibleRows(table, req), Id)
    ensures ActiveCriteria(req) != [] ==>
      forall row :: row in EligibleRows(table, req) ==> MatchesAny(ActiveCriteria(req), row.beneficiaryTags)
  {
    var cs := ActiveCriteria(req);
    var r := EligibleRows(table, req);
    if cs != [] {
      var all := Where(table, (row: Scheme) => MatchesAll(cs, row.beneficiaryTags));
      var any := Where(table, (row: Scheme) => MatchesAny(cs, row.beneficiaryTags));
      TakeById(all, 50);
      TakeById(any, 50);
      var conjunctive := Take(ById(all), 50);
      assert r == if conjunctive != [] then conjunctive else Take(ById(any), 50);
      forall row | row in r ensures MatchesAny(cs, row.beneficiaryTags) {
        if conjunctive != [] {
          assert row in all;
          assert MatchesAll(cs, row.beneficiaryTags);
          assert Satisfies(cs[0], row.beneficiaryTags);
        } else {
          assert row in any;
        }
      }
    }
  }

  /** Without criteria only universal schemes (tags naming "all") are returned. */
  lemma NoCriteriaUniversal(table: seq<Scheme>, req: EligibilityRequest)
    requires ActiveCriteria(req) == []
    ensures forall row :: row in EligibleRows(table, req) ==> Contains(Lower(row.beneficiaryTags), "all")
  {
    var universal := Where(table, IsUniversal);
    var r := Take(universal, 50);
    assert EligibleRows(table, req) == r;
    assert "%" + "All" + "%" == "%All%";
    assert Lower("All") == "all";
    forall row | row in r ensures Contains(Lower(row.beneficiaryTags), "all") {
      assert row in universal;
      assert IsUniversal(row);
      FixedPattern(row.beneficiaryTags, "%All%", "All", "all");
    }
  }

  /** The OR query runs only when no row meets every criterion: whenever some row of the
      table does, every returned row does. */
  lemma ConjunctionPreferred(table: seq<Scheme>, req: EligibilityRequest, sample: Scheme)
    requires ActiveCriteria(req) != []
    requires sample in table && MatchesAll(ActiveCriteria(req), sample.beneficiaryTags)
    ensures EligibleRows(table, req) != []
    ensures forall row :: row in EligibleRows(table, req) ==> MatchesAll(ActiveCriteria(req), row.beneficiaryTags)
  {
    var cs := ActiveCriteria(req);
    var all := Where(table, (row: Scheme) => MatchesAll(cs, row.beneficiaryTags));
    assert sample in all;
    TakeById(all, 50);
  }

  /** One entry of the response, with its relevance score. */
  datatype ScoredScheme = ScoredScheme(
    id: int,
    name: Trilingual,
    category: string,
    schemeType: string,
    officialLink: string,
    beneficiaryTags: string,
    relevanceScore: nat)

  function Scored(row: Scheme, req: EligibilityRequest): ScoredScheme {
    ScoredScheme(row.id, row.name, row.category, row.schemeType, row.officialLink, row.beneficiaryTags,
      CalculateRelevance(row.beneficiaryTags, req))
  }

  function ScoreRows(rows: seq<Scheme>, req: EligibilityRequest): (r: seq<ScoredScheme>)
    ensures |r| == |rows| && forall i :: 0 <= i < |rows| ==> r[i] == Scored(rows[i], req)
  {
    seq(|rows|, i requires 0 <= i < |rows| => Scored(rows[i], req))
  }

  function RelevanceOf(s: ScoredScheme): int { s.relevanceScore }

  function ScoredId(s: ScoredScheme): int { s.id }

  /** The response order: `count` rows scored, sorted by score (stably), first 20 kept. */
  function Ranked(rows: seq<Scheme>, req: EligibilityRequest): seq<ScoredScheme> {
    Take(SortDesc(ScoreRows(rows, req), RelevanceOf), 20)
  }

  /** The ranked list is in non-increasing score order; rows that came in ascending id
      order keep it among equal scores. */
  lemma RankedOrder(rows: seq<Scheme>, req: EligibilityRequest)
    ensures |Ranked(rows, req)| == Min(20, |rows|)
    ensures SortedDesc(Ranked(rows, req), RelevanceOf)
    ensures Ascending(rows, Id) ==> LexSorted(Ranked(rows, req), RelevanceOf, ScoredId)
  {
    var unsorted := ScoreRows(rows, req);
    SortPermutes(unsorted, RelevanceOf);
    SortSorted(unsorted, RelevanceOf);
    if Ascending(rows, Id) {
      assert Ascending(unsorted, ScoredId);
      SortLex(unsorted, RelevanceOf, ScoredId);
    }
  }

  /** Every ranked entry is the scoring of one of the rows. */
  lemma RankedFromRows(rows: seq<Scheme>, req: EligibilityRequest)
    ensures forall e :: e in Ranked(rows, req) ==> exists row :: row in rows && e == Scored(row, req)
  {
    var unsorted := ScoreRows(rows, req);
    var sorted := SortDesc(unsorted, RelevanceOf);
    SortPermutes(unsorted, RelevanceOf);
    forall e | e in Ranked(rows, req) ensures exists row :: row in rows && e == Scored(row, req) {
      assert e in sorted;
      assert e in multiset(unsorted);
      var i :| 0 <= i < |unsorted| && unsorted[i] == e;
      assert rows[i] in rows;
    }
  }

  /** A row whose scoring was cut off scores no more than any entry that was kept. */
  lemma RankedIsTop(rows: seq<Scheme>, req: EligibilityRequest)
    ensures forall e, row ::
      (e in Ranked(rows, req) && row in rows && Scored(row, req) !in Ranked(rows, req)
       ==> e.relevanceScore >= CalculateRelevance(row.beneficiaryTags, req))
  {
    var unsorted := ScoreRows(rows, req);
    var sorted := SortDesc(unsorted, RelevanceOf);
    var top := Ranked(rows, req);
    SortPermutes(unsorted, RelevanceOf);
    SortSorted(unsorted, RelevanceOf);
    forall e, row | e in top && row in rows && Scored(row, req) !in top
      ensures e.relevanceScore >= CalculateRelevance(row.beneficiaryTags, req)
    {
      var i :| 0 <= i < |rows| && rows[i] == row;
      assert unsorted[i] == Scored(row, req);
      assert Scored(row, req) in multiset(sorted);
      var j :| 0 <= j < |sorted| && sorted[j] == Scored(row, req);
      var k :| 0 <= k < |top| && top[k] == e;
      assert top == sorted[..|top|];
      assert j >= |top|;
      assert RelevanceOf(sorted[k]) >= RelevanceOf(sorted[j]);
    }
  }

  /** Evaluating the built filters over the table selects the rows the criteria select. */
  lemma FilterQueries(table: seq<Scheme>, req: EligibilityRequest, filters: seq<Filter>, params: map<string, string>)
    requires |filters| == |ActiveCriteria(req)|
    requires forall k, tags :: 0 <= k < |filters| ==>
      (FilterHolds(filters[k], params, tags) <==> Satisfies(ActiveCriteria(req)[k], tags))
    ensures Where(table, (row: Scheme) => AllHold(filters, params, row.beneficiaryTags))
      == Where(table, (row: Scheme) => MatchesAll(ActiveCriteria(req), row.beneficiaryTags))
    ensures Where(table, (row: Scheme) => AnyHolds(filters, params, row.beneficiaryTags))
      == Where(table, (row: Scheme) => MatchesAny(ActiveCriteria(req), row.beneficiaryTags))
  {
    var cs := ActiveCriteria(req);
    WhereExt(table, (row: Scheme) => AllHold(filters, params, row.beneficiaryTags),
      (row: Scheme) => MatchesAll(cs, row.beneficiaryTags));
    WhereExt(table, (row: Scheme) => AnyHolds(filters, params, row.beneficiaryTags),
      (row: Scheme) => MatchesAny(cs, row.beneficiaryTags));
  }

  /** `POST /check-eligibility`: builds the filters, runs the query (falling back from
      AND to OR), scores every row, sorts by score (stably) and returns the first 20
      together with the count before truncation. */
  method CheckEligibility(table: seq<Scheme>, req: EligibilityRequest) returns (count: nat, eligible: seq<ScoredScheme>)
    ensures count == |EligibleRows(table, req)| <= 50
    ensures eligible == Ranked(EligibleRows(table, req), req)
    ensures |eligible| == Min(20, count)
    ensures SortedDesc(eligible, RelevanceOf)
    ensures ActiveCriteria(req) != [] ==> LexSorted(eligible, RelevanceOf, ScoredId)
    ensures forall e :: e in eligible ==> exists row :: row in EligibleRows(table, req) && e == Scored(row, req)
    ensures forall e, row ::
      (e in eligible && row in EligibleRows(table, req) && Scored(row, req) !in eligible
       ==> e.relevanceScore >= CalculateRelevance(row.beneficiaryTags, req))
  {
    var filters, params, filterIndex := BuildFilters(req);
    FilterQueries(table, req, filters, params);
    var results: seq<Scheme>;
    if |filters| == 0 {
      results := Take(Where(table, IsUniversal), 50);
    } else {
      results := Take(ById(Where(table, (row: Scheme) => AllHold(filters, params, row.beneficiaryTags))), 50);
      if |results| == 0 {
        results := Take(ById(Where(table, (row: Scheme) => AnyHolds(filters, params, row.beneficiaryTags))), 50);
      }
    }
    assert results == EligibleRows(table, req);
    EligibleRowsBounds(table, req);
    RankedOrder(results, req);
    RankedFromRows(results, req);
    RankedIsTop(results, req);
    var schemes := ScoreRows(results, req);
    schemes := SortDesc(schemes, RelevanceOf);
    SortPermutes(ScoreRows(results, req), RelevanceOf);
    count := |schemes|;
    eligible := Take(schemes, 20);
  }

  // ---------------------------------------------------------------------------------
  // GET /statistics

  /** The state-scheme test of the statistics query: eleven `ILIKE` alternatives on the
      scheme type and the English name. */
  predicate IsApScheme(row: Scheme) {
    ILike(row.schemeType, "%Andhra Pradesh%") || ILike(row.schemeType, "%AP State%")
    || ILike(row.schemeType, "%State Scheme%") || ILike(row.schemeType, "%State Agency%")
    || ILike(row.schemeType, "%State Policy%") || ILike(row.schemeType, "%State-Implemented Scheme%")
    || ILike(row.name.en, "%Andhra Pradesh%") || ILike(row.name.en, "%AP%")
    || ILike(row.name.en, "%State Scheme%") || ILike(row.name.en, "%State Agency%")
    || ILike(row.name.en, "%State Policy%")
  }

  predicate IsCentralScheme(row: Scheme) {
    !IsApScheme(row)
  }

  datatype StatisticsResponse = StatisticsResponse(totalSchemes: nat, apSchemes: nat, centralSchemes: int)

  /** The three counters: central schemes are the total minus the state schemes, which is
      exactly the number of rows the state-scheme test rejects. */
  function GetStatistics(table: seq<Scheme>): (st: StatisticsResponse)
    ensures st.totalSchemes == |table| && st.apSchemes == |Where(table, IsApScheme)|
    ensures st.centralSchemes == st.totalSchemes - st.apSchemes
    ensures st.centralSchemes == |Where(table, IsCentralScheme)| >= 0
  {
    var total := |table|;
    var ap := |Where(table, IsApScheme)|;
    WhereSplit(table, IsApScheme, IsCentralScheme);
    StatisticsResponse(total, ap, total - ap)
  }

  /** The `'%AP%'` alternative counts any English name containing the letters "ap" in
      sequence as a state scheme. */
  lemma ApAlternativeIsLoose(row: Scheme)
    requires Contains(Lower(row.name.en), "ap")
    ensures IsApScheme(row)
  {
    FixedPattern(row.name.en, "%AP%", "AP", "ap");
  }

  // ---------------------------------------------------------------------------------
  // GET /search

  datatype SchemeBasic = SchemeBasic(id: int, name: Trilingual, category: string, schemeType: string, officialLink: string)

  function Basic(row: Scheme): SchemeBasic {
    SchemeBasic(row.id, row.name, row.category, row.schemeType, row.officialLink)
  }

  datatype SearchResponse = SearchResponse(count: nat, schemes: seq<SchemeBasic>)

  /** The per-language search condition: English searches name, description and tags;
      Telugu and Hindi search their own name and description. */
  predicate SearchHit(row: Scheme, query: string, language: string) {
    var term := "%" + query + "%";
    if language == "en" then ILike(row.name.en, term) || ILike(row.description.en, term) || ILike(row.beneficiaryTags, term)
    else if language == "te" then ILike(row.name.te, term) || ILike(row.description.te, term)
    else ILike(row.name.hi, term) || ILike(row.description.hi, term)
  }

  const ValidationError: nat := 422
  const ServerError: nat := 500

  /** The rows the search query returns: matching rows in table order, at most `limit`. */
  function SearchRows(table: seq<Scheme>, query: string, language: string, limit: nat): (r: seq<Scheme>)
    ensures |r| <= limit
    ensures forall row :: row in r ==> row in table && SearchHit(row, query, language)
    ensures |r| < limit ==> forall row :: row in table && SearchHit(row, query, language) ==> row in r
  {
    var hits := Where(table, (row: Scheme) => SearchHit(row, query, language));
    var r := Take(hits, limit);
    assert forall row :: row in r ==> row in hits;
    r
  }

  /** `GET /search?query=..&language=..&limit=..`. The parameters are validated first
      (query of at least 2 characters, language en/te/hi defaulting to en, limit at most
      100 defaulting to 20); a negative limit passes validation and is rejected by the
      database, which the endpoint reports as a server error. */
  function SearchSchemes(table: seq<Scheme>, query: string, language: Option<string>, limit: Option<int>)
    : (r: Result<SearchResponse, nat>)
    ensures r == Err(ValidationError) <==>
      |query| < 2 || language.GetOr("en") !in {"en", "te", "hi"} || limit.GetOr(20) > 100
    ensures r == Err(ServerError) <==>
      |query| >= 2 && language.GetOr("en") in {"en", "te", "hi"} && limit.GetOr(20) < 0
    ensures r.Ok? ==> r.value.count == |r.value.schemes| <= limit.GetOr(20)
    ensures r.Ok? ==> forall s :: s in r.value.schemes ==>
      exists row :: row in table && SearchHit(row, query, language.GetOr("en")) && s == Basic(row)
    ensures r.Ok? && |r.value.schemes| < limit.GetOr(20) ==>
      forall row :: (row in table && SearchHit(row, query, language.GetOr("en")) ==> Basic(row) in r.value.schemes)
  {
    var lang := language.GetOr("en");
    var lim := limit.GetOr(20);
    if |query| < 2 || lang !in {"en", "te", "hi"} || lim > 100 then Err(ValidationError)
    else if lim < 0 then Err(ServerError)
    else
      var results := SearchRows(table, query, lang, lim);
      var schemes := seq(|results|, i requires 0 <= i < |results| => Basic(results[i]));
      assert forall s :: s in schemes ==> exists i :: 0 <= i < |results| && s == Basic(results[i]);
      assert forall row :: row in results ==> Basic(row) in schemes by {
        forall row | row in results ensures Basic(row) in schemes {
          var i :| 0 <= i < |results| && results[i] == row;
          assert schemes[i] == Basic(row);
        }
      }
      Ok(SearchResponse(|schemes|, schemes))
  }

  /** A Telugu search never looks at the English columns or the tags. */
  lemma TeluguSearchIgnoresEnglish(row: Scheme, query: string, name: string, description: string, tags: string)
    ensures SearchHit(row, query, "te") ==
      SearchHit(row.(name := row.name.(en := name), description := row.description.(en := description),
        beneficiaryTags := tags), query, "te")
  {
  }
}
