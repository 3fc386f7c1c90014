/** The eligibility wizard of the web client: a three-step form collecting a profile,
    its navigation gating, the submission to `POST /check-eligibility` and the result
    list with its "Highly Relevant" badge.

    The component's state is a class; each handler is a method whose new state is
    given by a pure transition on a snapshot of that state, and the properties of the
    wizard are lemmas about those transitions. A submission is two steps: the click
    (which sets `loading`) and the settling of the awaited response (an input). */
module EligibilityWizard {
  import opened Wrappers
  import opened Text
  import opened SchemeData
  import opened Schemes

  /** A JavaScript number field as `parseInt` and `undefined` leave it. */
  datatype Number = Undefined | NaN | Num(value: int)

  /** JavaScript truthiness of a number field: `undefined`, `NaN` and `0` are falsy. */
  predicate Truthy(x: Number) {
    x.Num? && x.value != 0
  }

  /** The longest run of decimal digits at the front of `s`. */
  function DigitPrefix(s: string): (r: string)
    ensures |r| <= |s| && r == s[..|r|]
    ensures forall i :: 0 <= i < |r| ==> IsDigit(r[i])
    ensures |r| < |s| ==> !IsDigit(s[|r|])
    decreases |s|
  {
    if |s| > 0 && IsDigit(s[0]) then
      var rest := DigitPrefix(s[1..]);
      assert s[..|rest| + 1] == [s[0]] + s[1..][..|rest|];
      [s[0]] + rest
    else []
  }

  /** `parseInt(text)` for decimal input: leading whitespace, an optional sign, then the
      leading digits; no digit at all gives `NaN`. */
  function ParseInt(text: string): (r: Number)
    ensures r != Undefined
    ensures TrimStart(text) == [] ==> r == NaN
  {
    var t := TrimStart(text);
    var negative := |t| > 0 && t[0] == '-';
    var body := if |t| > 0 && (t[0] == '-' || t[0] == '+') then t[1..] else t;
    var digits := DigitPrefix(body);
    if digits == [] then NaN
    else if negative then Num(0 - DigitsValue(digits))
    else Num(DigitsValue(digits))
  }

  lemma {:induction false} DigitPrefixAll(s: string)
    requires forall i :: 0 <= i < |s| ==> IsDigit(s[i])
    ensures DigitPrefix(s) == s
    decreases |s|
  {
    if |s| > 0 {
      DigitPrefixAll(s[1..]);
    }
  }

  /** Typing a number into the field and reading it back gives that number. */
  lemma ParseIntRoundTrip(n: nat)
    ensures ParseInt(NatToString(n)) == Num(n)
  {
    var s := NatToString(n);
    assert IsDigit(s[0]);
    assert TrimStart(s) == s;
    assert s[0] != '-' && s[0] != '+';
    DigitPrefixAll(s);
    assert DigitPrefix(s) == s;
    NatToStringRoundTrip(n);
    assert DigitsValue(s) == n;
  }

  /** The same for a negative number typed with its minus sign. */
  lemma ParseIntNegativeRoundTrip(n: nat)
    ensures ParseInt("-" + NatToString(n)) == Num(0 - n)
  {
    var s := NatToString(n);
    var m := "-" + s;
    assert TrimStart(m) == m;
    assert m[1..] == s;
    DigitPrefixAll(s);
    NatToStringRoundTrip(n);
  }

  /** A cleared field parses to `NaN`, which is falsy. */
  lemma ClearedFieldFalsy()
    ensures ParseInt("") == NaN && !Truthy(ParseInt(""))
  {
  }

  /** The profile the wizard collects. */
  datatype Criteria = Criteria(
    gender: string,
    age: Number,
    occupation: string,
    location: string,
    caste: string,
    disability: bool,
    minority: bool,
    annualIncome: Number)

  const InitialCriteria := Criteria("", Undefined, "", "", "", false, false, Undefined)

  /** The JSON body `checkEligibility` posts: `undefined` fields are omitted and `NaN`
      becomes `null`, so both arrive as a missing value. */
  function NumberValue(x: Number): (r: Option<int>)
    ensures r.Some? <==> x.Num?
    ensures NonZero(r) <==> Truthy(x)
  {
    match x
    case Num(n) => Some(n)
    case _ => None
  }

  function RequestOf(c: Criteria): (req: EligibilityRequest)
    ensures Given(req.gender) <==> c.gender != ""
    ensures NonZero(req.age) <==> Truthy(c.age)
    ensures IsSet(req.disability) <==> c.disability
    ensures IsSet(req.minority) <==> c.minority
  {
    EligibilityRequest(Some(c.gender), NumberValue(c.age), Some(c.occupation), Some(c.location),
      Some(c.caste), Some(c.disability), Some(c.minority), NumberValue(c.annualIncome))
  }

  /** An untouched form asks the backend for no criterion at all. */
  lemma InitialRequestUnfiltered()
    ensures ActiveCriteria(RequestOf(InitialCriteria)) == []
  {
    InactiveValues(RequestOf(InitialCriteria));
  }

  /** A snapshot of the component's state. */
  datatype Wizard = Wizard(
    step: int,
    criteria: Criteria,
    results: seq<ScoredScheme>,
    showResults: bool,
    loading: bool)

  const Initial := Wizard(1, InitialCriteria, [], false, false)

  predicate StepValid(w: Wizard) {
    1 <= w.step <= 3
  }

  /** The "Next" button: shown below step 3 while the form is displayed, disabled on
      step 1 until a gender and a truthy age are entered. */
  predicate CanForward(w: Wizard) {
    !w.showResults && w.step < 3 && !(w.step == 1 && (w.criteria.gender == "" || !Truthy(w.criteria.age)))
  }

  function Forward(w: Wizard): Wizard {
    if CanForward(w) then w.(step := w.step + 1) else w
  }

  /** The "Previous" button: shown above step 1 while the form is displayed. */
  predicate CanBack(w: Wizard) {
    !w.showResults && w.step > 1
  }

  function Back(w: Wizard): Wizard {
    if CanBack(w) then w.(step := w.step - 1) else w
  }

  /** The submit button: shown on step 3 while the form is displayed, disabled while a
      request is in flight. */
  predicate CanSubmit(w: Wizard) {
    !w.showResults && w.step == 3 && !w.loading
  }

  function Begin(w: Wizard): Wizard {
    if CanSubmit(w) then w.(loading := true) else w
  }

  /** The awaited response: the eligible schemes, or `None` when the request failed. */
  function Settle(w: Wizard, response: Option<seq<ScoredScheme>>): Wizard {
    match response
    case Some(schemes) => w.(results := schemes, showResults := true, loading := false)
    case None => w.(loading := false)
  }

  /** `resetForm`; `loading` is not part of what it resets. */
  function Reset(w: Wizard): Wizard {
    Initial.(loading := w.loading)
  }

  function Edit(w: Wizard, c: Criteria): Wizard {
    w.(criteria := c)
  }

  /** Every transition keeps the step in 1..3. */
  lemma TransitionsKeepStep(w: Wizard, c: Criteria, response: Option<seq<ScoredScheme>>)
    requires StepValid(w)
    ensures StepValid(Forward(w)) && StepValid(Back(w)) && StepValid(Begin(w))
    ensures StepValid(Settle(w, response)) && StepValid(Reset(w)) && StepValid(Edit(w, c))
  {
  }

  /** Leaving step 1 needs exactly a gender and a truthy age; the later moves are not
      gated. */
  lemma ForwardGate(w: Wizard)
    requires StepValid(w) && !w.showResults
    ensures w.step == 1 ==> (Forward(w).step == 2 <==> w.criteria.gender != "" && Truthy(w.criteria.age))
    ensures w.step == 2 ==> Forward(w).step == 3
    ensures w.step == 3 ==> Forward(w) == w
    ensures w.step > 1 ==> Back(w).step == w.step - 1
    ensures w.step == 1 ==> Back(w) == w
  {
  }

  /** An age typed as 0 or left unparseable keeps the wizard on step 1. */
  lemma FalsyAgeBlocks(w: Wizard)
    requires w.step == 1 && (w.criteria.age == Undefined || w.criteria.age == NaN || w.criteria.age == Num(0))
    ensures Forward(w) == w
  {
  }

  /** Every request that leaves step 1 carries an active gender criterion. */
  lemma ForwardSendsGender(w: Wizard)
    requires w.step == 1 && Forward(w) != w
    ensures GenderCriteria(RequestOf(w.criteria)) == [Gender(w.criteria.gender)]
    ensures NonZero(RequestOf(w.criteria).age)
  {
  }

  /** Previous undoes Next, and Next undoes Previous away from step 1. */
  lemma BackUndoesForward(w: Wizard)
    requires StepValid(w)
    ensures CanForward(w) ==> Back(Forward(w)) == w
    ensures CanBack(w) && w.step == 3 ==> Forward(Back(w)) == w
  {
  }

  /** `resetForm` is idempotent and ends on step 1 with the untouched form. */
  lemma ResetIdempotent(w: Wizard)
    ensures Reset(Reset(w)) == Reset(w)
    ensures Reset(w).step == 1 && Reset(w).criteria == InitialCriteria
    ensures Reset(w).results == [] && !Reset(w).showResults
  {
  }

  /** A click while a request is in flight changes nothing; a settled response always
      clears `loading`, replaces the results only on success and keeps them on failure. */
  lemma SubmitCycle(w: Wizard, response: Option<seq<ScoredScheme>>)
    ensures w.loading ==> Begin(w) == w
    ensures CanSubmit(w) ==> Begin(w).loading
    ensures !Settle(w, response).loading
    ensures response.Some? ==> Settle(w, response).results == response.value && Settle(w, response).showResults
    ensures response.None? ==> Settle(w, response) == w.(loading := false)
  {
  }

  /** The "Highly Relevant" badge. */
  predicate HighlyRelevant(score: int) {
    score > 50
  }

  /** What the badge slot renders: `score && score > 50 && <badge>` shows the badge, and
      otherwise renders the falsy value it stopped at; React prints the number 0 and
      nothing for `false` or `undefined`. */
  datatype Slot = Empty | Printed(text: string) | Badge

  function BadgeSlotAsWritten(score: Option<int>): (r: Slot)
    ensures score.Some? && HighlyRelevant(score.value) ==> r == Badge
  {
    match score
    case None => Empty
    case Some(s) => if s == 0 then Printed("0") else if s > 50 then Badge else Empty
  }

  /** The evidently intended slot: the badge iff the score exceeds 50, nothing otherwise. */
  function BadgeSlot(score: Option<int>): (r: Slot)
    ensures r == Badge <==> score.Some? && HighlyRelevant(score.value)
    ensures r != Badge ==> r == Empty
  {
    if score.Some? && score.value > 50 then Badge else Empty
  }

  /** A scheme scored 0 shows a stray "0" beside its name. */
  lemma ZeroScorePrinted()
    ensures BadgeSlotAsWritten(Some(0)) == Printed("0")
    ensures BadgeSlot(Some(0)) == Empty
  {
  }

  /** The two slots agree on every score except 0. */
  lemma BadgeSlotsAgree(score: Option<int>)
    requires score != Some(0)
    ensures BadgeSlotAsWritten(score) == BadgeSlot(score)
  {
  }

  class EligibilityChecker {
    var step: int
    var criteria: Criteria
    var results: seq<ScoredScheme>
    var showResults: bool
    var loading: bool

    function State(): Wizard
      reads this
    {
      Wizard(step, criteria, results, showResults, loading)
    }

    ghost predicate Valid()
      reads this
    {
      StepValid(State())
    }

    constructor ()
      ensures Valid() && State() == Initial
    {
      step := 1;
      criteria := InitialCriteria;
      results := [];
      showResults := false;
      loading := false;
    }

    method Next()
      requires Valid()
      modifies this
      ensures Valid() && State() == Forward(old(State()))
    {
      if !showResults && step < 3 && !(step == 1 && (criteria.gender == "" || !Truthy(criteria.age))) {
        step := step + 1;
      }
    }

    method Previous()
      requires Valid()
      modifies this
      ensures Valid() && State() == Back(old(State()))
    {
      if !showResults && step > 1 {
        step := step - 1;
      }
    }

    /** A click on the submit button; returns the body it posts when it posts one. */
    method Submit() returns (request: Option<EligibilityRequest>)
      requires Valid()
      modifies this
      ensures Valid() && State() == Begin(old(State()))
      ensures request.Some? <==> CanSubmit(old(State()))
      ensures request.Some? ==> request.value == RequestOf(criteria)
    {
      if !showResults && step == 3 && !loading {
        loading := true;
        request := Some(RequestOf(criteria));
      } else {
        request := None;
      }
    }

    /** The awaited `checkEligibility` response arrives (or fails). */
    method Settled(response: Option<seq<ScoredScheme>>)
      requires Valid()
      modifies this
      ensures Valid() && State() == Settle(old(State()), response)
    {
      if response.Some? {
        results := response.value;
        showResults := true;
      }
      loading := false;
    }

    method ResetForm()
      modifies this
      ensures Valid() && State() == Reset(old(State()))
    {
      criteria := InitialCriteria;
      step := 1;
      showResults := false;
      results := [];
    }

    /** The close button: the parent's `onClose` (which hides the modal) and `resetForm`. */
    method Close()
      modifies this
      ensures Valid() && State() == Reset(old(State()))
    {
      ResetForm();
    }

    method SetGender(gender: string)
      requires Valid()
      modifies this
      ensures Valid() && State() == Edit(old(State()), old(criteria).(gender := gender))
    {
      criteria := criteria.(gender := gender);
    }

    /** The age input: the typed text through `parseInt`. */
    method SetAge(text: string)
      requires Valid()
      modifies this
      ensures Valid() && State() == Edit(old(State()), old(criteria).(age := ParseInt(text)))
    {
      criteria := criteria.(age := ParseInt(text));
    }

    method SetLocation(location: string)
      requires Valid()
      modifies this
      ensures Valid() && State() == Edit(old(State()), old(criteria).(location := location))
    {
      criteria := criteria.(location := location);
    }

    method SetOccupation(occupation: string)
      requires Valid()
      modifies this
      ensures Valid() && State() == Edit(old(State()), old(criteria).(occupation := occupation))
    {
      criteria := criteria.(occupation := occupation);
    }

    method SetAnnualIncome(text: string)
      requires Valid()
      modifies this
      ensures Valid() && State() == Edit(old(State()), old(criteria).(annualIncome := ParseInt(text)))
    {
      criteria := criteria.(annualIncome := ParseInt(text));
    }

    method SetCaste(caste: string)
      requires Valid()
      modifies this
      ensures Valid() && State() == Edit(old(State()), old(criteria).(caste := caste))
    {
      criteria := criteria.(caste := caste);
    }

    method SetDisability(checked: bool)
      requires Valid()
      modifies this
      ensures Valid() && State() == Edit(old(State()), old(criteria).(disability := checked))
    {
      criteria := criteria.(disability := checked);
    }

    method SetMinority(checked: bool)
      requires Valid()
      modifies this
      ensures Valid() && State() == Edit(old(State()), old(criteria).(minority := checked))
    {
      criteria := criteria.(minority := checked);
    }
  }
}
