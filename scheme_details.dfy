/** The scheme details panel of the web client: the fetch of one scheme when the panel
    is open on a scheme id, the render guard, and the per-language getters of the five
    text fields.

    The fetch effect is one atomic method whose awaited `GET /api/schemes/{id}` answer
    is an input (`None` when the call fails). */
module SchemeDetails {
  import opened Wrappers
  import opened SchemeData

  /** `schemeId` is truthy: present and not 0. */
  predicate Truthy(schemeId: Option<int>) {
    schemeId.Some? && schemeId.value != 0
  }

  /** The panel renders nothing unless it is open on a truthy id. */
  predicate Renders(isOpen: bool, schemeId: Option<int>) {
    isOpen && Truthy(schemeId)
  }

  /** The common shape of the five getters: '' before a scheme is loaded, otherwise the
      language's column chosen by `Select`. */
  function Pick(scheme: Option<Scheme>, column: Scheme -> Trilingual, language: string): (r: string)
    ensures scheme.None? ==> r == ""
    ensures scheme.Some? ==> r == Select(column(scheme.value), language)
  {
    if scheme.None? then "" else Select(column(scheme.value), language)
  }

  function NameOf(s: Scheme): Trilingual { s.name }
  function DescriptionOf(s: Scheme): Trilingual { s.description }
  function EligibilityOf(s: Scheme): Trilingual { s.eligibility }
  function BenefitsOf(s: Scheme): Trilingual { s.benefits }
  function ApplicationProcessOf(s: Scheme): Trilingual { s.applicationProcess }

  /** The five getters select the same language's column of one and the same scheme. */
  lemma GettersAgree(scheme: Option<Scheme>, language: string)
    ensures scheme.None? ==>
      Pick(scheme, NameOf, language) == "" && Pick(scheme, DescriptionOf, language) == ""
      && Pick(scheme, EligibilityOf, language) == "" && Pick(scheme, BenefitsOf, language) == ""
      && Pick(scheme, ApplicationProcessOf, language) == ""
    ensures scheme.Some? && language == "en" ==>
      Pick(scheme, NameOf, language) == scheme.value.name.en
      && Pick(scheme, DescriptionOf, language) == scheme.value.description.en
      && Pick(scheme, EligibilityOf, language) == scheme.value.eligibility.en
      && Pick(scheme, BenefitsOf, language) == scheme.value.benefits.en
      && Pick(scheme, ApplicationProcessOf, language) == scheme.value.applicationProcess.en
    ensures scheme.Some? && language == "te" ==>
      Pick(scheme, NameOf, language) == scheme.value.name.te
      && Pick(scheme, DescriptionOf, language) == scheme.value.description.te
      && Pick(scheme, EligibilityOf, language) == scheme.value.eligibility.te
      && Pick(scheme, BenefitsOf, language) == scheme.value.benefits.te
      && Pick(scheme, ApplicationProcessOf, language) == scheme.value.applicationProcess.te
    ensures scheme.Some? && language != "en" && language != "te" ==>
      Pick(scheme, NameOf, language) == scheme.value.name.hi
      && Pick(scheme, DescriptionOf, language) == scheme.value.description.hi
      && Pick(scheme, EligibilityOf, language) == scheme.value.eligibility.hi
      && Pick(scheme, BenefitsOf, language) == scheme.value.benefits.hi
      && Pick(scheme, ApplicationProcessOf, language) == scheme.value.applicationProcess.hi
  {
  }

  /** A snapshot of the panel's state. */
  datatype Panel = Panel(scheme: Option<Scheme>, loading: bool)

  const Initial := Panel(None, false)

  /** The fetch effect: only an open panel on a truthy id fetches; the answer replaces
      the scheme, a failure keeps whatever was shown before, and loading ends. */
  function Fetched(p: Panel, schemeId: Option<int>, isOpen: bool, answer: Option<Scheme>): Panel {
    if !Renders(isOpen, schemeId) then p
    else match answer
      case Some(s) => Panel(Some(s), false)
      case None => p.(loading := false)
  }

  /** Fetching needs both conditions; a failed fetch for a new id leaves the previously
      loaded scheme in place. */
  lemma FetchGuard(p: Panel, schemeId: Option<int>, isOpen: bool, answer: Option<Scheme>)
    ensures !isOpen || schemeId.None? || schemeId == Some(0) ==> Fetched(p, schemeId, isOpen, answer) == p
    ensures Renders(isOpen, schemeId) ==> !Fetched(p, schemeId, isOpen, answer).loading
    ensures Renders(isOpen, schemeId) && answer.Some? ==> Fetched(p, schemeId, isOpen, answer).scheme == answer
    ensures Renders(isOpen, schemeId) && answer.None? ==> Fetched(p, schemeId, isOpen, answer).scheme == p.scheme
  {
  }

  class DetailsPanel {
    var scheme: Option<Scheme>
    var loading: bool

    function State(): Panel
      reads this
    {
      Panel(scheme, loading)
    }

    constructor ()
      ensures State() == Initial
    {
      scheme := None;
      loading := false;
    }

    /** The effect run when `schemeId` or `isOpen` changes; `request` is the id fetched,
        if any. */
    method FetchEffect(schemeId: Option<int>, isOpen: bool, answer: Option<Scheme>) returns (request: Option<int>)
      modifies this
      ensures State() == Fetched(old(State()), schemeId, isOpen, answer)
      ensures request.Some? <==> Renders(isOpen, schemeId)
      ensures request.Some? ==> request == schemeId
    {
      request := None;
      if schemeId.Some? && schemeId.value != 0 && isOpen {
        loading := true;
        request := schemeId;
        if answer.Some? {
          scheme := answer;
        }
        loading := false;
      }
    }

    function GetSchemeName(language: string): string reads this { Pick(scheme, NameOf, language) }
    function GetDescription(language: string): string reads this { Pick(scheme, DescriptionOf, language) }
    function GetEligibility(language: string): string reads this { Pick(scheme, EligibilityOf, language) }
    function GetBenefits(language: string): string reads this { Pick(scheme, BenefitsOf, language) }
    function GetApplicationProcess(language: string): string reads this { Pick(scheme, ApplicationProcessOf, language) }
  }
}
