/**
 * The specialist fee estimate page: it validates the item number and the
 * charged fee, looks the item up through the search endpoint, splits the
 * schedule fee into the Medicare rebate (the 75% benefit) and the health-fund
 * rebate (the rest), and, for items that allow a surgical assistant, picks
 * the assistant item by the schedule fee and adds the assistant's gap fee to
 * the patient's total.
 */
module SpecialistFeeEstimate {
  import opened Wrappers
  import opened MbsTypes
  import opened JsText
  import opened JsNumber
  import opened SearchRoute

  /** Items with a schedule fee below this take assistant item 51300, the others 51303. */
  const AssistantFeeThreshold: real := 636.05
  const MinorAssistantCode := "51300"
  const MajorAssistantCode := "51303"

  /**
   * The messages the page puts in its two error cells. `Text` gives the
   * wording; `Reported` carries a message that came from elsewhere: the
   * `error` field of a failed response, or the message of a thrown `Error`.
   */
  datatype Notice =
    | MissingInput
    | InvalidFee
    | NotFound(item: string)
    | PrimaryRequestFailed(statusText: string)
    | UnknownError
    | AssistantNotFound(code: string)
    | AssistantRequestFailed(code: string, statusText: string)
    | AssistantFetchFailed(code: string)
    | Reported(text: string)

  function Text(n: Notice): string {
    match n
    case MissingInput => "Please enter both MBS Item Number and Your Charged Fee."
    case InvalidFee => "Please enter a valid positive number for Your Charged Fee."
    case NotFound(item) => "MBS Item " + item + " not found or is not current."
    case PrimaryRequestFailed(statusText) => "Primary item API request failed: " + statusText
    case UnknownError => "An unknown error occurred during calculation."
    case AssistantNotFound(code) => "Details for assistant item " + code + " not found."
    case AssistantRequestFailed(code, statusText) => "Assistant item " + code + " API request failed: " + statusText
    case AssistantFetchFailed(code) => "Failed to fetch assistant item " + code + "."
    case Reported(text) => text
  }

  /** What awaiting `fetch('/api/search-mbs?query=...')` and then its JSON body gives the page. */
  datatype FetchOutcome =
    | Responded(response: ApiResponse, statusText: string)
    | Rejected(reason: Option<string>)  // the fetch or the JSON parse threw; `Some(message)` for an Error

  /** The assistant item chosen for an assist-eligible item, with its description or why it is missing. */
  datatype AssistantLine = AssistantLine(code: string, description: Option<string>, lookupError: Option<Notice>)

  datatype Estimate = Estimate(
    item: SearchResultItem,
    chargedFee: real,
    medicareRebate: real,
    healthFundRebate: real,
    outOfPocket: real,
    assistant: Option<AssistantLine>)

  /** The result of one calculation: which check stopped it, or the estimate. */
  datatype Outcome =
    | InputError(notice: Notice)
    | LookupError(notice: Notice)
    | Estimated(estimate: Estimate)

  /** A charged fee the page refuses: not a number, or negative. Zero is accepted. */
  predicate InvalidCharge(fee: Option<real>) {
    fee.None? || fee.value < 0.0
  }

  /** The assistant item for a primary item's schedule fee. */
  function AssistantCode(scheduleFee: real): (code: string)
    ensures code == MinorAssistantCode <==> scheduleFee < AssistantFeeThreshold
    ensures code == MajorAssistantCode <==> scheduleFee >= AssistantFeeThreshold
  {
    if scheduleFee < AssistantFeeThreshold then MinorAssistantCode else MajorAssistantCode
  }

  /** The error the primary fetch raises, `None` when it answered with a list of records. */
  function PrimaryFailure(reply: FetchOutcome): (m: Option<Notice>)
    ensures m.None? <==> reply.Responded? && reply.response.Found?
    ensures reply.Responded? && reply.response.Failure? ==>
      m == Some(if reply.response.error != "" then Reported(reply.response.error)
                else PrimaryRequestFailed(reply.statusText))
    ensures reply.Rejected? && reply.reason.Some? ==> m == Some(Reported(reply.reason.value))
    ensures reply.Rejected? && reply.reason.None? ==> m == Some(UnknownError)
  {
    match reply
    case Responded(Found(_), _) => None
    case Responded(Failure(_, err, _), statusText) =>
      Some(if err != "" then Reported(err) else PrimaryRequestFailed(statusText))
    case Rejected(reason) => Some(if reason.Some? then Reported(reason.value) else UnknownError)
  }

  /** The assistant item's description from its own lookup, or the error shown in its place. */
  function AssistantLookup(code: string, reply: FetchOutcome): (a: AssistantLine)
    ensures a.code == code
    ensures a.description.Some? <==> a.lookupError.None?
    ensures a.description.Some? <==>
      reply.Responded? && reply.response.Found? && |reply.response.items| > 0
    ensures a.description.Some? ==> a.description.value == reply.response.items[0].description
    ensures reply.Responded? && reply.response.Found? && reply.response.items == [] ==>
      a.lookupError == Some(AssistantNotFound(code))
    ensures reply.Responded? && reply.response.Failure? ==>
      a.lookupError == Some(if reply.response.error != "" then Reported(reply.response.error)
                            else AssistantRequestFailed(code, reply.statusText))
    ensures reply.Rejected? ==>
      a.lookupError == Some(if reply.reason.Some? then Reported(reply.reason.value) else AssistantFetchFailed(code))
  {
    match reply
    case Responded(Found(items), _) =>
      if |items| > 0 then AssistantLine(code, Some(items[0].description), None)
      else AssistantLine(code, None, Some(AssistantNotFound(code)))
    case Responded(Failure(_, err, _), statusText) =>
      AssistantLine(code, None, Some(if err != "" then Reported(err) else AssistantRequestFailed(code, statusText)))
    case Rejected(reason) =>
      AssistantLine(code, None, Some(if reason.Some? then Reported(reason.value) else AssistantFetchFailed(code)))
  }

  /**
   * The rebate split of one record: Medicare pays the 75% benefit, the health
   * fund the rest of the schedule fee, and the patient what the fee charged
   * exceeds the schedule fee by, which is negative when it is below it.
   */
  function PriceItem(item: SearchResultItem, chargedFee: real, assistant: Option<AssistantLine>): (e: Estimate)
    ensures e.item == item && e.chargedFee == chargedFee && e.assistant == assistant
    ensures e.medicareRebate == item.benefit75Percent
    ensures e.medicareRebate + e.healthFundRebate == item.scheduleFee
    ensures e.outOfPocket == chargedFee - item.scheduleFee
    ensures e.outOfPocket < 0.0 <==> chargedFee < item.scheduleFee
  {
    var medicare := item.benefit75Percent;
    var healthFund := item.scheduleFee - item.benefit75Percent;
    Estimate(item, chargedFee, medicare, healthFund, chargedFee - medicare - healthFund, assistant)
  }

  /**
   * The fetching part of one calculation, once the inputs have passed their
   * checks: `key` is the trimmed item number, `chargedFee` the parsed fee, and
   * `lookup(q)` what fetching the search endpoint for `q` gives.
   */
  function FetchEstimate(key: string, chargedFee: real, lookup: string -> FetchOutcome): (o: Outcome)
    ensures !o.InputError?
    ensures o.LookupError? <==>
      PrimaryFailure(lookup(key)).Some? || lookup(key).response.items == []
    ensures PrimaryFailure(lookup(key)).Some? ==> o == LookupError(PrimaryFailure(lookup(key)).value)
    ensures PrimaryFailure(lookup(key)).None? && lookup(key).response.items == [] ==> o == LookupError(NotFound(key))
    ensures o.Estimated? ==>
      && lookup(key).Responded? && lookup(key).response.Found?
      && |lookup(key).response.items| > 0
      && o.estimate.item == lookup(key).response.items[0]
      && o.estimate.chargedFee == chargedFee
    ensures o.Estimated? ==>
      && o.estimate.medicareRebate == o.estimate.item.benefit75Percent
      && o.estimate.medicareRebate + o.estimate.healthFundRebate == o.estimate.item.scheduleFee
      && o.estimate.outOfPocket == o.estimate.chargedFee - o.estimate.item.scheduleFee
    ensures o.Estimated? ==>
      && (o.estimate.assistant.Some? <==> o.estimate.item.isAssistEligible)
      && (o.estimate.assistant.Some? ==> o.estimate.assistant.value.code == AssistantCode(o.estimate.item.scheduleFee))
    ensures o.Estimated? && o.estimate.assistant.Some? ==>
      var code := AssistantCode(o.estimate.item.scheduleFee);
      o.estimate.assistant.value == AssistantLookup(code, lookup(code))
  {
    var reply := lookup(key);
    match PrimaryFailure(reply)
    case Some(m) => LookupError(m)
    case None =>
      var items := reply.response.items;
      if |items| == 0 then LookupError(NotFound(key))
      else
        var item := items[0];
        var assistant :=
          if item.isAssistEligible then
            var code := AssistantCode(item.scheduleFee);
            Some(AssistantLookup(code, lookup(code)))
          else None;
        Estimated(PriceItem(item, chargedFee, assistant))
  }

  /**
   * One press of "Calculate Estimate", from the two text inputs: both must be
   * filled in and the fee must be a number of at least zero before anything
   * is fetched.
   */
  function Calculate(itemInput: string, chargedInput: string, lookup: string -> FetchOutcome): (o: Outcome)
    ensures o.InputError? <==>
      Trim(itemInput) == "" || Trim(chargedInput) == "" || InvalidCharge(ParseFloat(chargedInput))
    ensures Trim(itemInput) == "" || Trim(chargedInput) == "" ==> o == InputError(MissingInput)
    ensures o.Estimated? ==>
      && ParseFloat(chargedInput) == Some(o.estimate.chargedFee)
      && o.estimate.chargedFee >= 0.0
      && lookup(Trim(itemInput)).Responded? && lookup(Trim(itemInput)).response.Found?
      && |lookup(Trim(itemInput)).response.items| > 0
      && o.estimate.item == lookup(Trim(itemInput)).response.items[0]
  {
    if Trim(itemInput) == "" || Trim(chargedInput) == "" then InputError(MissingInput)
    else
      var parsed := ParseFloat(chargedInput);
      if InvalidCharge(parsed) then InputError(InvalidFee)
      else FetchEstimate(Trim(itemInput), parsed.value, lookup)
  }

  /** The outcome on each of the three ways out of the input checks. */
  lemma CalculateChecksInputs(itemInput: string, chargedInput: string, lookup: string -> FetchOutcome)
    ensures Trim(itemInput) == "" || Trim(chargedInput) == "" ==>
      Calculate(itemInput, chargedInput, lookup) == InputError(MissingInput)
    ensures Trim(itemInput) != "" && Trim(chargedInput) != "" && InvalidCharge(ParseFloat(chargedInput)) ==>
      Calculate(itemInput, chargedInput, lookup) == InputError(InvalidFee)
    ensures Trim(itemInput) != "" && Trim(chargedInput) != "" && !InvalidCharge(ParseFloat(chargedInput)) ==>
      Calculate(itemInput, chargedInput, lookup) == FetchEstimate(Trim(itemInput), ParseFloat(chargedInput).value, lookup)
  {
  }

  /** `assistantGapFeeValue`: the entered gap fee, or 0 when the input is empty or not a number. */
  function GapFeeValue(gapInput: string): (v: real)
    ensures ParseFloat(gapInput).Some? ==> v == ParseFloat(gapInput).value
    ensures ParseFloat(gapInput).None? ==> v == 0.0
  {
    if gapInput != "" && ParseFloat(gapInput).Some? then ParseFloat(gapInput).value else 0.0
  }

  /** `totalOutOfPocket`: the primary out-of-pocket (0 when there is none) plus the gap fee while the assistant fields show. */
  function PatientTotal(outOfPocket: Option<real>, showAssistantFields: bool, gapInput: string): (t: real)
    ensures !showAssistantFields || ParseFloat(gapInput).None? ==> t == outOfPocket.GetOr(0.0)
    ensures showAssistantFields && ParseFloat(gapInput).Some? ==>
      t == outOfPocket.GetOr(0.0) + ParseFloat(gapInput).value
  {
    outOfPocket.GetOr(0.0) + (if showAssistantFields then GapFeeValue(gapInput) else 0.0)
  }

  // ---------------------------------------------------------------------------
  // Properties of one calculation
  // ---------------------------------------------------------------------------

  /**
   * With both inputs filled in, the fee check fires exactly when the fee is
   * not a number or is negative; a fee of zero passes it.
   */
  lemma ChargedFeeCheck(itemInput: string, chargedInput: string, lookup: string -> FetchOutcome)
    requires Trim(itemInput) != "" && Trim(chargedInput) != ""
    ensures Calculate(itemInput, chargedInput, lookup) == InputError(InvalidFee)
      <==> InvalidCharge(ParseFloat(chargedInput))
    ensures ParseFloat(chargedInput) == Some(0.0) ==> !Calculate(itemInput, chargedInput, lookup).InputError?
  {
  }

  /** A fee typed with two decimals is accepted whenever it is not negative, and taken at its exact value. */
  lemma CentsFeeAccepted(itemInput: string, cents: int, lookup: string -> FetchOutcome)
    requires Trim(itemInput) != ""
    ensures var o := Calculate(itemInput, CentsLiteral(cents), lookup);
      && (o.InputError? <==> cents < 0)
      && (o.Estimated? ==> o.estimate.chargedFee == cents as real / 100.0)
  {
    var s := CentsLiteral(cents);
    ParseCentsLiteral(cents);
    var a := if cents < 0 then -cents else cents;
    ParseUnsignedCentsLiteral(a);
    assert s[0] == '-' || s[0] == UnsignedCents(a)[0];
    assert !AllWhiteSpace(s) by { assert !IsWhiteSpace(s[0]); }
    TrimShape(s);
  }

  /** A calculation stopped by an input check does no lookup: its outcome is the same whatever the lookups give. */
  lemma InputErrorSkipsLookup(itemInput: string, chargedInput: string, l1: string -> FetchOutcome, l2: string -> FetchOutcome)
    requires Calculate(itemInput, chargedInput, l1).InputError?
    ensures Calculate(itemInput, chargedInput, l2) == Calculate(itemInput, chargedInput, l1)
  {
  }

  /** An empty list of records for the item gives the not-found message and no estimate. */
  lemma EmptyLookupNotFound(itemInput: string, chargedInput: string, lookup: string -> FetchOutcome, statusText: string)
    requires !Calculate(itemInput, chargedInput, lookup).InputError?
    requires lookup(Trim(itemInput)) == Responded(Found([]), statusText)
    ensures Calculate(itemInput, chargedInput, lookup) == LookupError(NotFound(Trim(itemInput)))
  {
  }

  /**
   * Only the first record of the item's lookup is used: two lookups whose
   * record lists start with the same record, and that agree on the assistant
   * items, give the same outcome.
   */
  lemma FirstRecordOnly(itemInput: string, chargedInput: string, l1: string -> FetchOutcome, l2: string -> FetchOutcome)
    requires l1(Trim(itemInput)).Responded? && l1(Trim(itemInput)).response.Found?
    requires l2(Trim(itemInput)).Responded? && l2(Trim(itemInput)).response.Found?
    requires |l1(Trim(itemInput)).response.items| > 0 && |l2(Trim(itemInput)).response.items| > 0
    requires l1(Trim(itemInput)).response.items[0] == l2(Trim(itemInput)).response.items[0]
    requires Trim(itemInput) != MinorAssistantCode ==> l1(MinorAssistantCode) == l2(MinorAssistantCode)
    requires Trim(itemInput) != MajorAssistantCode ==> l1(MajorAssistantCode) == l2(MajorAssistantCode)
    ensures Calculate(itemInput, chargedInput, l1) == Calculate(itemInput, chargedInput, l2)
  {
    var key := Trim(itemInput);
    var item := l1(key).response.items[0];
    if item.isAssistEligible {
      var code := AssistantCode(item.scheduleFee);
      assert AssistantLookup(code, l1(code)) == AssistantLookup(code, l2(code));
    }
  }

  /** The patient's total after an estimate: the fee charged less the schedule fee, plus the gap fee for assist-eligible items. */
  lemma TotalAfterEstimate(itemInput: string, chargedInput: string, lookup: string -> FetchOutcome, gapInput: string)
    requires Calculate(itemInput, chargedInput, lookup).Estimated?
    ensures var e := Calculate(itemInput, chargedInput, lookup).estimate;
      PatientTotal(Some(e.outOfPocket), e.assistant.Some?, gapInput)
        == e.chargedFee - e.item.scheduleFee + (if e.item.isAssistEligible then GapFeeValue(gapInput) else 0.0)
  {
  }

  /** An empty or non-numeric gap input counts as 0; a gap fee typed with two decimals counts at its exact value. */
  lemma GapFeeInputs(gapInput: string, cents: int)
    ensures AllWhiteSpace(gapInput) ==> GapFeeValue(gapInput) == 0.0
    ensures GapFeeValue(CentsLiteral(cents)) == cents as real / 100.0
  {
    ParseCentsLiteral(cents);
    if AllWhiteSpace(gapInput) {
      ParseFloatBlank(gapInput);
    }
  }

  /** The worked example: item 30175 (schedule fee $380.90, 75% benefit $285.70) charged at $500. */
  lemma Item30175Example()
    ensures var item := SearchResultItem("30175", "Example item", 380.90, 285.70, 323.80, false, true);
      Calculate("30175", "500", (q: string) => Responded(Found([item]), "OK"))
        == Estimated(Estimate(item, 500.0, 285.70, 95.20, 119.10, None))
  {
    var item := SearchResultItem("30175", "Example item", 380.90, 285.70, 323.80, false, true);
    var lookup := (q: string) => Responded(Found([item]), "OK");
    ExampleInputs();
    CalculateChecksInputs("30175", "500", lookup);
    assert FetchEstimate("30175", 500.0, lookup) == Estimated(PriceItem(item, 500.0, None));
  }

  /** The two inputs of the worked example pass their checks unchanged. */
  lemma ExampleInputs()
    ensures Trim("30175") == "30175" && Trim("500") == "500"
    ensures ParseFloat("500") == Some(500.0)
  {
    assert NatLiteral(500) == "500";
    ParseNatLiteral(500);
    TrimUnchanged("30175");
    TrimUnchanged("500");
  }

  // ---------------------------------------------------------------------------
  // The lookups answered by the search endpoint itself
  // ---------------------------------------------------------------------------

  function ReasonPhrase(r: ApiResponse): string {
    match r
    case Found(_) => "OK"
    case Failure(400, _, _) => "Bad Request"
    case Failure(_, _, _) => "Internal Server Error"
  }

  /** Fetching the search endpoint, served from `store`. */
  function ApiLookup(store: Store): string -> FetchOutcome {
    (q: string) => Responded(Get(Some(q), store), ReasonPhrase(Get(Some(q), store)))
  }

  /**
   * When the item number is an item code and the store is up, an estimate is
   * for a current row with the upper-cased code, and the calculation finds
   * one exactly when the table holds such a row.
   */
  lemma EstimateForItemCode(itemInput: string, chargedInput: string, store: Store)
    requires IsItemCode(Trim(itemInput)) && store.fault.None?
    requires !Calculate(itemInput, chargedInput, ApiLookup(store)).InputError?
    ensures var o := Calculate(itemInput, chargedInput, ApiLookup(store));
      && (o.Estimated? <==>
            exists row :: row in store.table && IsCurrent(row) && row.itemCode == ToUpper(Trim(itemInput)))
      && (o.Estimated? ==> o.estimate.item.itemCode == ToUpper(Trim(itemInput)))
      && (o.Estimated? ==>
            exists row :: row in store.table && IsCurrent(row) && row.itemCode == ToUpper(Trim(itemInput)) && Select(row) == o.estimate.item)
      && (!o.Estimated? ==> o == LookupError(NotFound(Trim(itemInput))))
  {
    var key := Trim(itemInput);
    CodeLookupAnswers(key, store);
    var items := Get(Some(key), store).items;
    if exists row :: row in store.table && IsCurrent(row) && row.itemCode == ToUpper(key) {
      var row :| row in store.table && IsCurrent(row) && row.itemCode == ToUpper(key);
      assert Select(row) in items;
    }
  }

  /**
   * When the store fails, the page shows the `error` text of the endpoint's
   * error object as it is, once the inputs have passed their checks.
   */
  lemma StoreFaultShown(itemInput: string, chargedInput: string, store: Store)
    requires store.fault.Some?
    requires !Calculate(itemInput, chargedInput, ApiLookup(store)).InputError?
    ensures Calculate(itemInput, chargedInput, ApiLookup(store)) ==
      LookupError(Reported(if store.fault.value.QueryError? then DataSourceMessage else InternalErrorMessage))
  {
    StoreFaultAnswers(Trim(itemInput), store);
  }

  // ---------------------------------------------------------------------------
  // The page's state
  // ---------------------------------------------------------------------------

  /** The page's state cells and its event handlers. */
  class EstimatePage {
    var itemNumberInput: string
    var chargedFeeInput: string
    var mbsItemDetails: Option<SearchResultItem>
    var medicareRebate: Option<real>
    var healthFundRebate: Option<real>
    var outOfPocket: Option<real>
    var isLoading: bool
    var error: Option<Notice>  // the message in the error box; its wording is `Text(error.value)`
    var hasCalculated: bool
    var assistantGapFeeInput: string
    var showAssistantFields: bool
    var determinedAssistantItemCode: Option<string>
    var assistantItemDescription: Option<string>
    var isLoadingAssistantItem: bool
    var errorAssistantItem: Option<Notice>  // likewise for the assistant item's error line

    /** Every assistant cell is back at its initial value: no gap fee, fields hidden. */
    ghost predicate AssistantCleared()
      reads this
    {
      && assistantGapFeeInput == ""
      && !showAssistantFields
      && determinedAssistantItemCode.None?
      && assistantItemDescription.None?
      && !isLoadingAssistantItem
      && errorAssistantItem.None?
    }

    /** The result cells hold nothing. */
    ghost predicate NoEstimate()
      reads this
    {
      mbsItemDetails.None? && medicareRebate.None? && healthFundRebate.None? && outOfPocket.None? && !hasCalculated
    }

    /** The result panel is rendered. */
    predicate ShowsResults()
      reads this
    {
      hasCalculated && mbsItemDetails.Some? && (error.None? || Text(error.value) == "")
    }

    /** The cells show the error `message` and no estimate. */
    ghost predicate ShowsFailure(message: Notice)
      reads this
    {
      error == Some(message) && NoEstimate() && AssistantCleared()
    }

    /** The cells show estimate `e`, with its assistant line when it has one. */
    ghost predicate ShowsEstimate(e: Estimate)
      reads this
    {
      && error.None?
      && mbsItemDetails == Some(e.item)
      && medicareRebate == Some(e.medicareRebate)
      && healthFundRebate == Some(e.healthFundRebate)
      && outOfPocket == Some(e.outOfPocket)
      && hasCalculated
      && assistantGapFeeInput == ""
      && !isLoadingAssistantItem
      && showAssistantFields == e.assistant.Some?
      && (e.assistant.None? ==> AssistantCleared())
      && (e.assistant.Some? ==>
            && determinedAssistantItemCode == Some(e.assistant.value.code)
            && assistantItemDescription == e.assistant.value.description
            && errorAssistantItem == e.assistant.value.lookupError)
    }

    /** The state cells show outcome `o`. */
    ghost predicate Shows(o: Outcome)
      reads this
    {
      match o
      case Estimated(e) => ShowsEstimate(e)
      case InputError(m) => ShowsFailure(m)
      case LookupError(m) => ShowsFailure(m)
    }

    constructor ()
      ensures itemNumberInput == "" && chargedFeeInput == "" && error.None? && !isLoading
      ensures NoEstimate() && AssistantCleared() && !ShowsResults()
    {
      itemNumberInput := "";
      chargedFeeInput := "";
      mbsItemDetails := None;
      medicareRebate := None;
      healthFundRebate := None;
      outOfPocket := None;
      isLoading := false;
      error := None;
      hasCalculated := false;
      assistantGapFeeInput := "";
      showAssistantFields := false;
      determinedAssistantItemCode := None;
      assistantItemDescription := None;
      isLoadingAssistantItem := false;
      errorAssistantItem := None;
    }

    /** Typing in the item number field. */
    method SetItemNumberInput(value: string)
      modifies this`itemNumberInput
      ensures itemNumberInput == value
    {
      itemNumberInput := value;
    }

    /** Typing in the charged fee field. */
    method SetChargedFeeInput(value: string)
      modifies this`chargedFeeInput
      ensures chargedFeeInput == value
    {
      chargedFeeInput := value;
    }

    /** Typing in the assistant gap fee field; `PatientTotal` of the cells gives the new total. */
    method SetAssistantGapFeeInput(value: string)
      modifies this`assistantGapFeeInput
      ensures assistantGapFeeInput == value
    {
      assistantGapFeeInput := value;
    }

    /** `resetAssistantStates`: clears the gap fee and hides the assistant fields, touching no other cell. */
    method ResetAssistantStates()
      modifies this`assistantGapFeeInput, this`showAssistantFields, this`determinedAssistantItemCode,
               this`assistantItemDescription, this`isLoadingAssistantItem, this`errorAssistantItem
      ensures AssistantCleared()
    {
      assistantGapFeeInput := "";
      showAssistantFields := false;
      determinedAssistantItemCode := None;
      assistantItemDescription := None;
      isLoadingAssistantItem := false;
      errorAssistantItem := None;
    }

    /** The inner `try` for the assistant item: its description, or the error shown in its place. */
    method LoadAssistantItem(assistantCode: string, assistantResponse: FetchOutcome)
      requires errorAssistantItem.None?
      modifies this`assistantItemDescription, this`errorAssistantItem
      ensures assistantItemDescription == AssistantLookup(assistantCode, assistantResponse).description
      ensures errorAssistantItem == AssistantLookup(assistantCode, assistantResponse).lookupError
    {
      match assistantResponse {
        case Responded(Found(assistantData), _) =>
          if |assistantData| > 0 {
            assistantItemDescription := Some(assistantData[0].description);
          } else {
            errorAssistantItem := Some(AssistantNotFound(assistantCode));
            assistantItemDescription := None;
          }
        case Responded(Failure(_, err, _), statusText) =>
          errorAssistantItem := Some(if err != "" then Reported(err) else AssistantRequestFailed(assistantCode, statusText));
          assistantItemDescription := None;
        case Rejected(reason) =>
          errorAssistantItem := Some(if reason.Some? then Reported(reason.value) else AssistantFetchFailed(assistantCode));
          assistantItemDescription := None;
      }
    }

    /**
     * The assistant branch for an assist-eligible item with schedule fee
     * `scheduleFee`: show the assistant fields with the assistant item's code,
     * then its description or the error shown in its place.
     */
    method ShowAssistantItem(scheduleFee: real, lookup: string -> FetchOutcome)
      modifies this`showAssistantFields, this`determinedAssistantItemCode, this`isLoadingAssistantItem,
               this`assistantItemDescription, this`errorAssistantItem
      ensures var a := AssistantLookup(AssistantCode(scheduleFee), lookup(AssistantCode(scheduleFee)));
        && showAssistantFields && !isLoadingAssistantItem
        && determinedAssistantItemCode == Some(a.code)
        && assistantItemDescription == a.description
        && errorAssistantItem == a.lookupError
    {
      showAssistantFields := true;
      var assistantCode := AssistantCode(scheduleFee);
      determinedAssistantItemCode := Some(assistantCode);
      isLoadingAssistantItem := true;
      errorAssistantItem := None;
      LoadAssistantItem(assistantCode, lookup(assistantCode));
      isLoadingAssistantItem := false;
    }

    /** What the page shows follows from the outcome its cells hold. */
    lemma ShownOutcome(o: Outcome)
      requires Shows(o)
      ensures ShowsResults() <==> o.Estimated?
      ensures PatientTotal(outOfPocket, showAssistantFields, assistantGapFeeInput)
        == match o
           case Estimated(e) => e.outOfPocket
           case _ => 0.0
    {
    }

    /**
     * `handleCalculateEstimate`: the cells end up showing the outcome of
     * `Calculate` on the two inputs, which it leaves as they are; the loading
     * flag is lowered unless an input check returned before raising it.
     * `ShownOutcome` then says when the results panel shows and what the
     * total is.
     */
    method CalculateEstimate(lookup: string -> FetchOutcome)
      modifies this`mbsItemDetails, this`medicareRebate, this`healthFundRebate, this`outOfPocket,
               this`isLoading, this`error, this`hasCalculated,
               this`assistantGapFeeInput, this`showAssistantFields, this`determinedAssistantItemCode,
               this`assistantItemDescription, this`isLoadingAssistantItem, this`errorAssistantItem
      ensures Shows(Calculate(old(itemNumberInput), old(chargedFeeInput), lookup))
      ensures isLoading == (Calculate(old(itemNumberInput), old(chargedFeeInput), lookup).InputError? && old(isLoading))
    {
      var itemInput, chargedInput := itemNumberInput, chargedFeeInput;
      error := None;
      mbsItemDetails := None;
      medicareRebate := None;
      healthFundRebate := None;
      outOfPocket := None;
      hasCalculated := false;
      ResetAssistantStates();

      if Trim(itemInput) == "" || Trim(chargedInput) == "" {
        error := Some(MissingInput);
        CalculateChecksInputs(itemInput, chargedInput, lookup);
        return;
      }

      var chargedFee := ParseFloat(chargedInput);
      if chargedFee.None? || chargedFee.value < 0.0 {
        error := Some(InvalidFee);
        CalculateChecksInputs(itemInput, chargedInput, lookup);
        return;
      }

      isLoading := true;
      LoadEstimate(Trim(itemInput), chargedFee.value, lookup);
      CalculateChecksInputs(itemInput, chargedInput, lookup);
    }

    /**
     * The `try` block of `handleCalculateEstimate`, entered with the cells
     * cleared: fetch the item, fill in the rebates and, for an assist-eligible
     * item, fetch its assistant item; the cells end up showing
     * `FetchEstimate` and the loading flag is lowered.
     */
    method LoadEstimate(key: string, chargedFee: real, lookup: string -> FetchOutcome)
      requires error.None? && NoEstimate() && AssistantCleared()
      modifies this`mbsItemDetails, this`medicareRebate, this`healthFundRebate, this`outOfPocket,
               this`isLoading, this`error, this`hasCalculated,
               this`assistantGapFeeInput, this`showAssistantFields, this`determinedAssistantItemCode,
               this`assistantItemDescription, this`isLoadingAssistantItem, this`errorAssistantItem
      ensures Shows(FetchEstimate(key, chargedFee, lookup)) && !isLoading
    {
      var primaryResponse := lookup(key);
      var thrown := PrimaryFailure(primaryResponse);
      if thrown.Some? {
        error := thrown;
        mbsItemDetails := None;
        ResetAssistantStates();
        isLoading := false;
        return;
      }
      var primaryData := primaryResponse.response.items;

      if |primaryData| == 0 {
        error := Some(NotFound(key));
        mbsItemDetails := None;
        isLoading := false;
        return;
      }

      var primaryItem := primaryData[0];
      mbsItemDetails := Some(primaryItem);

      var calculatedMedicareRebate := primaryItem.benefit75Percent;
      var calculatedHealthFundRebate := primaryItem.scheduleFee - primaryItem.benefit75Percent;
      var calculatedPrimaryOutOfPocket := chargedFee - calculatedMedicareRebate - calculatedHealthFundRebate;

      medicareRebate := Some(calculatedMedicareRebate);
      healthFundRebate := Some(calculatedHealthFundRebate);
      outOfPocket := Some(calculatedPrimaryOutOfPocket);
      hasCalculated := true;

      ghost var assistant: Option<AssistantLine> := None;
      if primaryItem.isAssistEligible {
        ShowAssistantItem(primaryItem.scheduleFee, lookup);
        assistant := Some(AssistantLookup(AssistantCode(primaryItem.scheduleFee), lookup(AssistantCode(primaryItem.scheduleFee))));
      } else {
        ResetAssistantStates();
      }

      isLoading := false;
      assert FetchEstimate(key, chargedFee, lookup) == Estimated(PriceItem(primaryItem, chargedFee, assistant));
    }
  }
}
