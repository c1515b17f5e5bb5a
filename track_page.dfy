/**
 * The tracking form of `/track`: `handleSubmit` rejects blank input, looks up the
 * first delivery whose tracking number equals the lower-cased, trimmed input
 * (the stored number lower-cased too), and navigates to the stored number or
 * shows an error.
 */
module TrackPage {
  import opened Wrappers
  import opened JsStrings
  import opened DeliveryData

  /** The `error` state: one of the only three strings the page ever stores there. */
  datatype ErrorText = NoError | EnterNumber | NumberNotFound
  {
    /** The text the page shows (`''` shows nothing). */
    function Message(): string
    {
      match this
      case NoError => ""
      case EnterNumber => "Please enter a tracking number"
      case NumberNotFound => "Tracking number not found. Please check and try again."
    }
  }

  /** `trackingNumber.toLowerCase().trim()`: what stored numbers are compared against. */
  function Query(input: string): string
  {
    Trim(Lower(input))
  }

  /** The `find` predicate: the stored number, lower-cased but not trimmed, equals the query. */
  predicate Matches(d: ProductDelivery, query: string)
  {
    Lower(d.trackingNumber) == query
  }

  /** `deliveries.find(...)` from position `from` on, as the index of the first match. */
  function FindFirst(ds: seq<ProductDelivery>, query: string, from: nat): (r: Option<nat>)
    ensures r.Some? ==> from <= r.value < |ds| && Matches(ds[r.value], query)
    ensures r.Some? ==> forall j :: from <= j < r.value ==> !Matches(ds[j], query)
    ensures r.None? ==> forall j :: from <= j < |ds| ==> !Matches(ds[j], query)
    decreases |ds| - from
  {
    if from >= |ds| then None
    else if Matches(ds[from], query) then Some(from)
    else FindFirst(ds, query, from + 1)
  }

  /** What a submit does: reject blank input, navigate, or report a missing number. */
  datatype SubmitOutcome = Blank | NotFound | Navigate(path: string)

  function Submit(input: string, ds: seq<ProductDelivery>): (o: SubmitOutcome)
    ensures o.Blank? <==> Trim(input) == []
    ensures o.Navigate? ==> FindFirst(ds, Query(input), 0).Some?
    ensures o.NotFound? ==> FindFirst(ds, Query(input), 0).None?
  {
    if Trim(input) == [] then Blank
    else match FindFirst(ds, Query(input), 0)
      case None => NotFound
      case Some(i) => Navigate("/track/" + ds[i].trackingNumber)
  }

  /** The error shown after a submit: cleared first, then set on the two failure paths. */
  function ErrorAfter(o: SubmitOutcome): ErrorText
  {
    match o
    case Blank => EnterNumber
    case NotFound => NumberNotFound
    case Navigate(_) => NoError
  }

  /** Input that is empty or only white space is rejected before any lookup. */
  lemma BlankIffWhitespace(input: string, ds: seq<ProductDelivery>)
    ensures Submit(input, ds).Blank? <==> forall i :: 0 <= i < |input| ==> IsJsWhitespace(input[i])
  {
    TrimEmptyIff(input);
  }

  /**
   * A non-blank submit navigates to `/track/` followed by the STORED number of the
   * first matching delivery, in list order.
   */
  lemma NavigatesToFirstMatch(input: string, ds: seq<ProductDelivery>, i: nat)
    requires Trim(input) != []
    requires i < |ds| && Matches(ds[i], Query(input))
    requires forall j :: 0 <= j < i ==> !Matches(ds[j], Query(input))
    ensures Submit(input, ds) == Navigate("/track/" + ds[i].trackingNumber)
  {
    var r := FindFirst(ds, Query(input), 0);
    assert r.Some?;
    assert !(r.value < i) && !(r.value > i);
  }

  /** A non-blank submit reports "not found" exactly when no delivery matches. */
  lemma NotFoundIffNoMatch(input: string, ds: seq<ProductDelivery>)
    requires Trim(input) != []
    ensures Submit(input, ds).NotFound? <==> forall j :: 0 <= j < |ds| ==> !Matches(ds[j], Query(input))
  {
  }

  /** Every navigation goes to a stored number that matches the input case-insensitively. */
  lemma NavigationIsCanonical(input: string, ds: seq<ProductDelivery>)
    requires Submit(input, ds).Navigate?
    ensures exists i :: 0 <= i < |ds| && Matches(ds[i], Query(input))
                        && Submit(input, ds).path == "/track/" + ds[i].trackingNumber
  {
    var i := FindFirst(ds, Query(input), 0).value;
    assert Matches(ds[i], Query(input));
  }

  /** On the mock deliveries at most one delivery matches any input. */
  lemma MockLookupUnambiguous(query: string, i: nat, j: nat)
    requires i < |mockDeliveries| && j < |mockDeliveries|
    requires Matches(mockDeliveries[i], query) && Matches(mockDeliveries[j], query)
    ensures i == j
  {
    if i < j {
      TrackingNumbersDistinct(i, j);
    } else if j < i {
      TrackingNumbersDistinct(j, i);
    }
  }

  /** Lower-casing cannot tell apart two characters with the same lower case. */
  lemma LowerIgnoresSameCase(a: string, n: nat, c: char)
    requires n < |a| && LowerChar(c) == LowerChar(a[n])
    ensures Lower(a[n := c]) == Lower(a)
  {
  }

  const firstTrackingNumber := "HKC-TOM-2025-001"

  /** The first tracking number with its `K` typed as KELVIN SIGN (U+212A). */
  const kelvinQuery := firstTrackingNumber[1 := '\U{212A}']

  /** The Kelvin-sign spelling is not blank. */
  lemma KelvinQueryNotBlank()
    ensures Trim(kelvinQuery) != []
  {
    TrimEmptyIff(kelvinQuery);
    assert !IsJsWhitespace(kelvinQuery[0]);
  }

  /** The Kelvin-sign spelling lower-cases and trims to the stored number's lower case. */
  lemma KelvinQueryLowers()
    ensures Query(kelvinQuery) == Lower(firstTrackingNumber)
  {
    LowerIgnoresSameCase(firstTrackingNumber, 1, '\U{212A}');
    TrimOfTrimmed(Lower(firstTrackingNumber));
  }

  /**
   * A query spelling `K` as KELVIN SIGN still finds the first delivery, since
   * `toLowerCase` maps that sign to `k`.
   */
  lemma KelvinSignQueryFound()
    ensures Submit(kelvinQuery, mockDeliveries) == Navigate("/track/" + firstTrackingNumber)
  {
    TrackingNumbersAre();
    KelvinQueryNotBlank();
    KelvinQueryLowers();
    NavigatesToFirstMatch(kelvinQuery, mockDeliveries, 0);
  }

  /** The tracking form's state. */
  class TrackForm {
    var trackingNumber: string
    var error: ErrorText

    constructor ()
      ensures trackingNumber == "" && error == NoError
    {
      trackingNumber, error := "", NoError;
    }

    /** The input's `onChange`. */
    method SetTrackingNumber(value: string)
      modifies this`trackingNumber
      ensures trackingNumber == value
    {
      trackingNumber := value;
    }

    /** `handleSubmit`; `router.push` is the returned navigation target. */
    method HandleSubmit(ds: seq<ProductDelivery>) returns (navigation: Option<string>)
      modifies this`error
      ensures error == ErrorAfter(Submit(trackingNumber, ds))
      ensures Submit(trackingNumber, ds).Navigate? ==> navigation == Some(Submit(trackingNumber, ds).path)
      ensures !Submit(trackingNumber, ds).Navigate? ==> navigation == None
    {
      error := NoError;
      if Trim(trackingNumber) == [] {
        assert Submit(trackingNumber, ds) == Blank;
        error := EnterNumber;
        return None;
      }
      var found := FindFirst(ds, Query(trackingNumber), 0);
      if found.Some? {
        assert Submit(trackingNumber, ds) == Navigate("/track/" + ds[found.value].trackingNumber);
        navigation := Some("/track/" + ds[found.value].trackingNumber);
      } else {
        assert Submit(trackingNumber, ds) == NotFound;
        error := NumberNotFound;
        navigation := None;
      }
    }
  }
}
