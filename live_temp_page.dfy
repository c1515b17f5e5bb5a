/**
 * The live-temperature page: the reading it holds, the `loading` flag, the
 * auto-refresh switch, the Celsius-to-Fahrenheit figure and the choice of what
 * the main panel shows. A fetch is given by its outcome; timers and the network
 * are outside the model.
 */
module LiveTempPage {
  import opened Wrappers

  datatype TemperatureData = TemperatureData(temperature: real, humidity: real, timestamp: string, location: string)

  /** The Fahrenheit figure shown under the Celsius one: `C * 9/5 + 32`. */
  function Fahrenheit(celsius: real): real
  {
    celsius * 9.0 / 5.0 + 32.0
  }

  /** The inverse conversion, used only to state that no reading is lost in the display. */
  function Celsius(fahrenheit: real): real
  {
    (fahrenheit - 32.0) * 5.0 / 9.0
  }

  /** Freezing and boiling points of water land where they should. */
  lemma FahrenheitFixedPoints()
    ensures Fahrenheit(0.0) == 32.0
    ensures Fahrenheit(100.0) == 212.0
    ensures Fahrenheit(-40.0) == -40.0
  {
  }

  /** A warmer reading always shows a larger Fahrenheit figure. */
  lemma FahrenheitStrictlyIncreasing(c1: real, c2: real)
    requires c1 < c2
    ensures Fahrenheit(c1) < Fahrenheit(c2)
  {
  }

  /** The conversion is invertible, so distinct readings show distinct figures. */
  lemma FahrenheitRoundTrip(c: real, f: real)
    ensures Celsius(Fahrenheit(c)) == c
    ensures Fahrenheit(Celsius(f)) == f
  {
  }

  /**
   * The result of one `fetchTemperature` call: either a parsed response with its
   * `success` flag and its `data` member (absent when missing), or an exception
   * thrown by the request or by the JSON parse.
   */
  datatype FetchOutcome = Received(success: bool, data: Option<TemperatureData>) | FetchFailed

  /** The response said `success` (a thrown fetch never does). */
  predicate Succeeded(o: FetchOutcome)
  {
    o.Received? && o.success
  }

  /** The reading held after a fetch: replaced by `result.data` when `result.success`, otherwise kept. */
  function AfterFetch(prev: Option<TemperatureData>, o: FetchOutcome): (r: Option<TemperatureData>)
    ensures Succeeded(o) ==> r == o.data
    ensures !Succeeded(o) ==> r == prev
  {
    match o
    case Received(success, data) => if success then data else prev
    case FetchFailed => prev
  }

  /** What the main panel shows. */
  datatype View = Spinner | ReadingView(reading: TemperatureData) | NoData

  /** The render choice: the spinner while loading, else the reading if there is one, else the empty notice. */
  function ViewOf(loading: bool, tempData: Option<TemperatureData>): (v: View)
    ensures v.Spinner? <==> loading
    ensures v.ReadingView? <==> !loading && tempData.Some?
    ensures v.ReadingView? ==> v.reading == tempData.value
    ensures v.NoData? <==> !loading && tempData.None?
  {
    if loading then Spinner
    else if tempData.Some? then ReadingView(tempData.value)
    else NoData
  }

  /** A sequence of fetches, applied in order. */
  function AfterFetches(prev: Option<TemperatureData>, os: seq<FetchOutcome>): Option<TemperatureData>
    decreases |os|
  {
    if os == [] then prev else AfterFetches(AfterFetch(prev, os[0]), os[1..])
  }

  /**
   * After any run of fetches the page holds the data of the last successful one,
   * or what it held before when none succeeded.
   */
  lemma {:induction false} AfterFetchesIsLastSuccess(prev: Option<TemperatureData>, os: seq<FetchOutcome>)
    ensures (forall i :: 0 <= i < |os| ==> !Succeeded(os[i])) ==> AfterFetches(prev, os) == prev
    ensures forall i :: 0 <= i < |os| && Succeeded(os[i]) && (forall j :: i < j < |os| ==> !Succeeded(os[j]))
              ==> AfterFetches(prev, os) == os[i].data
    decreases |os|
  {
    if os != [] {
      AfterFetchesIsLastSuccess(AfterFetch(prev, os[0]), os[1..]);
      forall i | 0 <= i < |os| && Succeeded(os[i]) &&
                 (forall j :: i < j < |os| ==> !Succeeded(os[j]))
        ensures AfterFetches(prev, os) == os[i].data
      {
        if i > 0 {
          assert os[1..][i - 1] == os[i];
          forall j | i - 1 < j < |os[1..]|
            ensures !Succeeded(os[1..][j])
          {
            assert os[1..][j] == os[j + 1];
          }
        } else {
          forall j | 0 <= j < |os[1..]|
            ensures !Succeeded(os[1..][j])
          {
            assert os[1..][j] == os[j + 1];
          }
        }
      }
      if forall i :: 0 <= i < |os| ==> !Succeeded(os[i]) {
        forall j | 0 <= j < |os[1..]|
          ensures !Succeeded(os[1..][j])
        {
          assert os[1..][j] == os[j + 1];
        }
      }
    }
  }

  /** The state the page component keeps between renders. */
  class LiveTemperaturePage {
    var tempData: Option<TemperatureData>
    var loading: bool
    var autoRefresh: bool

    /** On mount: no data, loading, auto-refresh on. */
    constructor ()
      ensures tempData == None && loading && autoRefresh
      ensures View() == Spinner
    {
      tempData := None;
      loading := true;
      autoRefresh := true;
    }

    function View(): View
      reads this
    {
      ViewOf(loading, tempData)
    }

    /**
     * `fetchTemperature`: keeps or replaces the reading as `AfterFetch` says, and clears
     * `loading` on every outcome, thrown errors included.
     */
    method FetchTemperature(o: FetchOutcome)
      modifies this`tempData, this`loading
      ensures tempData == AfterFetch(old(tempData), o)
      ensures !loading
      ensures View() != Spinner
      ensures Succeeded(o) && o.data.Some? ==> View() == ReadingView(o.data.value)
    {
      if o.Received? && o.success {
        tempData := o.data;
      }
      loading := false;
    }

    /** The ON/OFF button: flips `autoRefresh`, so pressing it twice restores the setting. */
    method ToggleAutoRefresh()
      modifies this`autoRefresh
      ensures autoRefresh == !old(autoRefresh)
    {
      autoRefresh := !autoRefresh;
    }
  }
}
