/** The weather hook (`useWeather`): the weather-code table, and the state updates of one
    fetch: the start, a success that keeps the previous data when it is meaningfully
    equal, and a failure. Each effect run owns an `isMounted` flag that its cleanup
    clears; runs are numbered, and a completion of run `r` applies only while `r` is the
    current run and the hook is mounted. Numbers are modelled as integers. */
module Weather {
  import opened Options
  import Text

  /** The weather-code descriptions of the hook's table. */
  const Descriptions: map<int, string> := map[
    0 := "Clear sky", 1 := "Mainly clear", 2 := "Partly cloudy", 3 := "Overcast",
    45 := "Fog", 48 := "Depositing rime fog",
    51 := "Light drizzle", 53 := "Moderate drizzle", 55 := "Dense drizzle",
    61 := "Slight rain", 63 := "Moderate rain", 65 := "Heavy rain",
    71 := "Slight snow", 73 := "Moderate snow", 75 := "Heavy snow",
    80 := "Rain showers", 81 := "Heavy showers", 95 := "Thunderstorm"]

  const UnknownConditions: string := "Unknown conditions"

  /** `describeWeatherCode`. */
  function DescribeWeatherCode(code: int): (d: string)
    ensures d == UnknownConditions <==> code !in Descriptions
    ensures code in Descriptions ==> d == Descriptions[code]
  {
    if code in Descriptions then Descriptions[code] else UnknownConditions
  }

  /** The table covers exactly the listed codes. */
  lemma DescriptionsKeys()
    ensures Descriptions.Keys == {0, 1, 2, 3, 45, 48, 51, 53, 55, 61, 63, 65, 71, 73, 75, 80, 81, 95}
  {
  }

  /** A wind-speed reading: a number, JSON `null`, or absent. */
  datatype Reading = Value(v: int) | Null | Missing {
    predicate IsNullish() { Null? || Missing? }
  }

  datatype WeatherData = WeatherData(
    temperature: int,
    apparentTemperature: int,
    humidity: int,
    weatherCode: int,
    windSpeed: Reading)

  datatype WeatherState = WeatherState(data: Option<WeatherData>, isLoading: bool, error: Option<string>)

  const InitialState: WeatherState := WeatherState(None, true, None)

  /** The refresh interval when the caller gives none: five minutes. */
  const DefaultRefreshIntervalMs: nat := 5 * 60 * 1000

  /** The hook's test for "no meaningful change": the four numbers equal, and the wind
      speeds equal or both nullish. */
  predicate MeaningfullyEqual(a: WeatherData, b: WeatherData)
    ensures a == b ==> MeaningfullyEqual(a, b)
    ensures MeaningfullyEqual(a, b) ==> DescribeWeatherCode(a.weatherCode) == DescribeWeatherCode(b.weatherCode)
  {
    && a.temperature == b.temperature
    && a.apparentTemperature == b.apparentTemperature
    && a.humidity == b.humidity
    && a.weatherCode == b.weatherCode
    && (a.windSpeed == b.windSpeed || (a.windSpeed.IsNullish() && b.windSpeed.IsNullish()))
  }

  /** An independent reading of the same test: `null` and absent wind speed identified. */
  function Normalize(d: WeatherData): WeatherData {
    if d.windSpeed.IsNullish() then d.(windSpeed := Missing) else d
  }

  lemma MeaningfullyEqualIsNormalizedEquality(a: WeatherData, b: WeatherData)
    ensures MeaningfullyEqual(a, b) <==> Normalize(a) == Normalize(b)
  {
    if Normalize(a) == Normalize(b) {
      assert Normalize(a).windSpeed == Normalize(b).windSpeed;
    }
  }

  /** The test is an equivalence: reflexive, symmetric and transitive. */
  lemma MeaningfullyEqualIsEquivalence(a: WeatherData, b: WeatherData, c: WeatherData)
    ensures MeaningfullyEqual(a, a)
    ensures MeaningfullyEqual(a, b) ==> MeaningfullyEqual(b, a)
    ensures MeaningfullyEqual(a, b) && MeaningfullyEqual(b, c) ==> MeaningfullyEqual(a, c)
  {
    MeaningfullyEqualIsNormalizedEquality(a, b);
    MeaningfullyEqualIsNormalizedEquality(b, c);
    MeaningfullyEqualIsNormalizedEquality(a, c);
  }

  /** The updater at the start of every fetch: loading only while there is no data yet. */
  function FetchStarted(s: WeatherState): (t: WeatherState)
    ensures t.data == s.data && t.error.None?
    ensures t.isLoading <==> s.data.None?
  {
    s.(isLoading := s.data.None?, error := None)
  }

  /** The updater of a successful fetch. */
  function FetchSucceeded(s: WeatherState, d: WeatherData): (t: WeatherState)
    ensures !t.isLoading && t.error.None?
    ensures t.data.Some? && MeaningfullyEqual(t.data.value, d)
    ensures s.data.Some? && MeaningfullyEqual(s.data.value, d) ==> t.data == s.data
    ensures !(s.data.Some? && MeaningfullyEqual(s.data.value, d)) ==> t.data == Some(d)
  {
    if s.data.Some? && MeaningfullyEqual(s.data.value, d) then s.(isLoading := false, error := None)
    else WeatherState(Some(d), false, None)
  }

  /** The state a failed fetch sets: no data, not loading, the message as error. */
  function FetchFailed(message: string): (t: WeatherState)
    ensures t.data.None? && !t.isLoading && t.error == Some(message)
  {
    WeatherState(None, false, Some(message))
  }

  /** A thrown value: an `Error` with its message, or anything else. */
  datatype Thrown = ErrorValue(message: string) | OtherValue

  /** How the request of one fetch ends. `Received` is an ok reply whose `current`
      members gave `d`; a reply without `current` throws while reading it and is a
      `Rejected`. */
  datatype FetchOutcome = NotOk(status: int) | Rejected(thrown: Thrown) | Received(d: WeatherData)

  /** The message of a failed fetch. */
  function FailureMessage(o: FetchOutcome): (m: string)
    requires !o.Received?
    ensures o.NotOk? ==> m == "Weather request failed (" + Text.IntToDecimal(o.status) + ")"
    ensures o.Rejected? && o.thrown.ErrorValue? ==> m == o.thrown.message
    ensures o.Rejected? && o.thrown.OtherValue? ==> m == "Unknown error"
  {
    match o
    case NotOk(status) => "Weather request failed (" + Text.IntToDecimal(status) + ")"
    case Rejected(t) => if t.ErrorValue? then t.message else "Unknown error"
  }

  /** The update a settled fetch applies. */
  function FetchSettled(s: WeatherState, o: FetchOutcome): (t: WeatherState)
    ensures !t.isLoading
    ensures t.error.None? <==> o.Received?
    ensures o.Received? ==> t == FetchSucceeded(s, o.d)
    ensures !o.Received? ==> t == FetchFailed(FailureMessage(o))
  {
    match o
    case Received(d) => FetchSucceeded(s, d)
    case _ => FetchFailed(FailureMessage(o))
  }

  /** A non-ok reply names its status in the message. */
  lemma NotOkMessage(status: int)
    ensures FailureMessage(NotOk(status)) == "Weather request failed (" + Text.IntToDecimal(status) + ")"
    ensures Text.IntToDecimal(503) == "503"
  {
  }

  /** Once data is there, later fetches never show the loading state again. */
  lemma RefreshDoesNotShowLoading(s: WeatherState, d: WeatherData)
    ensures !FetchStarted(FetchSucceeded(s, d)).isLoading
  {
  }

  /** After a failure the data is gone, so the next fetch shows the loading state again. */
  lemma FailureShowsLoadingAgain(message: string)
    ensures FetchStarted(FetchFailed(message)).isLoading
  {
  }

  /** An equal refresh keeps the data object as it was (no new render data). */
  lemma EqualRefreshKeepsData(s: WeatherState, d: WeatherData, d': WeatherData)
    requires MeaningfullyEqual(d, d')
    ensures FetchSucceeded(FetchSucceeded(s, d), d').data == FetchSucceeded(s, d).data
  {
  }

  /** The refresh cycle start-then-success is idempotent. */
  lemma RefreshIdempotent(s: WeatherState, d: WeatherData)
    ensures var t := FetchSucceeded(FetchStarted(s), d);
      FetchSucceeded(FetchStarted(t), d) == t
  {
  }

  class WeatherHook {
    var state: WeatherState
    /** The number of the current effect run; 0 before the first. */
    var run: nat
    /** The refresh timer of the current run exists. */
    var polling: bool
    /** The interval of that timer. */
    var intervalMs: nat
    var unmounted: bool

    constructor()
      ensures state == InitialState && run == 0 && !polling && !unmounted
    {
      intervalMs := DefaultRefreshIntervalMs;
      state := InitialState;
      run := 0;
      polling := false;
      unmounted := false;
    }

    predicate Live(r: nat)
      reads this
    {
      r == run && !unmounted
    }

    /** A run of the effect for the given coordinates, after the previous run's cleanup.
        With a coordinate missing nothing is fetched and no timer is set; otherwise the
        first fetch starts at once and the timer is set. */
    method RunEffect(latitude: Option<real>, longitude: Option<real>, refreshIntervalMs: Option<nat>) returns (r: nat)
      requires !unmounted
      modifies this`state, this`run, this`polling, this`intervalMs
      ensures r == run && run == old(run) + 1
      ensures polling <==> latitude.Some? && longitude.Some?
      ensures polling ==> intervalMs == refreshIntervalMs.GetOr(DefaultRefreshIntervalMs)
      ensures polling ==> state == FetchStarted(old(state))
      ensures !polling ==> state == old(state)
    {
      run := run + 1;
      r := run;
      polling := false;
      if latitude.None? || longitude.None? {
        return;
      }
      state := FetchStarted(state);
      polling := true;
      intervalMs := refreshIntervalMs.GetOr(DefaultRefreshIntervalMs);
    }

    /** A tick of the refresh timer starts another fetch; without a timer nothing fires. */
    method Tick()
      modifies this`state
      ensures polling && !unmounted ==> state == FetchStarted(old(state))
      ensures !(polling && !unmounted) ==> state == old(state)
    {
      if polling && !unmounted {
        state := FetchStarted(state);
      }
    }

    /** A fetch of run `r` settles. */
    method Settle(r: nat, o: FetchOutcome)
      modifies this`state
      ensures Live(r) ==> state == FetchSettled(old(state), o)
      ensures !Live(r) ==> state == old(state)
    {
      if !Live(r) {
        return;
      }
      match o
      case Received(d) =>
        if state.data.Some? && MeaningfullyEqual(state.data.value, d) {
          state := state.(isLoading := false, error := None);
        } else {
          state := WeatherState(Some(d), false, None);
        }
      case NotOk(_) =>
        state := FetchFailed(FailureMessage(o));
      case Rejected(_) =>
        state := FetchFailed(FailureMessage(o));
    }

    /** Unmounting clears `isMounted` and the timer. */
    method Unmount()
      modifies this`unmounted, this`polling
      ensures unmounted && !polling
    {
      unmounted := true;
      polling := false;
    }
  }
}
