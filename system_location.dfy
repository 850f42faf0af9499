/** The system-location hook (`useSystemLocation`): try the browser's geolocation, fall
    back to an IP lookup, and end `ready` or `error`. The browser and the network are
    replaced by events that deliver their outcomes. Each run of the effect owns a
    `canceled` flag that its cleanup sets; here the runs are numbered, and a callback of
    run `r` is live exactly when `r` is the current run and the hook is still mounted. */
module SystemLocation {
  import opened Options
  import Text

  datatype Status = Idle | Loading | Ready | Error

  datatype Source = Geolocation | Ip

  /** Coordinates as finite numbers (the model has no non-finite values). */
  datatype Coords = Coords(latitude: real, longitude: real)

  datatype LocationState = LocationState(
    coords: Option<Coords>,
    labelText: Option<string>,
    source: Option<Source>,
    status: Status,
    error: Option<string>)

  /** The three fields every partial update (`setPartialState`) writes. */
  datatype StatusUpdate = StatusUpdate(status: Status, error: Option<string>, source: Option<Source>)

  /** A thrown value: an `Error` with its message, or anything else. */
  datatype Thrown = ErrorValue(message: string) | OtherValue

  /** The outcome of the IP lookup. `IpData` carries a parsed body: a coordinate is `None`
      when `Number(...)` of it is not finite, and a place name is `None` when it is
      `null` or absent. */
  datatype IpOutcome =
    | IpNotOk(status: int)
    | IpRejected(thrown: Thrown)  // `fetch` or `json()` rejects, the abort included
    | IpData(latitude: Option<real>, longitude: Option<real>,
             city: Option<string>, region: Option<string>, country: Option<string>)

  const CurrentLocationLabel: string := "Current Location"

  /** The states the hook can be found in. */
  predicate Coherent(s: LocationState) {
    match s.status
    case Idle => s.coords.None? && s.labelText.None? && s.source.None? && s.error.None?
    case Loading => s.source.None? && s.error.None?
    case Ready => s.coords.Some? && s.labelText.Some? && s.source.Some? && s.error.None?
    case Error => s.source.None? && s.error.Some?
  }

  function EmptyState(status: Status): (s: LocationState)
    requires status == Idle || status == Loading
    ensures Coherent(s) && s.status == status
    ensures s.coords.None? && s.labelText.None? && s.source.None? && s.error.None?
  {
    LocationState(None, None, None, status, None)
  }

  /** The state the hook starts in: `loading` when enabled, `idle` otherwise, all else null. */
  function InitialState(enabled: bool): (s: LocationState)
    ensures Coherent(s)
    ensures s.status == (if enabled then Loading else Idle)
    ensures s.coords.None? && s.labelText.None? && s.source.None? && s.error.None?
  {
    EmptyState(if enabled then Loading else Idle)
  }

  /** `setState(prev => ({ ...prev, ...update }))`: the update's fields over the rest. */
  function Merge(prev: LocationState, u: StatusUpdate): (s: LocationState)
    ensures s.coords == prev.coords && s.labelText == prev.labelText
    ensures s.status == u.status && s.error == u.error && s.source == u.source
  {
    prev.(status := u.status, error := u.error, source := u.source)
  }

  /** The state after the geolocation answer. */
  function GeolocationReady(c: Coords): (s: LocationState)
    ensures Coherent(s) && s.status == Ready
    ensures s.coords == Some(c) && s.labelText == Some(CurrentLocationLabel)
    ensures s.source == Some(Geolocation) && s.error.None?
  {
    LocationState(Some(c), Some(CurrentLocationLabel), Some(Geolocation), Ready, None)
  }

  /** The reason given to the IP fallback when geolocation fails. */
  function GeolocationFailureReason(message: string): (reason: string)
    ensures reason != ""
    ensures message != "" ==> reason == message
    ensures message == "" ==> reason == "Location permission denied"
  {
    if message != "" then message else "Location permission denied"
  }

  /** The default of the `timeoutMs` option. */
  const DefaultTimeoutMs: int := 7000

  const GeolocationUnavailableReason: string := "Geolocation unavailable"

  /** The error without the IP fallback: the reason, or a default when there is none. */
  function NoFallbackUpdate(reason: Option<string>): (u: StatusUpdate)
    ensures u.status == Error && u.source.None? && u.error.Some?
    ensures reason.Some? ==> u.error == reason
    ensures reason.None? ==> u.error == Some("Location unavailable")
  {
    StatusUpdate(Error, Some(reason.GetOr("Location unavailable")), None)
  }

  const IpStartUpdate: StatusUpdate := StatusUpdate(Loading, None, None)

  /** The message of a thrown value. */
  function MessageOf(t: Thrown): (m: string)
    ensures t.ErrorValue? ==> m == t.message
    ensures t.OtherValue? ==> m == "Unknown error"
  {
    match t
    case ErrorValue(m) => m
    case OtherValue => "Unknown error"
  }

  /** The error text of a failed IP lookup: the reason and the message joined by " - "
      when there is a (non-empty) reason, the message alone otherwise. */
  function IpFailureMessage(reason: Option<string>, message: string): (e: string)
    ensures reason.None? || reason.value == "" ==> e == message
    ensures reason.Some? && reason.value != "" ==>
      |e| == |reason.value| + 3 + |message| && e[..|reason.value|] == reason.value
      && e[|reason.value|..|reason.value| + 3] == " - " && e[|reason.value| + 3..] == message
  {
    if reason.Some? && reason.value != "" then reason.value + " - " + message else message
  }

  /** A place name counts when it is a non-empty string (`filter(Boolean)`). */
  function Truthy(parts: seq<Option<string>>): (r: seq<string>)
    ensures |r| <= |parts|
    ensures forall k :: 0 <= k < |r| ==> r[k] != ""
    ensures forall k :: 0 <= k < |parts| && parts[k].Some? && parts[k].value != "" ==> parts[k].value in r
    ensures r == [] <==> forall k :: 0 <= k < |parts| ==> parts[k].None? || parts[k].value == ""
  {
    if parts == [] then []
    else
      var rest := Truthy(parts[1..]);
      assert forall k :: 1 <= k < |parts| ==> parts[k] == parts[1..][k - 1];
      if parts[0].Some? && parts[0].value != "" then [parts[0].value] + rest else rest
  }

  /** `filter` keeps the parts in order: the truthy parts of a concatenation are those
      of its halves, one after the other. */
  lemma {:induction false} TruthyAppend(a: seq<Option<string>>, b: seq<Option<string>>)
    ensures Truthy(a + b) == Truthy(a) + Truthy(b)
    decreases |a|
  {
    if a == [] {
      assert a + b == b;
    } else {
      assert (a + b)[1..] == a[1..] + b;
      TruthyAppend(a[1..], b);
    }
  }

  /** A single part is kept iff it is a non-empty string. */
  lemma TruthySingle(p: Option<string>)
    ensures Truthy([p]) == if p.Some? && p.value != "" then [p.value] else []
  {
    assert [p][1..] == [];
  }

  /** The label's parts are the truthy ones among city, region and country, in that order. */
  lemma RegionPartsInOrder(city: Option<string>, region: Option<string>, country: Option<string>)
    ensures Truthy([city, region, country]) == Truthy([city]) + Truthy([region]) + Truthy([country])
  {
    assert [city, region, country] == [city] + ([region] + [country]);
    TruthyAppend([city], [region] + [country]);
    TruthyAppend([region], [country]);
  }

  /** The label of an IP result: the truthy place names joined by ", ", or
      "Current Location" when there are none. */
  function RegionLabel(city: Option<string>, region: Option<string>, country: Option<string>): (l: string)
    ensures Truthy([city, region, country]) == [] ==> l == CurrentLocationLabel
    ensures Truthy([city, region, country]) != [] ==> l == Text.Join(Truthy([city, region, country]), ", ")
  {
    var parts := Truthy([city, region, country]);
    var joined := Text.Join(parts, ", ");
    if joined != "" then joined else CurrentLocationLabel
  }

  /** The label names the city first whenever a city is known. */
  lemma RegionLabelStartsWithCity(city: string, region: Option<string>, country: Option<string>)
    requires city != ""
    ensures var l := RegionLabel(Some(city), region, country);
      |city| <= |l| && l[..|city|] == city
  {
    assert Truthy([Some(city), region, country])[0] == city;
  }

  /** With all three names known, every one of them is kept. */
  lemma TruthyAllKnown(city: string, region: string, country: string)
    requires city != "" && region != "" && country != ""
    ensures Truthy([Some(city), Some(region), Some(country)]) == [city, region, country]
  {
    RegionPartsInOrder(Some(city), Some(region), Some(country));
    TruthySingle(Some(city));
    TruthySingle(Some(region));
    TruthySingle(Some(country));
  }

  /** With all three names known, the label reads "city, region, country". */
  lemma RegionLabelAllParts(city: string, region: string, country: string)
    requires city != "" && region != "" && country != ""
    ensures RegionLabel(Some(city), Some(region), Some(country)) == city + ", " + region + ", " + country
  {
    TruthyAllKnown(city, region, country);
    Text.JoinThree(city, region, country, ", ");
  }

  /** What the IP-lookup part of `fetchIpLocation` does to the state once its request
      settles: a full replacement on success, a partial error update otherwise. */
  function IpSettled(prev: LocationState, reason: Option<string>, o: IpOutcome): (s: LocationState)
    ensures Coherent(prev) ==> Coherent(s)
    ensures s.status == Ready || s.status == Error
    ensures s.status == Ready <==> o.IpData? && o.latitude.Some? && o.longitude.Some?
    ensures s.status == Ready ==>
      s.source == Some(Ip) && s.coords == Some(Coords(o.latitude.value, o.longitude.value))
      && s.labelText == Some(RegionLabel(o.city, o.region, o.country))
    ensures s.status == Error ==> s.coords == prev.coords && s.labelText == prev.labelText && s.source.None?
    ensures o.IpNotOk? ==>
      s.error == Some(IpFailureMessage(reason, "IP lookup failed (" + Text.IntToDecimal(o.status) + ")"))
    ensures o.IpRejected? ==> s.error == Some(IpFailureMessage(reason, MessageOf(o.thrown)))
    ensures o.IpData? && (o.latitude.None? || o.longitude.None?) ==>
      s.error == Some(IpFailureMessage(reason, "Received invalid coordinates"))
  {
    match o
    case IpNotOk(status) =>
      Merge(prev, StatusUpdate(Error, Some(IpFailureMessage(reason, "IP lookup failed (" + Text.IntToDecimal(status) + ")")), None))
    case IpRejected(t) =>
      Merge(prev, StatusUpdate(Error, Some(IpFailureMessage(reason, MessageOf(t))), None))
    case IpData(lat, lon, city, region, country) =>
      if lat.None? || lon.None? then
        Merge(prev, StatusUpdate(Error, Some(IpFailureMessage(reason, "Received invalid coordinates")), None))
      else
        LocationState(Some(Coords(lat.value, lon.value)), Some(RegionLabel(city, region, country)), Some(Ip), Ready, None)
  }

  /** A failed IP lookup after a geolocation failure reports both. */
  lemma IpFailureAfterReason(prev: LocationState, reason: string, status: int)
    requires reason != ""
    ensures IpSettled(prev, Some(reason), IpNotOk(status)).error
      == Some(reason + " - " + "IP lookup failed (" + Text.IntToDecimal(status) + ")")
  {
    var m := "IP lookup failed (" + Text.IntToDecimal(status) + ")";
    assert reason + " - " + m == reason + " - " + "IP lookup failed (" + Text.IntToDecimal(status) + ")";
  }

  /** The asynchronous step the current run of the effect waits for. */
  datatype Pending = NoPending | AwaitingPosition | AwaitingIp(reason: Option<string>)

  class LocationHook {
    var state: LocationState
    var attempt: nat
    var enabled: bool
    /** The geolocation timeout; it reaches only the browser call, but it is an effect
        dependency. */
    var timeoutMs: int
    var ipFallback: bool
    /** The number of the current effect run; 0 before the first. */
    var run: nat
    var pending: Pending
    var unmounted: bool

    ghost predicate Valid()
      reads this
    {
      && Coherent(state)
      && (run > 0 ==> (pending.NoPending? <==> state.status != Loading))
      && (!enabled ==> pending.NoPending? && state == EmptyState(Idle))
    }

    /** What a run of the effect leaves behind, given the state `prev` it started from. */
    predicate AfterEffect(prev: LocationState, geolocationAvailable: bool)
      reads this
    {
      if !enabled then state == EmptyState(Idle) && pending == NoPending
      else if geolocationAvailable then state == EmptyState(Loading) && pending == AwaitingPosition
      else if !ipFallback then
        state == Merge(prev, NoFallbackUpdate(Some(GeolocationUnavailableReason))) && pending == NoPending
      else
        state == Merge(prev, IpStartUpdate) && pending == AwaitingIp(Some(GeolocationUnavailableReason))
    }

    /** A callback of run `r` still reaches the state: its `canceled` flag is unset. */
    predicate Live(r: nat)
      reads this
    {
      r == run && !unmounted
    }

    constructor(enabled: bool, timeoutMs: int, ipFallback: bool)
      ensures Valid() && state == InitialState(enabled) && attempt == 0 && run == 0
      ensures this.enabled == enabled && this.timeoutMs == timeoutMs && this.ipFallback == ipFallback
      ensures !unmounted
    {
      state := InitialState(enabled);
      attempt := 0;
      this.enabled := enabled;
      this.timeoutMs := timeoutMs;
      this.ipFallback := ipFallback;
      run := 0;
      pending := NoPending;
      unmounted := false;
    }

    /** A `setPartialState` call of the current run. */
    method SetPartialState(u: StatusUpdate)
      modifies this`state
      ensures state == Merge(old(state), u)
    {
      state := Merge(state, u);
    }

    /** `fetchIpLocation(reason)` up to its request: without the fallback the error is
        final; otherwise the state goes back to loading and the lookup is awaited. */
    method StartIpLookup(reason: Option<string>)
      modifies this`state, this`pending
      ensures !ipFallback ==> state == Merge(old(state), NoFallbackUpdate(reason)) && pending == NoPending
      ensures ipFallback ==> state == Merge(old(state), IpStartUpdate) && pending == AwaitingIp(reason)
    {
      if !ipFallback {
        SetPartialState(NoFallbackUpdate(reason));
        pending := NoPending;
        return;
      }
      SetPartialState(IpStartUpdate);
      pending := AwaitingIp(reason);
    }

    /** A run of the effect, after the cleanup of the previous one has canceled it.
        `geolocationAvailable` says whether `navigator.geolocation` exists. */
    method RunEffect(geolocationAvailable: bool) returns (r: nat)
      requires Coherent(state) && !unmounted
      modifies this`state, this`pending, this`run
      ensures Valid() && r == run && run == old(run) + 1
      ensures AfterEffect(old(state), geolocationAvailable)
    {
      run := run + 1;
      r := run;
      if !enabled {
        state := EmptyState(Idle);
        pending := NoPending;
        return;
      }
      if !geolocationAvailable {
        StartIpLookup(Some(GeolocationUnavailableReason));
        return;
      }
      state := EmptyState(Loading);
      pending := AwaitingPosition;
    }

    /** The geolocation success callback of run `r`. */
    method PositionSucceeded(r: nat, c: Coords)
      requires Valid() && (Live(r) ==> pending.AwaitingPosition?)
      modifies this`state, this`pending
      ensures Valid()
      ensures Live(r) ==> state == GeolocationReady(c) && pending == NoPending
      ensures !Live(r) ==> state == old(state) && pending == old(pending)
    {
      if !Live(r) {
        return;
      }
      state := GeolocationReady(c);
      pending := NoPending;
    }

    /** The geolocation error callback of run `r`: fall back to the IP lookup with the
        error's message as the reason. The callback itself is not guarded; the updates it
        makes are. */
    method PositionFailed(r: nat, message: string)
      requires Valid() && (Live(r) ==> pending.AwaitingPosition?)
      modifies this`state, this`pending
      ensures Valid()
      ensures Live(r) && !ipFallback ==>
        state == Merge(old(state), NoFallbackUpdate(Some(GeolocationFailureReason(message)))) && pending == NoPending
      ensures Live(r) && ipFallback ==>
        state == Merge(old(state), IpStartUpdate) && pending == AwaitingIp(Some(GeolocationFailureReason(message)))
      ensures !Live(r) ==> state == old(state) && pending == old(pending)
    {
      if !Live(r) {
        return;
      }
      StartIpLookup(Some(GeolocationFailureReason(message)));
    }

    /** The IP lookup of run `r` settles. */
    method IpLookupSettled(r: nat, o: IpOutcome)
      requires Valid() && (Live(r) ==> pending.AwaitingIp?)
      modifies this`state, this`pending
      ensures Valid()
      ensures Live(r) ==> state == IpSettled(old(state), old(pending).reason, o) && pending == NoPending
      ensures !Live(r) ==> state == old(state) && pending == old(pending)
    {
      if !Live(r) {
        return;
      }
      state := IpSettled(state, pending.reason, o);
      pending := NoPending;
    }

    /** `retry`: only when enabled, bump `attempt`, which reruns the effect. */
    method Retry(geolocationAvailable: bool) returns (r: Option<nat>)
      requires Valid() && !unmounted
      modifies this`state, this`pending, this`run, this`attempt
      ensures Valid()
      ensures enabled ==> attempt == old(attempt) + 1 && run == old(run) + 1 && r == Some(run)
      ensures enabled ==> AfterEffect(old(state), geolocationAvailable)
      ensures !enabled ==> attempt == old(attempt) && run == old(run) && state == old(state) && r.None?
    {
      if !enabled {
        return None;
      }
      attempt := attempt + 1;
      var n := RunEffect(geolocationAvailable);
      r := Some(n);
    }

    /** A render with new options: a change of `enabled`, `timeoutMs` or `ipFallback`
        reruns the effect. */
    method ChangeOptions(enabled': bool, timeoutMs': int, ipFallback': bool, geolocationAvailable: bool)
      requires Valid() && !unmounted
      modifies this
      ensures Valid() && enabled == enabled' && timeoutMs == timeoutMs' && ipFallback == ipFallback'
      ensures !unmounted && attempt == old(attempt)
      ensures (enabled', timeoutMs', ipFallback') == (old(enabled), old(timeoutMs), old(ipFallback)) ==>
        unchanged(this)
      ensures (enabled', timeoutMs', ipFallback') != (old(enabled), old(timeoutMs), old(ipFallback)) ==>
        run == old(run) + 1 && AfterEffect(old(state), geolocationAvailable)
    {
      if (enabled', timeoutMs', ipFallback') == (enabled, timeoutMs, ipFallback) {
        return;
      }
      enabled := enabled';
      timeoutMs := timeoutMs';
      ipFallback := ipFallback';
      var _ := RunEffect(geolocationAvailable);
    }

    /** Unmounting runs the cleanup of the current run. */
    method Unmount()
      modifies this`unmounted
      ensures unmounted
    {
      unmounted := true;
    }
  }

  /** The fallback chain end to end: geolocation is refused, the IP lookup succeeds with
      a city only; a callback of the canceled first run changes nothing afterwards. */
  method FallbackScenario()
  {
    var h := new LocationHook(true, DefaultTimeoutMs, true);
    var r1 := h.RunEffect(true);
    assert h.state.status == Loading;
    h.PositionFailed(r1, "");
    assert h.pending == AwaitingIp(Some("Location permission denied"));
    var r2 := h.Retry(true);
    h.IpLookupSettled(r1, IpRejected(ErrorValue("aborted")));
    assert h.state == EmptyState(Loading);
    h.PositionFailed(r2.value, "denied");
    h.IpLookupSettled(r2.value, IpData(Some(1.5), Some(2.0), Some("Oslo"), None, Some("")));
    assert Truthy([Some("Oslo"), None, Some("")]) == ["Oslo"];
    assert h.state.status == Ready && h.state.labelText == Some("Oslo") && h.state.source == Some(Ip);
  }

  /** A render with the same options leaves the effect running: its geolocation
      answer still arrives and is applied. */
  method RerenderKeepsCallback(c: Coords)
  {
    var h := new LocationHook(true, DefaultTimeoutMs, true);
    var r := h.RunEffect(true);
    h.ChangeOptions(true, DefaultTimeoutMs, true, true);
    h.PositionSucceeded(r, c);
    assert h.state == GeolocationReady(c);
  }
}
