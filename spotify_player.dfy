/** The Spotify player hook (`useSpotifyPlayer`): five state cells refreshed by polling the
    Web API's playback-state endpoint, and four control intents that each issue one request
    and then ask for a quick re-poll. Timers and the network are replaced by explicit
    outcomes: a poll is applied with the outcome of its request, and an action reports
    which request it sends and which follow-up poll it schedules. */
module SpotifyPlayer {
  import opened Options
  import Text

  /** The part of a Web API track item the dashboard reads: its name, the urls of the
      album images (a missing url reads as ""), and the artist names. */
  datatype Track = Track(name: string, imageUrls: seq<string>, artistNames: seq<string>)

  /** The device object of a playback-state reply. */
  datatype Device = Device(id: string, name: string, volumePercent: int)

  /** The placeholder track the hook starts with: empty name, one image with an empty url
      and one artist with an empty name. */
  const PlaceholderTrack: Track := Track("", [""], [""])

  /** The five state cells of the hook. */
  datatype PlayerState = PlayerState(
    paused: bool,
    active: bool,
    track: Track,
    volume: int,
    device: Option<Device>)

  const InitialVolume: int := 50

  const InitialState: PlayerState := PlayerState(true, false, PlaceholderTrack, InitialVolume, None)

  /** What reading the body of a reply as JSON gives. `Playback` is a truthy JSON value:
      `isPlaying` is the truthiness of its `is_playing`, `item` and `device` are present
      iff the corresponding member is truthy. */
  datatype Body =
    | Unparsable  // `response.json()` rejects
    | NullBody    // a falsy JSON value such as `null`
    | Playback(isPlaying: bool, item: Option<Track>, device: Option<Device>)

  /** The outcome of one GET of the player endpoint. */
  datatype PollOutcome =
    | TransportError  // `fetch` rejects
    | Replied(status: int, body: Body)

  /** A token is usable when it is a non-empty string (`!token` is false). */
  predicate HasToken(token: string) {
    token != ""
  }

  /** The status test of the hook: 204 (no active device) or any status above 400.
      Status 400 itself is not in it and goes on to the body. */
  predicate SignalsInactive(status: int) {
    status == 204 || status > 400
  }

  /** The state after one poll whose request had outcome `r`: the spec of `fetchState`. */
  function Poll(s: PlayerState, token: string, r: PollOutcome): (t: PlayerState)
    ensures t.track != s.track || t.paused != s.paused ==> t.active
    ensures t.volume != s.volume || t.device != s.device ==> t.active && t.device.Some?
    ensures t.device.Some? ==> t.volume == t.device.value.volumePercent || t.device == s.device
  {
    if !HasToken(token) then s
    else match r
      case TransportError => s
      case Replied(status, body) =>
        if SignalsInactive(status) then s.(active := false)
        else match body
          case Unparsable => s
          case NullBody => s.(active := false)
          case Playback(isPlaying, item, device) =>
            if item.None? then s.(active := false)
            else
              var u := s.(active := true, paused := !isPlaying);
              var v := if device.Some? then u.(volume := device.value.volumePercent, device := device) else u;
              v.(track := item.value)
  }

  // ---- The branches of a poll, one lemma each ----

  /** Without a token a poll changes nothing. */
  lemma PollWithoutToken(s: PlayerState, r: PollOutcome)
    ensures Poll(s, "", r) == s
  {
  }

  /** 204 and statuses above 400 clear `active` and nothing else; 400 is not one of them. */
  lemma PollInactiveStatus(s: PlayerState, token: string, status: int, b: Body)
    requires HasToken(token) && (status == 204 || status > 400)
    ensures Poll(s, token, Replied(status, b)) == s.(active := false)
    ensures !SignalsInactive(400)
  {
  }

  /** A null body, or one without an item, clears `active` and nothing else. */
  lemma PollWithoutItem(s: PlayerState, token: string, status: int, isPlaying: bool, d: Option<Device>)
    requires HasToken(token) && !SignalsInactive(status)
    ensures Poll(s, token, Replied(status, NullBody)) == s.(active := false)
    ensures Poll(s, token, Replied(status, Playback(isPlaying, None, d))) == s.(active := false)
  {
  }

  /** A body with an item makes the player active, takes `paused` and the track from it,
      and takes volume and device from it exactly when it reports a device. */
  lemma PollWithItem(s: PlayerState, token: string, status: int, isPlaying: bool, item: Track, d: Option<Device>)
    requires HasToken(token) && !SignalsInactive(status)
    ensures var t := Poll(s, token, Replied(status, Playback(isPlaying, Some(item), d)));
      && t.active && t.paused == !isPlaying && t.track == item
      && (d.Some? ==> t.volume == d.value.volumePercent && t.device == d)
      && (d.None? ==> t.volume == s.volume && t.device == s.device)
  {
  }

  /** A transport failure, or a body that does not parse, leaves the state as it was. */
  lemma PollFailureKeepsState(s: PlayerState, token: string, status: int)
    requires !SignalsInactive(status)
    ensures Poll(s, token, TransportError) == s
    ensures Poll(s, token, Replied(status, Unparsable)) == s
  {
  }

  /** Applying the same outcome twice is applying it once. */
  lemma PollIdempotent(s: PlayerState, token: string, r: PollOutcome)
    ensures Poll(Poll(s, token, r), token, r) == Poll(s, token, r)
  {
  }

  // ---- A run of polls ----

  /** The state after the polls `rs`, applied in order. */
  function PollAll(s: PlayerState, token: string, rs: seq<PollOutcome>): PlayerState
  {
    if rs == [] then s else Poll(PollAll(s, token, rs[..|rs| - 1]), token, rs[|rs| - 1])
  }

  /** Whether a poll outcome writes `active`: everything except a missing token, a
      transport error and an unparsable body of a status outside the inactive branch. */
  predicate SetsActive(token: string, r: PollOutcome) {
    HasToken(token) && r.Replied? && (SignalsInactive(r.status) || !r.body.Unparsable?)
  }

  /** The track a poll outcome installs: present iff the outcome writes `paused` and `track`. */
  function ItemOf(token: string, r: PollOutcome): Option<Track> {
    if HasToken(token) && r.Replied? && !SignalsInactive(r.status) && r.body.Playback? then r.body.item
    else None
  }

  /** The device a poll outcome installs, together with its volume. */
  function DeviceOf(token: string, r: PollOutcome): Option<Device> {
    if ItemOf(token, r).Some? then r.body.device else None
  }

  /** Outcomes that write nothing leave the state unchanged. */
  lemma {:induction false} PollAllInert(s: PlayerState, token: string, rs: seq<PollOutcome>)
    requires forall j :: 0 <= j < |rs| ==> !SetsActive(token, rs[j])
    ensures PollAll(s, token, rs) == s
  {
    if rs != [] {
      PollAllInert(s, token, rs[..|rs| - 1]);
    }
  }

  /** `active` ends up as the last outcome that writes it says: true iff that outcome
      carries an item. */
  lemma {:induction false} ActiveFollowsLastWriter(s: PlayerState, token: string, rs: seq<PollOutcome>, i: int)
    requires 0 <= i < |rs| && SetsActive(token, rs[i])
    requires forall j :: i < j < |rs| ==> !SetsActive(token, rs[j])
    ensures PollAll(s, token, rs).active == ItemOf(token, rs[i]).Some?
  {
    if i < |rs| - 1 {
      ActiveFollowsLastWriter(s, token, rs[..|rs| - 1], i);
    }
  }

  /** The track shown is the one of the last outcome that carried an item, and the
      playing flag is the one that outcome reported. */
  lemma {:induction false} TrackFollowsLastItem(s: PlayerState, token: string, rs: seq<PollOutcome>, i: int)
    requires 0 <= i < |rs| && ItemOf(token, rs[i]).Some?
    requires forall j :: i < j < |rs| ==> ItemOf(token, rs[j]).None?
    ensures PollAll(s, token, rs).track == ItemOf(token, rs[i]).value
    ensures PollAll(s, token, rs).paused == !rs[i].body.isPlaying
  {
    if i < |rs| - 1 {
      TrackFollowsLastItem(s, token, rs[..|rs| - 1], i);
    }
  }

  /** With no device reported alongside an item, volume and device stay as they were. */
  lemma {:induction false} VolumeKeptWithoutDevice(s: PlayerState, token: string, rs: seq<PollOutcome>)
    requires forall j :: 0 <= j < |rs| ==> DeviceOf(token, rs[j]).None?
    ensures PollAll(s, token, rs).volume == s.volume
    ensures PollAll(s, token, rs).device == s.device
  {
    if rs != [] {
      VolumeKeptWithoutDevice(s, token, rs[..|rs| - 1]);
    }
  }

  /** The volume is that of the last device reported alongside an item. */
  lemma {:induction false} VolumeFollowsLastDevice(s: PlayerState, token: string, rs: seq<PollOutcome>, i: int)
    requires 0 <= i < |rs| && DeviceOf(token, rs[i]).Some?
    requires forall j :: i < j < |rs| ==> DeviceOf(token, rs[j]).None?
    ensures PollAll(s, token, rs).volume == DeviceOf(token, rs[i]).value.volumePercent
    ensures PollAll(s, token, rs).device == DeviceOf(token, rs[i])
  {
    if i < |rs| - 1 {
      VolumeFollowsLastDevice(s, token, rs[..|rs| - 1], i);
    }
  }

  // ---- Polling schedule ----

  const PollIntervalMs: nat := 1000

  /** What the polling effect sets up: a poll right away and a repeating timer. */
  datatype PollSchedule = PollSchedule(pollsNow: bool, intervalMs: Option<nat>)

  /** Polling runs only with a token: then one poll at once and one every second. */
  function PollingFor(token: string): (p: PollSchedule)
    ensures p.pollsNow <==> HasToken(token)
    ensures p.intervalMs.Some? <==> HasToken(token)
    ensures p.intervalMs.Some? ==> p.intervalMs.value == PollIntervalMs
  {
    if HasToken(token) then PollSchedule(true, Some(PollIntervalMs)) else PollSchedule(false, None)
  }

  // ---- Control intents ----

  datatype HttpMethod = Put | Post

  /** A request to `https://api.spotify.com/v1/me/player/<endpoint>`. */
  datatype Request = Request(verb: HttpMethod, endpoint: string)

  datatype Intent =
    | TogglePlay
    | NextTrack
    | PreviousTrack
    | SetPlayerVolume(percent: int)

  const VolumeEndpointPrefix: string := "volume?volume_percent="

  /** The request an intent issues; `paused` is the hook's `is_paused` at the call. */
  function RequestFor(paused: bool, intent: Intent): (req: Request)
    ensures req.verb == Post <==> intent.NextTrack? || intent.PreviousTrack?
    ensures intent.TogglePlay? ==> req.endpoint == (if paused then "play" else "pause")
    ensures intent.SetPlayerVolume? ==> Text.IsPrefix(VolumeEndpointPrefix, req.endpoint)
  {
    match intent
    case TogglePlay => if paused then Request(Put, "play") else Request(Put, "pause")
    case NextTrack => Request(Post, "next")
    case PreviousTrack => Request(Post, "previous")
    case SetPlayerVolume(v) => Request(Put, VolumeEndpointPrefix + Text.IntToDecimal(v))
  }

  /** The volume a request asks for, read back from its query string. */
  function RequestedVolume(req: Request): (v: Option<int>)
    ensures v.Some? ==> req.verb == Put
  {
    var e := req.endpoint;
    var n := |VolumeEndpointPrefix|;
    if req.verb == Put && Text.IsPrefix(VolumeEndpointPrefix, e) && |e| > n
       && (Text.AllDigits(e[n..]) || (e[n] == '-' && Text.AllDigits(e[n + 1..])))
    then
      assert e[n..][1..] == e[n + 1..];
      Some(Text.SignedDecimalValue(e[n..]))
    else None
  }

  /** Play/pause is decided by the last known `paused`; skipping is a POST. */
  lemma TransportRequests(paused: bool)
    ensures RequestFor(paused, TogglePlay) == if paused then Request(Put, "play") else Request(Put, "pause")
    ensures RequestFor(paused, NextTrack) == Request(Post, "next")
    ensures RequestFor(paused, PreviousTrack) == Request(Post, "previous")
    ensures RequestedVolume(RequestFor(paused, TogglePlay)).None?
  {
  }

  /** The volume request carries exactly the value given, with no clamping: reading the
      query string back yields `v` for every integer, 200 and -5 included. */
  lemma VolumeRequestUnclamped(paused: bool, v: int)
    ensures RequestFor(paused, SetPlayerVolume(v)).verb == Put
    ensures RequestedVolume(RequestFor(paused, SetPlayerVolume(v))) == Some(v)
  {
    var e := RequestFor(paused, SetPlayerVolume(v)).endpoint;
    var n := |VolumeEndpointPrefix|;
    var d := Text.IntToDecimal(v);
    assert e == VolumeEndpointPrefix + d;
    assert e[..n] == VolumeEndpointPrefix;
    assert e[n..] == d;
    Text.IntDecimalRoundTrip(v);
  }

  /** Different intents issued from the same state send different requests. */
  lemma RequestForInjective(paused: bool, i: Intent, j: Intent)
    requires RequestFor(paused, i) == RequestFor(paused, j)
    ensures i == j
  {
    if i.SetPlayerVolume? && j.SetPlayerVolume? {
      VolumeRequestUnclamped(paused, i.percent);
      VolumeRequestUnclamped(paused, j.percent);
    }
  }

  /** How a control request ends: it settles with some HTTP status, or `fetch` rejects. */
  datatype ActionOutcome = Settled(status: int) | Rejected

  const FollowUpDelayMs: nat := 200

  /** What one action does: the request it sends, and the delay of the follow-up poll it
      schedules. */
  datatype ActionEffect = ActionEffect(sent: Option<Request>, followUpMs: Option<nat>)

  /** `performAction`: nothing without a token; otherwise the request is sent and, once
      it settles with any status, one follow-up poll is scheduled 200 ms later. A rejected
      request is only logged. */
  function PerformAction(token: string, req: Request, outcome: ActionOutcome): (e: ActionEffect)
    ensures e.sent.Some? <==> HasToken(token)
    ensures e.sent.Some? ==> e.sent.value == req
    ensures e.followUpMs.Some? <==> HasToken(token) && outcome.Settled?
    ensures e.followUpMs.Some? ==> e.followUpMs.value == FollowUpDelayMs
  {
    if !HasToken(token) then ActionEffect(None, None)
    else match outcome
      case Settled(_) => ActionEffect(Some(req), Some(FollowUpDelayMs))
      case Rejected => ActionEffect(Some(req), None)
  }

  /** The hook's state cells. `FetchState` writes them one setter at a time, as the
      hook's `fetchState` does. */
  class Player {
    var paused: bool
    var active: bool
    var track: Track
    var volume: int
    var device: Option<Device>

    function State(): PlayerState
      reads this
    {
      PlayerState(paused, active, track, volume, device)
    }

    constructor()
      ensures State() == InitialState
    {
      paused := true;
      active := false;
      track := PlaceholderTrack;
      volume := InitialVolume;
      device := None;
    }

    /** One poll, given the outcome of its GET request. */
    method FetchState(token: string, r: PollOutcome)
      modifies this
      ensures State() == Poll(old(State()), token, r)
    {
      if !HasToken(token) {
        return;
      }
      match r
      case TransportError =>
        // logged only
      case Replied(status, body) =>
        if status == 204 || status > 400 {
          active := false;
          return;
        }
        match body
        case Unparsable =>
          // logged only
        case NullBody =>
          active := false;
        case Playback(isPlaying, item, dev) =>
          if item.None? {
            active := false;
            return;
          }
          active := true;
          paused := !isPlaying;
          if dev.Some? {
            volume := dev.value.volumePercent;
            device := dev;
          }
          track := item.value;
    }

    /** One control intent, issued from the current state. */
    method Act(token: string, intent: Intent, outcome: ActionOutcome) returns (e: ActionEffect)
      ensures e == PerformAction(token, RequestFor(paused, intent), outcome)
      ensures e.sent.Some? && intent.TogglePlay? ==> e.sent.value.endpoint == (if paused then "play" else "pause")
    {
      e := PerformAction(token, RequestFor(paused, intent), outcome);
    }
  }
}
