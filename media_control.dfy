/** The media-control widget: what it renders from the player hook's state, and the
    volume slider, whose local value (`localVolume`) shadows the hook's `volume` while the
    user drags it. React's effect that copies `volume` into `localVolume` runs after a
    render only when one of its dependencies (`volume`, `isDragging`) changed; the model
    keeps the dependency values of its last run to decide that. */
module MediaControl {
  import opened Options
  import opened SpotifyPlayer

  /** What the widget shows. `RenderFailure` stands for the exception that reading the
      first artist of a track without artists raises during rendering. */
  datatype View =
    | LoginPrompt       // "Please log in to Spotify"
    | NoActivePlayback  // "No active playback"
    | Controls(
        deviceName: Option<string>,
        albumArt: Option<string>,  // None: the "No Art" placeholder
        title: string,
        artist: string,
        showsPlayIcon: bool,       // play icon, else pause icon
        slider: int)
    | RenderFailure

  /** The album art url: the first image's url when there is a first image and its url is
      non-empty. */
  function AlbumArt(t: Track): (u: Option<string>)
    ensures u.Some? <==> |t.imageUrls| > 0 && t.imageUrls[0] != ""
    ensures u.Some? ==> u.value == t.imageUrls[0]
  {
    if |t.imageUrls| > 0 && t.imageUrls[0] != "" then Some(t.imageUrls[0]) else None
  }

  /** The render of the widget for a token, the hook's state and the slider value. */
  function Render(token: string, s: PlayerState, localVolume: int): (v: View)
    ensures v.LoginPrompt? <==> !HasToken(token)
    ensures v.NoActivePlayback? <==> HasToken(token) && !s.active
    ensures v.RenderFailure? <==> HasToken(token) && s.active && s.track.artistNames == []
    ensures v.Controls? ==>
      && v.showsPlayIcon == s.paused
      && (v.deviceName.Some? <==> s.device.Some?)
      && (v.deviceName.Some? ==> v.deviceName.value == s.device.value.name)
      && v.albumArt == AlbumArt(s.track)
      && v.title == s.track.name && v.artist == s.track.artistNames[0]
      && v.slider == localVolume
  {
    if !HasToken(token) then LoginPrompt
    else if !s.active then NoActivePlayback
    else if s.track.artistNames == [] then RenderFailure
    else
      var deviceName := if s.device.Some? then Some(s.device.value.name) else None;
      Controls(deviceName, AlbumArt(s.track), s.track.name, s.track.artistNames[0], s.paused, localVolume)
  }

  /** The login prompt wins over everything, an active player included. */
  lemma LoginPromptWithoutToken(s: PlayerState, localVolume: int)
    ensures Render("", s, localVolume) == LoginPrompt
  {
  }

  /** After a poll that reports no active device (204 or a status above 400), the widget
      shows "No active playback", so the track and device of earlier polls are not shown
      as current. */
  lemma InactivePollHidesTrack(s: PlayerState, token: string, status: int, b: Body, localVolume: int)
    requires HasToken(token) && SignalsInactive(status)
    ensures Render(token, Poll(s, token, Replied(status, b)), localVolume) == NoActivePlayback
  {
  }

  /** The hook's initial state shows "No active playback" once a token is present. */
  lemma InitialStateShowsNoPlayback(token: string, localVolume: int)
    requires HasToken(token)
    ensures Render(token, InitialState, localVolume) == NoActivePlayback
    ensures AlbumArt(InitialState.track).None?
  {
  }

  const InitialLocalVolume: int := 50

  class MediaControlWidget {
    const player: Player
    var localVolume: int
    var isDragging: bool
    /** The dependency values (`volume`, `isDragging`) the sync effect last ran with. */
    var syncedDeps: Option<(int, bool)>

    /** The effect has run against the current dependency values. */
    predicate Synced()
      reads this, player
    {
      syncedDeps == Some((player.volume, isDragging))
    }

    /** Mounting: the initial state cells, then the first run of the sync effect. */
    constructor()
      ensures fresh(player) && player.State() == InitialState
      ensures localVolume == InitialLocalVolume && !isDragging && Synced()
    {
      player := new Player();
      localVolume := InitialLocalVolume;
      isDragging := false;
      syncedDeps := None;
      new;
      SyncEffect();
    }

    function View(token: string): View
      reads this, player
    {
      Render(token, player.State(), localVolume)
    }

    /** The sync effect after a render: when `volume` or `isDragging` changed since its
        last run and no drag is open, `localVolume` takes the player's volume. */
    method SyncEffect()
      modifies this
      ensures Synced()
      ensures isDragging == old(isDragging)
      ensures localVolume ==
        if old(syncedDeps) != Some((player.volume, isDragging)) && !isDragging then player.volume
        else old(localVolume)
    {
      var deps := (player.volume, isDragging);
      if syncedDeps != Some(deps) {
        if !isDragging {
          localVolume := player.volume;
        }
        syncedDeps := Some(deps);
      }
    }

    /** A poll of the hook, followed by the render it causes. While a drag is open the
        slider keeps its value; otherwise, whenever the poll moved the volume, the slider
        follows it. */
    method Poll(token: string, r: PollOutcome)
      requires Synced()
      modifies this, player
      ensures player.State() == SpotifyPlayer.Poll(old(player.State()), token, r)
      ensures isDragging == old(isDragging) && Synced()
      ensures isDragging ==> localVolume == old(localVolume)
      ensures !isDragging && player.volume != old(player.volume) ==> localVolume == player.volume
      ensures player.volume == old(player.volume) ==> localVolume == old(localVolume)
    {
      player.FetchState(token, r);
      SyncEffect();
    }

    /** The slider's change handler: only `localVolume` changes. */
    method VolumeChange(v: int)
      requires Synced()
      modifies this
      ensures localVolume == v && isDragging == old(isDragging) && Synced()
    {
      localVolume := v;
      SyncEffect();
    }

    /** Mouse-down or touch-start on the slider opens a drag. */
    method DragStart()
      requires Synced()
      modifies this
      ensures isDragging && localVolume == old(localVolume) && Synced()
    {
      isDragging := true;
      SyncEffect();
    }

    /** Mouse-up or touch-end: closes the drag and sends the slider's value, as it was at
        the commit, as the new player volume. The render that follows resyncs the slider
        to the player's volume when a drag was open. */
    method VolumeCommit(token: string, outcome: ActionOutcome) returns (e: ActionEffect)
      requires Synced()
      modifies this
      ensures e == PerformAction(token, RequestFor(player.paused, SetPlayerVolume(old(localVolume))), outcome)
      ensures !isDragging && Synced()
      ensures old(isDragging) ==> localVolume == player.volume
      ensures !old(isDragging) ==> localVolume == old(localVolume)
    {
      isDragging := false;
      e := player.Act(token, SetPlayerVolume(localVolume), outcome);
      SyncEffect();
    }
  }

  /** A drag from start to commit: polls arriving during the drag do not move the slider,
      the committed request carries the dragged value, and afterwards the slider shows the
      player's volume again. */
  method DragScenario(token: string, reported: Device, item: Track)
    requires HasToken(token) && item.artistNames != []
  {
    var w := new MediaControlWidget();
    w.DragStart();
    w.VolumeChange(80);
    w.Poll(token, Replied(200, Playback(true, Some(item), Some(reported))));
    assert w.localVolume == 80 && w.player.volume == reported.volumePercent;
    assert w.View(token).Controls? && w.View(token).slider == 80;
    var e := w.VolumeCommit(token, Settled(204));
    assert e.sent == Some(RequestFor(false, SetPlayerVolume(80)));
    assert e.followUpMs == Some(FollowUpDelayMs);
    assert w.localVolume == reported.volumePercent;
  }
}
