# Dashboard app: a Dafny model of its state rules

This project models the logic of a desktop dashboard. The dashboard is a React front end inside a Tauri shell. The parts below follow the source code's branches, constants and messages; what the model leaves out is listed under "## Left out".

- **Spotify player hook** (`SpotifyPlayer`). The hook has five state cells (paused, active, track, volume, device), refreshed by polling the Web API's player endpoint. It also has four control intents, each of which sends one request and then schedules a 200 ms follow-up poll.
  - A poll is the pure transition `Poll` over an abstract outcome: a transport error, or a status with a body.
  - The class `Player` applies that transition one setter at a time; its `FetchState` method is proved against `Poll`.
- **Media-control widget** (`MediaControl`). Its `localVolume` and `isDragging` cells sit over the hook's `volume`. A React effect re-syncs them whenever its dependencies change, and the widget picks one of its render modes.
- **System-location hook** (`SystemLocation`). It tries geolocation first, falls back to an IP lookup, and ends `ready` or `error`.
  - The effect's `canceled` flag is modelled by numbering the effect runs. A callback of run `r` still reaches the state only while `r` is the current run and the hook is mounted.
  - `retry` bumps `attempt` and reruns the effect.
- **Weather hook** (`Weather`).
  - The weather-code table.
  - The fetch updaters: start, success (keeping the previous data when it is meaningfully equal) and failure.
  - The `isMounted` guard, handled the same way as the location hook's `canceled` flag.
- **Two system-volume widgets** (`WidgetsVolume`, `ComponentsVolume`). Each keeps a volume and a mute flag.
  - The components copy (`src/components/SystemVolumeWidget.tsx`): its mute button negates the value seen at the last render, and that copy's red button style follows the mute flag alone.
  - The widgets copy (`src/widgets/SystemVolumeWidget.tsx`): its button uses a functional updater, and its red style follows the displayed volume.
- **Layout rules** (`WidgetTypes`, `WidgetCard`, `WidgetGrid`, `DashboardLayout`, `Registry`):
  - the sidebar/main split;
  - the size-to-column class lookup;
  - the card's class strings and heading;
  - the fixed list of four widgets.
- **Desktop shell** (`DesktopShell`). The default OAuth redirect URI, and the choice of monitor for the window: the first monitor whose name contains the preferred name, otherwise the first monitor of least 64-bit area.

Helper modules:

- `Options`: the `Option` type.
- `Lists`: `map` and `filter`.
- `Text` models the built-ins the code relies on:
  - ECMAScript `trim` with its full whitespace set;
  - `join`;
  - decimal formatting of integers in template literals;
  - Rust's `str::contains`.

Behaviours of the code worth knowing:

- The volume request is not clamped to 0..100 (src/hooks/useSpotifyPlayer.ts:86). `SpotifyPlayer.VolumeRequestUnclamped` shows that any integer is sent as is, in plain decimal.
- The inactive branch of a poll is `status == 204 || status > 400` (src/hooks/useSpotifyPlayer.ts:29). A 400 goes on to the body.
- A 204 clears only `active` (src/hooks/useSpotifyPlayer.ts:29-32). The other four cells keep their values. `MediaControl.InactivePollHidesTrack` shows that the stale track is still never shown, because the widget then renders "No active playback".
- Poll results are applied in the order they arrive. The code has no issuance-order check (src/hooks/useSpotifyPlayer.ts:22-55), so the model promises none. `SpotifyPlayer.PollAll` applies outcomes in arrival order, and its lemmas say which outcome each cell ends up following.

## Model

| member | source | states |
|---|---|---|
| SpotifyPlayer.Player.constructor | src/hooks/useSpotifyPlayer.ts:16-20 | The hook starts paused and inactive, with the placeholder track, volume 50 and no device. |
| SpotifyPlayer.Poll | src/hooks/useSpotifyPlayer.ts:22-55 | A poll moves the track or `paused` only when it sets the player active. It moves volume or device only when it installs a device. An installed device's volume becomes the player's volume. |
| SpotifyPlayer.PollWithoutToken | src/hooks/useSpotifyPlayer.ts:23 | Without a token a poll changes nothing. |
| SpotifyPlayer.PollInactiveStatus | src/hooks/useSpotifyPlayer.ts:29-33 | Status 204 or any status above 400 clears `active`, leaves the other four cells as they were, and does not include 400. |
| SpotifyPlayer.PollWithoutItem | src/hooks/useSpotifyPlayer.ts:35-39 | A null body, or a body with no item, clears `active` and nothing else. |
| SpotifyPlayer.PollWithItem | src/hooks/useSpotifyPlayer.ts:41-50 | A body with an item sets `active`, sets `paused` to not playing and takes the track. It takes volume and device exactly when a device is reported; otherwise both keep their values. |
| SpotifyPlayer.PollFailureKeepsState | src/hooks/useSpotifyPlayer.ts:52-54 | A transport error, or a body that fails to parse, leaves the state unchanged. |
| SpotifyPlayer.PollIdempotent | src/hooks/useSpotifyPlayer.ts:22-55 | Applying the same poll outcome twice gives the same state as applying it once. |
| SpotifyPlayer.PollAllInert | src/hooks/useSpotifyPlayer.ts:22-55 | A run of polls, none of which writes anything, leaves the state unchanged. |
| SpotifyPlayer.ActiveFollowsLastWriter | src/hooks/useSpotifyPlayer.ts:29-41 | After a run of polls, `active` is true iff the last outcome that wrote it carried an item. |
| SpotifyPlayer.TrackFollowsLastItem | src/hooks/useSpotifyPlayer.ts:41-50 | After a run of polls, the track and `paused` are those of the last outcome that carried an item. |
| SpotifyPlayer.VolumeKeptWithoutDevice | src/hooks/useSpotifyPlayer.ts:46-49 | When no outcome reports a device alongside an item, volume and device never change. |
| SpotifyPlayer.VolumeFollowsLastDevice | src/hooks/useSpotifyPlayer.ts:46-49 | Volume and device are those of the last device reported alongside an item. |
| SpotifyPlayer.PollingFor | src/hooks/useSpotifyPlayer.ts:57-62 | Polling starts only with a token: one poll at once, then one every 1000 ms. |
| SpotifyPlayer.RequestFor | src/hooks/useSpotifyPlayer.ts:83-86 | Next and previous are the only POSTs. Toggle chooses `play` or `pause` from `paused`. A volume request goes to the `volume?volume_percent=` endpoint. |
| SpotifyPlayer.TransportRequests | src/hooks/useSpotifyPlayer.ts:83-85 | Toggle sends PUT `play` when paused and PUT `pause` otherwise. Next and previous are POSTs. |
| SpotifyPlayer.VolumeRequestUnclamped | src/hooks/useSpotifyPlayer.ts:86 | The volume request is a PUT whose query string reads back as exactly the given integer, with no clamping. |
| SpotifyPlayer.RequestForInjective | src/hooks/useSpotifyPlayer.ts:83-86 | Distinct intents issued from the same state send distinct requests. |
| SpotifyPlayer.PerformAction | src/hooks/useSpotifyPlayer.ts:65-81 | A request is sent iff there is a token. A follow-up poll at 200 ms is scheduled iff there is a token and the request settled with any status. A rejected request schedules nothing. |
| SpotifyPlayer.Player.FetchState | src/hooks/useSpotifyPlayer.ts:22-55 | The setter-by-setter update yields exactly `Poll` of the old state. |
| SpotifyPlayer.Player.Act | src/hooks/useSpotifyPlayer.ts:65-86 | An intent's effect is `PerformAction` of the request chosen from the current `paused`. |
| SystemLocation.MessageOf | src/hooks/useSystemLocation.ts:88 | A thrown `Error` gives its message; any other thrown value gives "Unknown error". |
| MediaControl.AlbumArt | src/components/MediaControlWidget.tsx:72-78 | The first image's url is shown iff there is a first image and its url is non-empty. Otherwise the placeholder is shown. |
| MediaControl.Render | src/components/MediaControlWidget.tsx:41-120 | The login prompt shows iff there is no token. "No active playback" shows iff there is a token and the player is inactive. A track with no artists makes rendering fail. The controls show the play icon iff `paused`, the device name iff there is a device, the title, the first artist and `localVolume`. |
| MediaControl.LoginPromptWithoutToken | src/components/MediaControlWidget.tsx:41-47 | An empty token gives the login prompt even when the player is active. |
| MediaControl.InactivePollHidesTrack | src/components/MediaControlWidget.tsx:49-56 | After a 204 or a status above 400, the widget renders "No active playback". |
| MediaControl.InitialStateShowsNoPlayback | src/components/MediaControlWidget.tsx:49-56 | The hook's initial state renders "No active playback" and has no album art. |
| MediaControl.MediaControlWidget.constructor | src/components/MediaControlWidget.tsx:22-30 | The widget starts with `localVolume` 50, not dragging, and with the sync effect already run. |
| MediaControl.MediaControlWidget.SyncEffect | src/components/MediaControlWidget.tsx:26-30 | The effect acts only when `volume` or `isDragging` changed since its last run. When no drag is open it then copies `volume` into `localVolume`. |
| MediaControl.MediaControlWidget.Poll | src/components/MediaControlWidget.tsx:26-30 | After a poll, the player has moved by `SpotifyPlayer.Poll`. An open drag keeps the slider where it was. With no drag open, the slider follows any change of volume. |
| MediaControl.MediaControlWidget.VolumeChange | src/components/MediaControlWidget.tsx:32-34 | A slider change sets `localVolume` and nothing else. |
| MediaControl.MediaControlWidget.DragStart | src/components/MediaControlWidget.tsx:110-111 | Mouse-down or touch-start opens a drag and keeps the slider value. |
| MediaControl.MediaControlWidget.VolumeCommit | src/components/MediaControlWidget.tsx:36-39 | Commit closes the drag and sends the slider value held at commit time. If a drag was open, the slider then resyncs to the player's volume. |
| SystemLocation.InitialState | src/hooks/useSystemLocation.ts:31-38 | The hook starts `loading` when enabled and `idle` otherwise, with every other field null. |
| SystemLocation.Merge | src/hooks/useSystemLocation.ts:49-53 | A partial update writes status, error and source, and keeps coords and label. |
| SystemLocation.GeolocationReady | src/hooks/useSystemLocation.ts:109-124 | A position gives `ready` with source geolocation, the label "Current Location", the coordinates, and no error. |
| SystemLocation.GeolocationFailureReason | src/hooks/useSystemLocation.ts:125-128 | The fallback reason is the error's message, or "Location permission denied" when the message is empty. |
| SystemLocation.NoFallbackUpdate | src/hooks/useSystemLocation.ts:56-58 | Without the IP fallback the status becomes `error`, with the reason (or "Location unavailable") and no source. |
| SystemLocation.IpFailureMessage | src/hooks/useSystemLocation.ts:88-92 | With a non-empty reason the error is the reason, " - ", then the message. Otherwise it is the message alone. |
| SystemLocation.Truthy | src/hooks/useSystemLocation.ts:76 | Every result is a non-empty name, and every non-empty part appears. The result is empty iff no part is non-empty. |
| SystemLocation.TruthyAppend | src/hooks/useSystemLocation.ts:76 | `filter(Boolean)` keeps the input order: the kept parts of a concatenation are those of its halves, in turn. |
| SystemLocation.TruthySingle | src/hooks/useSystemLocation.ts:76 | A single part is kept iff it is a non-empty string. |
| SystemLocation.RegionPartsInOrder | src/hooks/useSystemLocation.ts:76 | The label's parts are the truthy ones of city, region and country, in that order. |
| SystemLocation.RegionLabel | src/hooks/useSystemLocation.ts:76-79 | The label is the truthy names joined by ", ", or "Current Location" when there are none. |
| SystemLocation.RegionLabelStartsWithCity | src/hooks/useSystemLocation.ts:76-79 | A known city is always the head of the label. |
| SystemLocation.TruthyAllKnown | src/hooks/useSystemLocation.ts:76 | With city, region and country all non-empty, all three are kept, in that order. |
| SystemLocation.RegionLabelAllParts | src/hooks/useSystemLocation.ts:76-79 | With all three names known, the label is "city, region, country". |
| SystemLocation.IpSettled | src/hooks/useSystemLocation.ts:61-94 | An IP result ends `ready` iff both coordinates are finite; then the source is ip and the label is `RegionLabel`. Otherwise it ends `error`, keeps coords and label, and its error is `IpFailureMessage` of the reason and "IP lookup failed (status)", the thrown value's message, or "Received invalid coordinates". Every reachable state is preserved. |
| SystemLocation.IpFailureAfterReason | src/hooks/useSystemLocation.ts:64-66 | A failed lookup after a geolocation failure reports the reason, then " - ", then "IP lookup failed (status)". |
| SystemLocation.LocationHook.constructor | src/hooks/useSystemLocation.ts:29-38 | The hook starts in `InitialState`, at attempt 0, with no effect run yet. |
| SystemLocation.LocationHook.SetPartialState | src/hooks/useSystemLocation.ts:49-53 | The state becomes the merge of the update. |
| SystemLocation.LocationHook.StartIpLookup | src/hooks/useSystemLocation.ts:55-62 | Without the fallback the error is final. With it, the state goes back to loading and the lookup is awaited. |
| SystemLocation.LocationHook.RunEffect | src/hooks/useSystemLocation.ts:40-141 | Disabled resets to `idle` with all fields null. With geolocation available it goes to `loading` and awaits a position. Otherwise it falls back at once with "Geolocation unavailable". The invariant is kept throughout. |
| SystemLocation.LocationHook.PositionSucceeded | src/hooks/useSystemLocation.ts:110-124 | A live success gives `GeolocationReady`. A canceled one changes nothing. |
| SystemLocation.LocationHook.PositionFailed | src/hooks/useSystemLocation.ts:125-129 | A live failure starts the IP step with the failure reason. A canceled one changes nothing. |
| SystemLocation.LocationHook.IpLookupSettled | src/hooks/useSystemLocation.ts:63-94 | A live result applies `IpSettled`. A canceled one changes nothing. |
| SystemLocation.LocationHook.Retry | src/hooks/useSystemLocation.ts:143-147 | When enabled, it bumps `attempt` and reruns the effect. Otherwise nothing changes. |
| SystemLocation.LocationHook.ChangeOptions | src/hooks/useSystemLocation.ts:141 | A change of `enabled`, `timeoutMs` or `ipFallback` reruns the effect. The same options change nothing. |
| SystemLocation.LocationHook.Unmount | src/hooks/useSystemLocation.ts:137-140 | After unmounting, no callback is live. |
| Weather.DescribeWeatherCode | src/hooks/useWeather.ts:44-45 | A listed code gives its table entry. "Unknown conditions" is returned iff the code is not in the table. |
| Weather.DescriptionsKeys | src/hooks/useWeather.ts:23-42 | The table's codes are exactly the 18 listed. |
| Weather.MeaningfullyEqual | src/hooks/useWeather.ts:88-94 | Equal data are meaningfully equal, and meaningfully equal data have the same weather description. |
| Weather.MeaningfullyEqualIsNormalizedEquality | src/hooks/useWeather.ts:88-94 | "Meaningfully equal" is equality once a null wind speed and a missing one are identified. |
| Weather.MeaningfullyEqualIsEquivalence | src/hooks/useWeather.ts:88-94 | The equality test is reflexive, symmetric and transitive. |
| Weather.FetchStarted | src/hooks/useWeather.ts:60 | A fetch start keeps the data and clears the error. It shows loading iff there is no data yet. |
| Weather.FetchSucceeded | src/hooks/useWeather.ts:86-101 | A success clears loading and error. Meaningfully equal data keeps the previous data object; otherwise the new data replaces it. |
| Weather.FailureMessage | src/hooks/useWeather.ts:72-74 | A non-ok reply gives "Weather request failed (status)", a thrown `Error` its message, and any other thrown value "Unknown error". |
| Weather.FetchFailed | src/hooks/useWeather.ts:103-107 | A failure drops the data, clears loading and sets the error message. |
| Weather.FetchSettled | src/hooks/useWeather.ts:70-108 | A settled fetch never leaves loading on. The error is null iff the fetch delivered data. |
| Weather.NotOkMessage | src/hooks/useWeather.ts:72-74 | A non-ok reply's message is "Weather request failed (" + status + ")". |
| Weather.RefreshDoesNotShowLoading | src/hooks/useWeather.ts:60 | Once data is there, a later fetch start does not show loading. |
| Weather.FailureShowsLoadingAgain | src/hooks/useWeather.ts:60 | After a failure, the next fetch start shows loading again. |
| Weather.EqualRefreshKeepsData | src/hooks/useWeather.ts:96-98 | An equal refresh keeps the data stored by the earlier success. |
| Weather.RefreshIdempotent | src/hooks/useWeather.ts:58-101 | Repeating the refresh cycle with the same data changes nothing. |
| Weather.WeatherHook.constructor | src/hooks/useWeather.ts:48 | The hook starts with no data, loading, and no error. |
| Weather.WeatherHook.RunEffect | src/hooks/useWeather.ts:50-112 | With a coordinate missing, nothing is fetched and no timer is set. Otherwise the first fetch starts at once and a timer is set with the interval, five minutes by default. |
| Weather.WeatherHook.Tick | src/hooks/useWeather.ts:112 | A timer tick starts another fetch while the timer exists. |
| Weather.WeatherHook.Settle | src/hooks/useWeather.ts:84-107 | A live fetch applies `FetchSettled`. A fetch of an old run, or after unmount, changes nothing. |
| Weather.WeatherHook.Unmount | src/hooks/useWeather.ts:114-118 | The cleanup clears `isMounted` and the timer. |
| WidgetsVolume.VolumeChanged | src/widgets/SystemVolumeWidget.tsx:8-14 | A change sets the volume. A positive value clears mute, and zero leaves mute as it was. |
| WidgetsVolume.MuteToggled | src/widgets/SystemVolumeWidget.tsx:16-18 | Toggling flips mute and keeps the volume. |
| WidgetsVolume.Appearance | src/widgets/SystemVolumeWidget.tsx:20-44 | The slider shows 0 while muted and the volume otherwise. The muted icon and the red style both appear iff the shown volume is 0, that is, iff muted or the volume is 0. |
| WidgetsVolume.ToggleTwiceRestores | src/widgets/SystemVolumeWidget.tsx:16-18 | Two toggles restore the state. |
| WidgetsVolume.PositiveChangeShowsValue | src/widgets/SystemVolumeWidget.tsx:8-20 | A positive slider value unmutes and is shown as is. |
| WidgetsVolume.ZeroChangeShowsMuted | src/widgets/SystemVolumeWidget.tsx:8-14 | A zero slider value shows the muted icon and keeps the mute flag. |
| WidgetsVolume.UnmuteRestoresSlider | src/widgets/SystemVolumeWidget.tsx:16-20 | Muting shows 0 and unmuting shows the kept volume again. |
| WidgetsVolume.SystemVolumeWidget.constructor | src/widgets/SystemVolumeWidget.tsx:5-6 | The widget starts with volume 75, unmuted. |
| WidgetsVolume.SystemVolumeWidget.HandleVolumeChange | src/widgets/SystemVolumeWidget.tsx:8-14 | The new state is `VolumeChanged` of the old one. |
| WidgetsVolume.SystemVolumeWidget.ToggleMute | src/widgets/SystemVolumeWidget.tsx:16-18 | The new state is `MuteToggled` of the old one. |
| ComponentsVolume.Appearance | src/components/SystemVolumeWidget.tsx:28-40 | The slider shows 0 while muted. The muted icon shows iff muted or the volume is 0. The red style shows iff muted. |
| ComponentsVolume.CopiesCompared | src/components/SystemVolumeWidget.tsx:38-40 | The two copies agree on slider and icon. Their button styles differ exactly when the volume is 0 and the widget is unmuted. |
| ComponentsVolume.SystemVolumeWidget.constructor | src/components/SystemVolumeWidget.tsx:5-6 | The widget starts with volume 75, unmuted. |
| ComponentsVolume.SystemVolumeWidget.Render | src/components/SystemVolumeWidget.tsx:18-43 | A render yields `Appearance` of the state and refreshes the value the handlers close over. |
| ComponentsVolume.SystemVolumeWidget.HandleVolumeChange | src/components/SystemVolumeWidget.tsx:8-12 | A change sets the volume and clears mute iff the value is positive. |
| ComponentsVolume.SystemVolumeWidget.ToggleMute | src/components/SystemVolumeWidget.tsx:14-16 | Toggling sets mute to the negation of the rendered value. |
| ComponentsVolume.TwoPressesWithoutRender | src/components/SystemVolumeWidget.tsx:14-16 | Two presses handled before any render, as within one batched event, mute only once; two separate clicks each get a render between them and toggle twice. |
| WidgetTypes.MountOf | src/widgets/DashboardLayout.tsx:24 | A widget is mounted with its own properties, or with `{}` when it has none. |
| WidgetCard.CardClassShape | src/widgets/WidgetCard.tsx:15-16 | The card class is the base classes, a space, the caller's class unchanged and not trimmed, then " flex flex-col". |
| WidgetCard.BodyClass | src/widgets/WidgetCard.tsx:18 | The body class has no blank at either end. |
| WidgetCard.BodyClassShape | src/widgets/WidgetCard.tsx:13-18 | The body class is the base body classes alone for a blank caller's class. Otherwise it is the base, a space, and the caller's class without its trailing blanks. |
| WidgetCard.BodyClassAppends | src/widgets/WidgetCard.tsx:18 | A caller's class with no edge blanks is appended as is. |
| WidgetCard.DefaultClasses | src/widgets/WidgetCard.tsx:15-18 | With no classes given, the card class keeps a double space and the body class is the base alone. |
| WidgetCard.Heading | src/widgets/WidgetCard.tsx:17 | The heading is emitted iff the title is present and non-empty. |
| WidgetCard.Draw | src/widgets/WidgetCard.tsx:15-20 | The card puts its child in the body, with the card class, the body class and the conditional heading. |
| WidgetGrid.LookupSize | src/widgets/WidgetGrid.tsx:4-8 | A missing size counts as medium. A size in the map gives its class, and any other size of the `WidgetSize` type gives "". |
| WidgetGrid.SizeClass | src/widgets/WidgetGrid.tsx:20 | Trimming the looked-up class leaves it unchanged. |
| WidgetGrid.SizeClasses | src/widgets/WidgetGrid.tsx:4-8 | small, medium and large give one, two and three columns. A missing size gives medium. |
| WidgetGrid.UnknownSizeClass | src/widgets/WidgetGrid.tsx:20 | A size outside the map, and outside the inherited `Object` properties, gives the empty class. |
| WidgetGrid.GridCardShape | src/widgets/WidgetGrid.tsx:17-24 | A grid card is keyed by the id, shows the non-empty title, takes the size class, and passes the body class through unchanged. |
| WidgetGrid.Grid | src/widgets/WidgetGrid.tsx:14-27 | The grid has exactly one card per widget, in input order. |
| Lists.Map | src/widgets/WidgetGrid.tsx:16 | `map` gives one result per element, the function applied to the element at the same index; it also models the sidebar `map` at src/widgets/DashboardLayout.tsx:17. |
| Lists.Filter | src/widgets/DashboardLayout.tsx:10 | A filter keeps only elements satisfying the predicate. |
| Lists.FilterOut | src/widgets/DashboardLayout.tsx:11 | The negated filter keeps only elements failing the predicate. |
| DashboardLayout.Membership | src/widgets/DashboardLayout.tsx:10-11 | A widget is in the sidebar list iff its area is "sidebar", and in the main list iff it is not; a widget with no area goes to main. |
| DashboardLayout.Partition | src/widgets/DashboardLayout.tsx:10-11 | The two lists add up to the input, both as multisets and by length. |
| DashboardLayout.KeepsOrder | src/widgets/DashboardLayout.tsx:10-11 | Both lists keep the input order: they distribute over concatenation. |
| DashboardLayout.OnlyFirstInSidebar | src/widgets/DashboardLayout.tsx:10-11 | When only the first widget is in the sidebar, the sidebar holds it alone and main holds the rest. |
| DashboardLayout.SidebarBodyClass | src/widgets/DashboardLayout.tsx:22 | The sidebar body class has no edge blanks. |
| DashboardLayout.SidebarBodyClassShape | src/widgets/DashboardLayout.tsx:22 | The sidebar body class is "flex-1" for a blank class. Otherwise it is "flex-1 " and the class without trailing blanks. |
| DashboardLayout.SidebarCardShape | src/widgets/DashboardLayout.tsx:17-26 | A sidebar card is keyed by the id and uses the widget's own card class and the sidebar body class. |
| DashboardLayout.SidebarDefaultBody | src/widgets/DashboardLayout.tsx:22 | With no body class, the card's body class is the base body classes then " flex-1". |
| DashboardLayout.Layout | src/widgets/DashboardLayout.tsx:9-35 | The sidebar column is drawn iff some widget is in the sidebar. The grid gets the main list. |
| Registry.GetEnvNumber | src/widgets/registry.ts:7-10 | The parsed number is used when it is finite, and the fallback otherwise. |
| Registry.ClockTimezone | src/widgets/registry.ts:15 | An empty or missing time zone is undefined. |
| Registry.WeatherLabel | src/widgets/registry.ts:14 | Only a missing label falls back to "New York City". |
| Registry.BuildWidgetConfigs | src/widgets/registry.ts:21-60 | The list has four configs: system volume, clock, weather and media control, in that order. |
| Registry.Ids | src/widgets/registry.ts:23-52 | The ids are system-volume, clock, weather and media-control, pairwise distinct. |
| Registry.Sizes | src/widgets/registry.ts:26-54 | The sizes are small, small, medium and large, in list order. |
| Registry.SidebarSplit | src/widgets/registry.ts:25 | The layout puts system-volume alone in the sidebar and the other three, in order, in the grid. |
| Registry.TokenProp | src/widgets/registry.ts:56-58 | The media-control props carry the given token. |
| Registry.WeatherCoordinates | src/widgets/registry.ts:12-13 | The weather props carry the configured finite coordinates, or New York City's. |
| DesktopShell.RedirectUri | src-tauri/src/lib.rs:97-98 | The redirect URI is the setting when one is given, and `http://127.0.0.1:5000/auth/callback` otherwise. |
| DesktopShell.Area | src-tauri/src/lib.rs:120 | The 64-bit area is the exact product of width and height, which never wraps. |
| DesktopShell.FindPreferred | src-tauri/src/lib.rs:117 | Returns the first monitor whose name contains the preference. Unnamed monitors never match. Returns none iff no monitor matches. |
| DesktopShell.MinByArea | src-tauri/src/lib.rs:120 | Returns a monitor of least area, the first among equals. Returns none iff the list is empty. |
| DesktopShell.SelectMonitor | src-tauri/src/lib.rs:116-120 | A monitor is selected iff the list is non-empty. |
| DesktopShell.PreferredWins | src-tauri/src/lib.rs:116-117 | When some monitor matches, the first match is chosen. |
| DesktopShell.SmallestOtherwise | src-tauri/src/lib.rs:118-120 | With no preference, or no match, the first smallest monitor is chosen. |
| DesktopShell.EmptyPreferenceMatchesNamed | src-tauri/src/lib.rs:117 | An empty preference matches every named monitor and never an unnamed one. |
| DesktopShell.PlacementTarget | src-tauri/src/lib.rs:110-177 | The window is moved iff the monitors can be listed and there is at least one. The target is one of them. |
| Text.Trim | src/widgets/WidgetCard.tsx:18 | ECMAScript `trim`: the result has no edge blanks and is reached by cutting blanks only. |
| Text.ContainsIff | src-tauri/src/lib.rs:117 | A name contains the pattern iff the pattern occurs in it at some position. |
| Text.Join | src/hooks/useSystemLocation.ts:79 | `join` of no parts is empty and of one part is that part. Otherwise its length is the parts' lengths plus one separator between each pair, and it starts with the first part. |
| Text.JoinAppend | src/hooks/useSystemLocation.ts:79 | Joining two non-empty lists puts exactly one separator between their joins; with the one-part case this fixes every part and separator in order. |
| Text.JoinThree | src/hooks/useSystemLocation.ts:79 | Three parts join to the first, separator, second, separator, third. |
| Text.IntDecimalRoundTrip | src/hooks/useSpotifyPlayer.ts:86 | The plain decimal text of any integer reads back as that integer. |

## Left out

- Real time and overlapping requests are replaced by events. The 1 s poll timer, the 200 ms follow-up timer and the weather refresh timer become explicit calls, and each request's outcome is passed in.
- `SpotifyPlayer.Player.FetchState`: the model applies each poll outcome at one instant. Two polls in flight at once are modelled only as applying in arrival order, since the code has no ordering guard.
- `SpotifyPlayer.Device`: the device's `volume_percent` is taken to be a number. The Web API may report it as null, and the hook would then store null as the volume (src/hooks/useSpotifyPlayer.ts:46); the model cannot represent that.
- The request layer is not modelled: the HTTP calls, headers, bearer tokens, URLs and query strings other than the volume endpoint, and the optional body parameter of `performAction`, which no caller passes.
- `server/index.js` is not part of this model. It is the relay server with its routes, CORS, token exchange and random state strings.
- `login_spotify` in `src-tauri/src/lib.rs` is not part of this model. It is foreign I/O: a local HTTP listener, an HTTP client, the browser shell and event emission.
- Desktop window placement is reduced to the chosen monitor. The `f64` scaling and rounding, the window calls and the log lines are out.
- Floating-point numbers are reals or integers:
  - `Number.isFinite` on coordinates and environment numbers becomes an `Option` (a parse that may fail);
  - NaN, whose `===` never holds, is not modelled;
  - weather fields are integers.
- SystemLocation.LocationHook.RunEffect: the geolocation timeout (`timeoutMs`) and the constant `maximumAge` of five minutes only shape the browser call; the model delivers that call's position or error as an event. A change of `timeoutMs` still reruns the effect, as `ChangeOptions` states.
- `SystemLocation.IpSettled`: place names are strings or absent. A non-string truthy value would be joined by its string form, which is not modelled.
- `Text.IsSpace` assumes the source text's strings hold Unicode scalar values. ECMAScript strings of UTF-16 code units with lone surrogates are not modelled.
- Rendering markup, Tailwind classes other than the class-string rules, icons, and the clock and weather widgets' formatting are out.
- `MediaControl.MediaControlWidget.VolumeChange`: a slider change without a drag leaves `localVolume` ahead of the player's volume until `volume` next changes. This happens with keyboard input, for instance, which fires no mouse-down. The model shows this behaviour; it does not correct it.
- The Tauri `listen`/`invoke` bridge and the browser-redirect login fallback in `src/App.tsx` are foreign calls, left out.
- Text.IntToDecimal: formats every integer in plain decimal. ECMAScript writes numbers of magnitude 10^21 or more in exponent form (`1e+21`), which is not modelled; `VolumeRequestUnclamped`, `IntDecimalRoundTrip` and the status messages hold as stated for integers below that bound. The slider gives volumes in 0..100 and HTTP statuses are three digits.
- WidgetGrid.LookupSize: reads the size map as a dictionary. In the source it is an object literal, so a size naming an inherited `Object` property (`constructor`, `toString`) would look up that property; the `WidgetSize` type admits no such size.
