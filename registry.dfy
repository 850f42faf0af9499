/** The fixed widget list (`src/widgets/registry.ts`). The build-time environment enters
    as a parameter: each numeric variable as the finite number it parses to, if any, and
    each text variable as its value, if set. */
module Registry {
  import opened Options
  import opened WidgetTypes
  import DashboardLayout

  /** `getEnvNumber`: the parsed number when it is finite, the fallback otherwise.
      `parsed` is `Number(value)` when that is finite and `None` when it is not. */
  function GetEnvNumber(parsed: Option<real>, fallback: real): (r: real)
    ensures parsed.Some? ==> r == parsed.value
    ensures parsed.None? ==> r == fallback
  {
    if parsed.Some? then parsed.value else fallback
  }

  datatype Env = Env(
    weatherLat: Option<real>,
    weatherLon: Option<real>,
    weatherLocation: Option<string>,
    clockTimezone: Option<string>)

  const DefaultLatitude: real := 40.7128
  const DefaultLongitude: real := -74.0060
  const DefaultLocationLabel: string := "New York City"

  /** The clock's time zone: an empty setting counts as none (`||`). */
  function ClockTimezone(env: Env): (v: PropValue)
    ensures v.Undefined? <==> env.clockTimezone.None? || env.clockTimezone.value == ""
    ensures v.Str? ==> v.s == env.clockTimezone.value
  {
    if env.clockTimezone.Some? && env.clockTimezone.value != "" then Str(env.clockTimezone.value) else Undefined
  }

  /** The weather label: only a missing setting gives the default (`??`), an empty one
      is kept. */
  function WeatherLabel(env: Env): (l: string)
    ensures env.weatherLocation.Some? ==> l == env.weatherLocation.value
    ensures env.weatherLocation.None? ==> l == DefaultLocationLabel
  {
    env.weatherLocation.GetOr(DefaultLocationLabel)
  }

  const SystemVolumeConfig: WidgetConfig := WidgetConfig(
    "system-volume", "System Volume", Some("sidebar"), Some("small"), SystemVolumeWidget, None,
    Some("w-28 h-[420px] flex-shrink-0"), Some("items-center justify-between h-full"))

  function ClockConfig(env: Env): WidgetConfig {
    WidgetConfig("clock", "Clock", None, Some("small"), ClockWidget,
      Some(map["timezone" := ClockTimezone(env)]), None, None)
  }

  function WeatherConfig(env: Env): WidgetConfig {
    WidgetConfig("weather", "Weather", None, Some("medium"), WeatherWidget,
      Some(map[
        "latitude" := Num(GetEnvNumber(env.weatherLat, DefaultLatitude)),
        "longitude" := Num(GetEnvNumber(env.weatherLon, DefaultLongitude)),
        "locationLabel" := Str(WeatherLabel(env))]), None, None)
  }

  function MediaControlConfig(token: string): WidgetConfig {
    WidgetConfig("media-control", "Spotify", None, Some("large"), MediaControlWidget,
      Some(map["token" := Str(token)]), None, None)
  }

  /** `buildWidgetConfigs`. */
  function BuildWidgetConfigs(token: string, env: Env): (ws: seq<WidgetConfig>)
    ensures |ws| == 4
    ensures ws[0].component == SystemVolumeWidget && ws[1].component == ClockWidget
    ensures ws[2].component == WeatherWidget && ws[3].component == MediaControlWidget
  {
    [SystemVolumeConfig, ClockConfig(env), WeatherConfig(env), MediaControlConfig(token)]
  }

  /** The ids, in order, and no two alike. */
  lemma Ids(token: string, env: Env)
    ensures var ws := BuildWidgetConfigs(token, env);
      [ws[0].id, ws[1].id, ws[2].id, ws[3].id] == ["system-volume", "clock", "weather", "media-control"]
    ensures var ws := BuildWidgetConfigs(token, env);
      forall i, j :: 0 <= i < j < |ws| ==> ws[i].id != ws[j].id
  {
    var ws := BuildWidgetConfigs(token, env);
    assert ws[0].id[0] == 's' && ws[1].id[0] == 'c' && ws[2].id[0] == 'w' && ws[3].id[0] == 'm';
  }

  /** The sizes, in order. */
  lemma Sizes(token: string, env: Env)
    ensures var ws := BuildWidgetConfigs(token, env);
      [ws[0].size, ws[1].size, ws[2].size, ws[3].size] == [Some("small"), Some("small"), Some("medium"), Some("large")]
  {
  }

  /** Only the system volume sits in the sidebar; the page lays the other three out in
      the grid, in order. */
  lemma SidebarSplit(token: string, env: Env)
    ensures var ws := BuildWidgetConfigs(token, env);
      DashboardLayout.SidebarWidgets(ws) == [ws[0]] && DashboardLayout.MainWidgets(ws) == ws[1..]
  {
    var ws := BuildWidgetConfigs(token, env);
    assert DashboardLayout.InSidebar(ws[0]);
    assert !DashboardLayout.InSidebar(ws[1]) && !DashboardLayout.InSidebar(ws[2]) && !DashboardLayout.InSidebar(ws[3]);
    DashboardLayout.OnlyFirstInSidebar(ws);
  }

  /** The media-control widget is handed the token it was built with. */
  lemma TokenProp(token: string, env: Env)
    ensures var p := BuildWidgetConfigs(token, env)[3].props;
      p.Some? && "token" in p.value && p.value["token"] == Str(token)
  {
  }

  /** The weather widget gets the configured coordinates when they parse to finite
      numbers, and New York City's otherwise. */
  lemma WeatherCoordinates(token: string, env: Env)
    ensures var p := BuildWidgetConfigs(token, env)[2].props.value;
      && p["latitude"] == Num(if env.weatherLat.Some? then env.weatherLat.value else DefaultLatitude)
      && p["longitude"] == Num(if env.weatherLon.Some? then env.weatherLon.value else DefaultLongitude)
  {
  }
}
