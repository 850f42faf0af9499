/** The desktop shell's start-up rules (`src-tauri/src/lib.rs`): the OAuth redirect URI
    with its default, and the choice of the monitor the dashboard window goes to. */
module DesktopShell {
  import opened Options
  import Text

  newtype u32 = x: int | 0 <= x < 0x1_0000_0000
  newtype u64 = x: int | 0 <= x < 0x1_0000_0000_0000_0000

  const DefaultRedirectUri: string := "http://127.0.0.1:5000/auth/callback"

  /** The redirect URI: the `SPOTIFY_REDIRECT_URI` setting, or the local default when it
      cannot be read. */
  function RedirectUri(setting: Option<string>): (uri: string)
    ensures setting.Some? ==> uri == setting.value
    ensures setting.None? ==> uri == DefaultRedirectUri
  {
    setting.GetOr(DefaultRedirectUri)
  }

  /** A connected monitor: its name, if the platform gives one, and its physical size. */
  datatype Monitor = Monitor(name: Option<string>, width: u32, height: u32)

  /** The product of two 32-bit sizes fits in 64 bits. */
  lemma ProductFits(a: int, b: int)
    requires 0 <= a < 0x1_0000_0000 && 0 <= b < 0x1_0000_0000
    ensures 0 <= a * b < 0x1_0000_0000_0000_0000
  {
    var m := 0xFFFF_FFFF;
    MulMonotone(a, b, m);
    MulMonotone(m, a, m);
    assert a * m == m * a;
    assert m * m == 0xFFFF_FFFE_0000_0001;
  }

  lemma MulMonotone(a: int, b: int, c: int)
    requires 0 <= a && b <= c
    ensures a * b <= a * c
  {
    assert a * c - a * b == a * (c - b);
  }

  /** A monitor's area, computed in 64 bits from the widened width and height; the
      product never wraps. */
  function Area(m: Monitor): (a: u64)
    ensures a as int == m.width as int * m.height as int
  {
    ProductFits(m.width as int, m.height as int);
    (m.width as u64) * (m.height as u64)
  }

  /** A monitor matches the preferred name when it has a name containing it. */
  predicate NameMatches(m: Monitor, preferred: string) {
    m.name.Some? && Text.Contains(m.name.value, preferred)
  }

  /** `find`: the index of the first monitor from `i` on whose name matches. */
  function FindPreferred(monitors: seq<Monitor>, preferred: string, i: nat): (r: Option<nat>)
    requires i <= |monitors|
    ensures r.Some? ==> i <= r.value < |monitors| && NameMatches(monitors[r.value], preferred)
    ensures r.Some? ==> forall j :: i <= j < r.value ==> !NameMatches(monitors[j], preferred)
    ensures r.None? ==> forall j :: i <= j < |monitors| ==> !NameMatches(monitors[j], preferred)
    decreases |monitors| - i
  {
    if i == |monitors| then None
    else if NameMatches(monitors[i], preferred) then Some(i)
    else FindPreferred(monitors, preferred, i + 1)
  }

  /** `min_by_key` as a left fold: `best` is the index of the smallest area before `i`,
      and a later monitor replaces it only with a strictly smaller area. */
  function MinAreaFrom(monitors: seq<Monitor>, best: nat, i: nat): (r: nat)
    requires best < i <= |monitors|
    requires forall j :: 0 <= j < i ==> Area(monitors[best]) <= Area(monitors[j])
    requires forall j :: 0 <= j < best ==> Area(monitors[j]) > Area(monitors[best])
    ensures r < |monitors|
    ensures forall j :: 0 <= j < |monitors| ==> Area(monitors[r]) <= Area(monitors[j])
    ensures forall j :: 0 <= j < r ==> Area(monitors[j]) > Area(monitors[r])
    decreases |monitors| - i
  {
    if i == |monitors| then best
    else if Area(monitors[i]) < Area(monitors[best]) then MinAreaFrom(monitors, i, i + 1)
    else MinAreaFrom(monitors, best, i + 1)
  }

  /** The index of the first monitor of least area, if there is any monitor. */
  function MinByArea(monitors: seq<Monitor>): (r: Option<nat>)
    ensures r.None? <==> monitors == []
    ensures r.Some? ==> r.value < |monitors|
    ensures r.Some? ==> forall j :: 0 <= j < |monitors| ==> Area(monitors[r.value]) <= Area(monitors[j])
    ensures r.Some? ==> forall j :: 0 <= j < r.value ==> Area(monitors[j]) > Area(monitors[r.value])
  {
    if monitors == [] then None else Some(MinAreaFrom(monitors, 0, 1))
  }

  /** The monitor chosen for the window: the first whose name contains the preferred
      name, if a name is preferred and one matches; otherwise the first of least area. */
  function SelectMonitor(monitors: seq<Monitor>, preferred: Option<string>): (r: Option<nat>)
    ensures r.None? <==> monitors == []
    ensures r.Some? ==> r.value < |monitors|
  {
    var found := if preferred.Some? then FindPreferred(monitors, preferred.value, 0) else None;
    if found.Some? then found else MinByArea(monitors)
  }

  /** With a preferred name that some monitor matches, the first match is chosen. */
  lemma PreferredWins(monitors: seq<Monitor>, preferred: string, k: nat)
    requires k < |monitors| && NameMatches(monitors[k], preferred)
    ensures var r := SelectMonitor(monitors, Some(preferred));
      && r.Some? && r.value <= k && NameMatches(monitors[r.value], preferred)
      && forall j :: 0 <= j < r.value ==> !NameMatches(monitors[j], preferred)
  {
  }

  /** With no preferred name, or none that matches, the first monitor of least area is
      chosen. */
  lemma SmallestOtherwise(monitors: seq<Monitor>, preferred: Option<string>)
    requires monitors != []
    requires preferred.Some? ==> forall j :: 0 <= j < |monitors| ==> !NameMatches(monitors[j], preferred.value)
    ensures SelectMonitor(monitors, preferred) == MinByArea(monitors)
  {
  }

  /** A monitor without a name never matches; an empty preferred name matches every
      named monitor, so then the first named monitor is chosen. */
  lemma EmptyPreferenceMatchesNamed(m: Monitor)
    ensures m.name.None? ==> !NameMatches(m, "")
    ensures m.name.Some? ==> NameMatches(m, "")
  {
    if m.name.Some? {
      assert Text.IsPrefix("", m.name.value);
    }
  }

  /** What start-up does to the window: nothing when the monitors cannot be listed or
      there are none, and otherwise moves it to and fills the chosen monitor. */
  function PlacementTarget(monitors: Option<seq<Monitor>>, preferred: Option<string>): (t: Option<Monitor>)
    ensures t.None? <==> monitors.None? || monitors.value == []
    ensures t.Some? ==> t.value in monitors.value
  {
    if monitors.None? then None
    else
      var r := SelectMonitor(monitors.value, preferred);
      if r.Some? then Some(monitors.value[r.value]) else None
  }
}
