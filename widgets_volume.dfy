/** The system-volume widget of the widget set (`src/widgets/SystemVolumeWidget.tsx`): a
    volume and a mute flag held locally, a slider that shows 0 while muted, and a mute
    button. Nothing is sent to the operating system. */
module WidgetsVolume {

  datatype VolumeState = VolumeState(volume: int, isMuted: bool)

  const InitialVolumeState: VolumeState := VolumeState(75, false)

  /** The slider's change handler: the new volume is taken as is, and a positive one
      clears the mute flag; a zero keeps it. */
  function VolumeChanged(s: VolumeState, newVolume: int): (t: VolumeState)
    ensures t.volume == newVolume
    ensures newVolume > 0 ==> !t.isMuted
    ensures newVolume <= 0 ==> t.isMuted == s.isMuted
  {
    VolumeState(newVolume, if newVolume > 0 then false else s.isMuted)
  }

  /** The mute button's handler, through the functional updater: it flips the flag as it
      is when the update applies. */
  function MuteToggled(s: VolumeState): (t: VolumeState)
    ensures t.volume == s.volume && t.isMuted != s.isMuted
  {
    s.(isMuted := !s.isMuted)
  }

  /** What the widget shows: the slider's value, whether the muted icon is drawn, and
      whether the button is red. */
  datatype Look = Look(sliderValue: int, mutedIcon: bool, redButton: bool)

  function Appearance(s: VolumeState): (l: Look)
    ensures l.sliderValue == (if s.isMuted then 0 else s.volume)
    ensures l.mutedIcon <==> s.isMuted || s.volume == 0
    ensures l.redButton <==> l.mutedIcon
  {
    var displayed := if s.isMuted then 0 else s.volume;
    Look(displayed, displayed == 0, displayed == 0)
  }

  /** Two presses of the mute button restore the state. */
  lemma ToggleTwiceRestores(s: VolumeState)
    ensures MuteToggled(MuteToggled(s)) == s
  {
  }

  /** Moving the slider to a positive value unmutes and shows that value. */
  lemma PositiveChangeShowsValue(s: VolumeState, v: int)
    requires v > 0
    ensures Appearance(VolumeChanged(s, v)) == Look(v, false, false)
  {
  }

  /** Moving the slider to zero shows the muted icon, muted or not. */
  lemma ZeroChangeShowsMuted(s: VolumeState)
    ensures Appearance(VolumeChanged(s, 0)).mutedIcon
    ensures VolumeChanged(s, 0).isMuted == s.isMuted
  {
  }

  /** Muting keeps the volume, so unmuting shows it again. */
  lemma UnmuteRestoresSlider(s: VolumeState)
    requires !s.isMuted
    ensures Appearance(MuteToggled(s)).sliderValue == 0
    ensures Appearance(MuteToggled(MuteToggled(s))).sliderValue == s.volume
  {
  }

  class SystemVolumeWidget {
    var volume: int
    var isMuted: bool

    function State(): VolumeState
      reads this
    {
      VolumeState(volume, isMuted)
    }

    constructor()
      ensures State() == InitialVolumeState
    {
      volume := 75;
      isMuted := false;
    }

    method HandleVolumeChange(newVolume: int)
      modifies this
      ensures State() == VolumeChanged(old(State()), newVolume)
    {
      volume := newVolume;
      if newVolume > 0 {
        isMuted := false;
      }
    }

    method ToggleMute()
      modifies this
      ensures State() == MuteToggled(old(State()))
    {
      isMuted := !isMuted;
    }
  }
}
