/** The components copy of the system-volume widget (`src/components/SystemVolumeWidget.tsx`). Its state and
    slider handler are those of the widget-set copy; it differs in two places. The mute
    button negates the flag captured by the last render rather than the current one, and
    the button is red only while muted, not when the volume is zero. */
module ComponentsVolume {
  import WidgetsVolume

  /** What this copy shows. */
  function Appearance(s: WidgetsVolume.VolumeState): (l: WidgetsVolume.Look)
    ensures l.sliderValue == (if s.isMuted then 0 else s.volume)
    ensures l.mutedIcon <==> s.isMuted || l.sliderValue == 0
    ensures l.redButton <==> s.isMuted
  {
    WidgetsVolume.Look(if s.isMuted then 0 else s.volume, s.isMuted || s.volume == 0, s.isMuted)
  }

  /** The two copies draw the same slider and icon; the buttons differ exactly when the
      volume is zero and not muted. */
  lemma CopiesCompared(s: WidgetsVolume.VolumeState)
    ensures Appearance(s).sliderValue == WidgetsVolume.Appearance(s).sliderValue
    ensures Appearance(s).mutedIcon == WidgetsVolume.Appearance(s).mutedIcon
    ensures Appearance(s).redButton != WidgetsVolume.Appearance(s).redButton <==> !s.isMuted && s.volume == 0
  {
  }

  class SystemVolumeWidget {
    var volume: int
    var isMuted: bool
    /** The mute flag as of the last render, which the button's handler closes over. */
    var renderedMuted: bool

    function State(): WidgetsVolume.VolumeState
      reads this
    {
      WidgetsVolume.VolumeState(volume, isMuted)
    }

    constructor()
      ensures State() == WidgetsVolume.InitialVolumeState && renderedMuted == isMuted
    {
      volume := 75;
      isMuted := false;
      renderedMuted := false;
    }

    /** A render: the handlers now see the current state. */
    method Render() returns (l: WidgetsVolume.Look)
      modifies this`renderedMuted
      ensures renderedMuted == isMuted
      ensures l == Appearance(State())
    {
      renderedMuted := isMuted;
      l := WidgetsVolume.Look(if isMuted then 0 else volume, isMuted || volume == 0, isMuted);
    }

    method HandleVolumeChange(newVolume: int)
      modifies this`volume, this`isMuted
      ensures State() == WidgetsVolume.VolumeChanged(old(State()), newVolume)
    {
      volume := newVolume;
      if newVolume > 0 {
        isMuted := false;
      }
    }

    /** `setIsMuted(!isMuted)` with the rendered value. */
    method ToggleMute()
      modifies this`isMuted
      ensures isMuted == !renderedMuted
    {
      isMuted := !renderedMuted;
    }
  }

  /** After a render the button toggles like the widget-set copy; two presses handled
      before any render (both within one batched event, say) mute once, where the
      widget-set copy would end where it began. Two separate clicks each get a render
      in between and so toggle twice. */
  method TwoPressesWithoutRender(w: SystemVolumeWidget)
    modifies w
    ensures w.State() == WidgetsVolume.MuteToggled(old(w.State()))
  {
    var _ := w.Render();
    w.ToggleMute();
    w.ToggleMute();
  }
}
