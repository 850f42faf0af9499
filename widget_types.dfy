/** The widget configuration record shared by the layout components
    (`src/widgets/types.ts`). Area and size are kept as the strings the configuration
    carries, so that the layout rules can be stated for any value. */
module WidgetTypes {
  import opened Options

  /** The widget components the registry mounts. */
  datatype Component = SystemVolumeWidget | ClockWidget | WeatherWidget | MediaControlWidget

  /** A property value handed to a component. */
  datatype PropValue = Str(s: string) | Num(x: real) | Undefined

  type Props = map<string, PropValue>

  datatype WidgetConfig = WidgetConfig(
    id: string,
    title: string,
    area: Option<string>,
    size: Option<string>,
    component: Component,
    props: Option<Props>,
    cardClassName: Option<string>,
    bodyClassName: Option<string>)

  /** A component mounted with its properties. */
  datatype Mount = Mount(component: Component, props: Props)

  /** The properties a widget is mounted with: its own, or none. */
  function MountOf(w: WidgetConfig): (m: Mount)
    ensures m.component == w.component
    ensures w.props.Some? ==> m.props == w.props.value
    ensures w.props.None? ==> m.props == map[]
  {
    Mount(w.component, w.props.GetOr(map[]))
  }
}
