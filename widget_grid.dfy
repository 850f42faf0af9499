/** The grid of main-area widgets (`src/widgets/WidgetGrid.tsx`): one card per widget, in
    order and keyed by id, whose class is looked up from the widget's size. */
module WidgetGrid {
  import opened Options
  import Text
  import opened WidgetTypes
  import WidgetCard
  import Lists

  const SizeClassMap: map<string, string> :=
    map["small" := "md:col-span-1", "medium" := "md:col-span-2", "large" := "md:col-span-3"]

  const DefaultSize: string := "medium"

  /** A card with the React key it is rendered under. */
  datatype Keyed = Keyed(key: string, card: WidgetCard.Card)

  /** The map entry for a size, a missing size counting as medium; "" when there is none.
      The map is read as a dictionary: the sizes meant are those of the `WidgetSize` type,
      none of which names an inherited `Object` property. */
  function LookupSize(size: Option<string>): (looked: string)
    ensures var key := size.GetOr(DefaultSize);
      (key in SizeClassMap ==> looked == SizeClassMap[key]) && (key !in SizeClassMap ==> looked == "")
  {
    var key := size.GetOr(DefaultSize);
    if key in SizeClassMap then SizeClassMap[key] else ""
  }

  /** The card class of a size: the trimmed map entry, which is the entry itself. */
  function SizeClass(size: Option<string>): (c: string)
    ensures c == LookupSize(size)
  {
    var looked := LookupSize(size);
    SizeClassesHaveNoEdgeSpace(looked);
    Text.Trim(looked)
  }

  /** The map's classes have no blanks at either end. */
  lemma SizeClassesHaveNoEdgeSpace(c: string)
    requires c in SizeClassMap.Values || c == ""
    ensures Text.Trim(c) == c
  {
    if c != "" {
      assert c in {"md:col-span-1", "md:col-span-2", "md:col-span-3"};
      assert c[0] == 'm' && c[12] in "123";
    }
    Text.TrimNoop(c);
  }

  /** The three sizes map to one, two and three columns, and a missing size is medium. */
  lemma SizeClasses()
    ensures SizeClass(Some("small")) == "md:col-span-1"
    ensures SizeClass(Some("medium")) == "md:col-span-2"
    ensures SizeClass(Some("large")) == "md:col-span-3"
    ensures SizeClass(None) == SizeClass(Some("medium"))
  {
    assert SizeClassMap["small"] == "md:col-span-1";
    assert SizeClassMap["medium"] == "md:col-span-2";
    assert SizeClassMap["large"] == "md:col-span-3";
  }

  /** Any size outside the map gives no class (for the source's object literal, a size
      that also names no inherited `Object` property). */
  lemma UnknownSizeClass(other: string)
    requires other !in {"small", "medium", "large"}
    ensures SizeClass(Some(other)) == ""
  {
    assert other !in SizeClassMap;
  }

  /** The card of one widget. */
  function GridCard(w: WidgetConfig): (k: Keyed)
  {
    Keyed(w.id, WidgetCard.Draw(Some(w.title), Some(SizeClass(w.size)), w.bodyClassName, MountOf(w)))
  }

  /** `WidgetGrid`: the widgets mapped to cards. */
  function Grid(widgets: seq<WidgetConfig>): (cards: seq<Keyed>)
    ensures |cards| == |widgets|
    ensures forall i :: 0 <= i < |widgets| ==> cards[i] == GridCard(widgets[i])
  {
    Lists.Map(widgets, GridCard)
  }

  /** The card of a widget is keyed by its id, shows its title when that is non-empty,
      takes its size class, passes its body class on unchanged, and mounts its component
      with its properties. */
  lemma GridCardShape(w: WidgetConfig)
    ensures var k := GridCard(w);
      && k.key == w.id
      && (k.card.heading.Some? <==> w.title != "")
      && k.card.className == WidgetCard.CardClass(Some(SizeClass(w.size)))
      && k.card.bodyClassName == WidgetCard.BodyClass(w.bodyClassName)
      && k.card.content == MountOf(w)
  {
  }
}
