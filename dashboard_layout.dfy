/** The dashboard page (`src/widgets/DashboardLayout.tsx`): the widgets whose area is the
    sidebar go, in order, into a column of cards drawn only when there is at least one;
    all the others, those without an area included, go to the grid. */
module DashboardLayout {
  import opened Options
  import Text
  import Lists
  import opened WidgetTypes
  import WidgetCard
  import WidgetGrid

  const SidebarArea: string := "sidebar"

  predicate InSidebar(w: WidgetConfig) {
    w.area == Some(SidebarArea)
  }

  function SidebarWidgets(widgets: seq<WidgetConfig>): seq<WidgetConfig> {
    Lists.Filter(widgets, InSidebar)
  }

  function MainWidgets(widgets: seq<WidgetConfig>): seq<WidgetConfig> {
    Lists.FilterOut(widgets, InSidebar)
  }

  /** A widget is in the sidebar list iff its area is the sidebar, and in the main list
      iff it is not; so each widget is in exactly one list. */
  lemma Membership(widgets: seq<WidgetConfig>, w: WidgetConfig)
    ensures w in SidebarWidgets(widgets) <==> w in widgets && InSidebar(w)
    ensures w in MainWidgets(widgets) <==> w in widgets && !InSidebar(w)
  {
    Lists.FilterMembers(widgets, InSidebar, w);
  }

  /** The two lists split the widgets: as multisets they add up to the input, and their
      lengths to its length. */
  lemma Partition(widgets: seq<WidgetConfig>)
    ensures multiset(SidebarWidgets(widgets)) + multiset(MainWidgets(widgets)) == multiset(widgets)
    ensures |SidebarWidgets(widgets)| + |MainWidgets(widgets)| == |widgets|
  {
    Lists.FilterPartition(widgets, InSidebar);
  }

  /** Both lists keep the input order: splitting the input splits each list. */
  lemma KeepsOrder(a: seq<WidgetConfig>, b: seq<WidgetConfig>)
    ensures SidebarWidgets(a + b) == SidebarWidgets(a) + SidebarWidgets(b)
    ensures MainWidgets(a + b) == MainWidgets(a) + MainWidgets(b)
  {
    Lists.FilterAppend(a, b, InSidebar);
    Lists.FilterOutAppend(a, b, InSidebar);
  }

  /** When only the first widget is in the sidebar, the sidebar holds it alone and the
      grid the rest. */
  lemma OnlyFirstInSidebar(widgets: seq<WidgetConfig>)
    requires |widgets| > 0 && InSidebar(widgets[0])
    requires forall i :: 1 <= i < |widgets| ==> !InSidebar(widgets[i])
    ensures SidebarWidgets(widgets) == [widgets[0]] && MainWidgets(widgets) == widgets[1..]
  {
    Lists.FilterAll([widgets[0]], InSidebar);
    Lists.FilterNone(widgets[1..], InSidebar);
    KeepsOrder([widgets[0]], widgets[1..]);
    assert widgets == [widgets[0]] + widgets[1..];
  }

  /** The body class of a sidebar card before the card adds its own: `flex-1` and the
      widget's body class, trimmed. */
  function SidebarBodyClass(w: WidgetConfig): (b: string)
    ensures Text.HasNoEdgeSpace(b)
  {
    Text.Trim("flex-1 " + w.bodyClassName.GetOr(""))
  }

  /** It is `flex-1` alone for a blank body class, and `flex-1`, a space and the body
      class without trailing blanks otherwise. */
  lemma SidebarBodyClassShape(w: WidgetConfig)
    ensures var x := w.bodyClassName.GetOr("");
      SidebarBodyClass(w) == if Text.AllSpace(x) then "flex-1" else "flex-1 " + Text.TrimEnd(x)
  {
    var x := w.bodyClassName.GetOr("");
    assert "flex-1 " + x == "flex-1" + " " + x;
    assert Text.HasNoEdgeSpace("flex-1");
    Text.TrimAfterPrefix("flex-1", x);
  }

  /** A sidebar card: the widget's own card class, its title, and the body class above. */
  function SidebarCard(w: WidgetConfig): WidgetGrid.Keyed {
    WidgetGrid.Keyed(w.id, WidgetCard.Draw(Some(w.title), w.cardClassName, Some(SidebarBodyClass(w)), MountOf(w)))
  }

  lemma SidebarCardShape(w: WidgetConfig)
    ensures var k := SidebarCard(w);
      && k.key == w.id
      && (k.card.heading.Some? <==> w.title != "")
      && k.card.className == WidgetCard.CardClass(w.cardClassName)
      && k.card.bodyClassName == WidgetCard.BodyClass(Some(SidebarBodyClass(w)))
      && k.card.content == MountOf(w)
  {
  }

  /** Without a body class of its own a sidebar card's body has the base classes and
      `flex-1`. */
  lemma SidebarDefaultBody(w: WidgetConfig)
    requires w.bodyClassName.None?
    ensures SidebarCard(w).card.bodyClassName == WidgetCard.BaseBodyClasses + " flex-1"
  {
    SidebarBodyClassDefault(w);
    BodyClassOfFlexOne(SidebarBodyClass(w));
    SidebarCardShape(w);
  }

  lemma BodyClassOfFlexOne(x: string)
    requires x == "flex-1"
    ensures WidgetCard.BodyClass(Some(x)) == WidgetCard.BaseBodyClasses + " flex-1"
  {
    WidgetCard.BodyClassAppends(x);
    assert WidgetCard.BaseBodyClasses + " " + x == WidgetCard.BaseBodyClasses + (" " + x);
  }

  lemma SidebarBodyClassDefault(w: WidgetConfig)
    requires w.bodyClassName.None?
    ensures SidebarBodyClass(w) == "flex-1"
  {
    SidebarBodyClassShape(w);
  }

  /** The page: the sidebar column, when drawn, and the grid. */
  datatype Dashboard = Dashboard(sidebar: Option<seq<WidgetGrid.Keyed>>, main: seq<WidgetGrid.Keyed>)

  function Layout(widgets: seq<WidgetConfig>): (d: Dashboard)
    ensures d.sidebar.Some? <==> exists w :: w in widgets && InSidebar(w)
    ensures d.sidebar.Some? ==> d.sidebar.value == Lists.Map(SidebarWidgets(widgets), SidebarCard)
    ensures d.main == WidgetGrid.Grid(MainWidgets(widgets))
  {
    var side := SidebarWidgets(widgets);
    if |side| > 0 then
      Membership(widgets, side[0]);
      Dashboard(Some(Lists.Map(side, SidebarCard)), WidgetGrid.Grid(MainWidgets(widgets)))
    else
      assert forall w :: w in widgets ==> !InSidebar(w) by {
        forall w | w in widgets ensures !InSidebar(w) {
          Membership(widgets, w);
        }
      }
      Dashboard(None, WidgetGrid.Grid(MainWidgets(widgets)))
  }
}
