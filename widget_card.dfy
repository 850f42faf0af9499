/** The card frame every widget is drawn in (`src/widgets/WidgetCard.tsx`): a class string
    for the card, an optional heading, and a body holding the children. */
module WidgetCard {
  import opened Options
  import Text
  import opened WidgetTypes

  const BaseCardClasses: string :=
    "h-full bg-gray-800/80 backdrop-blur-md rounded-2xl shadow-xl border border-gray-700 p-6 flex flex-col gap-4 justify-start"

  // One string, written in pieces so that its first and last characters are at hand.
  const BaseBodyClasses: string := "flex" + " flex-col flex-1 justify-center items-start" + " gap-4"

  const CardSuffix: string := " flex flex-col"

  /** A drawn card: class strings, the heading text if any, and the mounted child. */
  datatype Card = Card(className: string, heading: Option<string>, bodyClassName: string, content: Mount)

  /** The card's class: the base classes, the caller's class (empty by default) and the
      flex suffix, joined by single spaces and not trimmed. */
  function CardClass(className: Option<string>): string {
    BaseCardClasses + " " + className.GetOr("") + CardSuffix
  }

  /** The caller's class sits verbatim between the base classes and the suffix, so it can
      be read back from the card class. */
  lemma CardClassShape(className: Option<string>)
    ensures var c := CardClass(className);
      && |c| == |BaseCardClasses| + 1 + |className.GetOr("")| + |CardSuffix|
      && c[..|BaseCardClasses| + 1] == BaseCardClasses + " "
      && c[|c| - |CardSuffix|..] == CardSuffix
      && c[|BaseCardClasses| + 1..|c| - |CardSuffix|] == className.GetOr("")
  {
  }

  /** The body's class: the base body classes and the caller's class, trimmed. */
  function BodyClass(bodyClassName: Option<string>): (b: string)
    ensures Text.HasNoEdgeSpace(b)
  {
    Text.Trim(BaseBodyClasses + " " + bodyClassName.GetOr(""))
  }

  /** Without a caller's class the card keeps a double space; the body has none. */
  lemma DefaultClasses()
    ensures CardClass(None) == BaseCardClasses + "  flex flex-col"
    ensures BodyClass(None) == BaseBodyClasses
  {
    assert BaseCardClasses + " " + "" == BaseCardClasses + " ";
    assert " " + CardSuffix == "  flex flex-col";
    assert (BaseCardClasses + " ") + CardSuffix == BaseCardClasses + (" " + CardSuffix);
    BodyClassShape(None);
  }

  /** The body class is the base classes alone when the caller's class is blank, and the
      base classes, one space and the caller's class without trailing blanks otherwise. */
  lemma BodyClassShape(bodyClassName: Option<string>)
    ensures var x := bodyClassName.GetOr("");
      BodyClass(bodyClassName) ==
        if Text.AllSpace(x) then BaseBodyClasses else BaseBodyClasses + " " + Text.TrimEnd(x)
  {
    assert BaseBodyClasses[0] == 'f';
    assert BaseBodyClasses[|BaseBodyClasses| - 1] == '4';
    assert Text.HasNoEdgeSpace(BaseBodyClasses);
    Text.TrimAfterPrefix(BaseBodyClasses, bodyClassName.GetOr(""));
  }

  /** A caller's class with no edge blanks is appended as it is. */
  lemma BodyClassAppends(x: string)
    requires x != [] && Text.HasNoEdgeSpace(x)
    ensures BodyClass(Some(x)) == BaseBodyClasses + " " + x
  {
    BodyClassShape(Some(x));
    Text.TrimEndNoop(x);
  }

  /** The heading is drawn for a non-empty title only. */
  function Heading(title: Option<string>): (h: Option<string>)
    ensures h.Some? <==> title.Some? && title.value != ""
    ensures h.Some? ==> h == title
  {
    if title.Some? && title.value != "" then title else None
  }

  /** `WidgetCard`: the frame around one mounted child. */
  function Draw(title: Option<string>, className: Option<string>, bodyClassName: Option<string>, content: Mount): (c: Card)
    ensures c.content == content
    ensures c.heading.Some? <==> title.Some? && title.value != ""
    ensures c.className == CardClass(className) && c.bodyClassName == BodyClass(bodyClassName)
  {
    Card(CardClass(className), Heading(title), BodyClass(bodyClassName), content)
  }
}
