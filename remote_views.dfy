/** The widget's layout (its view ids) and `RemoteViews`, the command set a
    refresh builds: each `set*` call records one property of one view. */
module Views {
  import opened Wrappers
  import opened Colors
  import opened Android

  datatype Visibility = Visible | Gone

  /** The view ids of the widget layout that the provider touches. Category
      rows are numbered 0..2 and quick-action slots 0..4. */
  datatype ViewId =
    | WidgetRoot
    | WidgetMonth
    | ContentContainer
    | EmptyState
    | PieChartImage
    | QuickActionHint
    | QuickActionsContainer
    | CategoryRow(rank: nat)
    | CategoryName(rank: nat)
    | CategoryPercent(rank: nat)
    | CategoryIcon(rank: nat)
    | CategoryColorBar(rank: nat)
    | SlotContainer(slot: nat)
    | SlotIcon(slot: nat)
    | SlotLabel(slot: nat)

  /** What a command set records, one map per kind of `set*` call: the
      last value set for each view. `ints` holds `setInt(view, method,
      value)` calls by view and then by method name. */
  datatype ViewCommands = ViewCommands(
    texts: map<ViewId, string>,
    textColors: map<ViewId, Argb>,
    visibilities: map<ViewId, Visibility>,
    images: map<ViewId, ImageContent>,
    clicks: map<ViewId, PendingIntent>,
    ints: map<ViewId, map<string, int>>)

  /** A freshly inflated layout: nothing set yet. */
  const NoCommands: ViewCommands := ViewCommands(map[], map[], map[], map[], map[], map[])

  /** The value last set for view `id` in one kind of property, if any. */
  function Lookup<V>(m: map<ViewId, V>, id: ViewId): Option<V> {
    if id in m then Some(m[id]) else None
  }

  /** The `setInt` calls last made on view `id`, by method name. */
  function IntsIn(m: map<ViewId, map<string, int>>, id: ViewId): map<string, int> {
    if id in m then m[id] else map[]
  }

  function TextOf(c: ViewCommands, id: ViewId): Option<string> {
    Lookup(c.texts, id)
  }

  function TextColorOf(c: ViewCommands, id: ViewId): Option<Argb> {
    Lookup(c.textColors, id)
  }

  function VisibilityOf(c: ViewCommands, id: ViewId): Option<Visibility> {
    Lookup(c.visibilities, id)
  }

  function ImageOf(c: ViewCommands, id: ViewId): Option<ImageContent> {
    Lookup(c.images, id)
  }

  function ClickOf(c: ViewCommands, id: ViewId): Option<PendingIntent> {
    Lookup(c.clicks, id)
  }

  function IntsOf(c: ViewCommands, id: ViewId): map<string, int> {
    IntsIn(c.ints, id)
  }

  /** Two command sets say the same about view `id`. */
  predicate SameView(a: ViewCommands, b: ViewCommands, id: ViewId) {
    && TextOf(a, id) == TextOf(b, id)
    && TextColorOf(a, id) == TextColorOf(b, id)
    && VisibilityOf(a, id) == VisibilityOf(b, id)
    && ImageOf(a, id) == ImageOf(b, id)
    && ClickOf(a, id) == ClickOf(b, id)
    && IntsOf(a, id) == IntsOf(b, id)
  }

  /** The command set after `setTextViewText(id, text)`. */
  function WithText(c: ViewCommands, id: ViewId, text: string): ViewCommands {
    c.(texts := c.texts[id := text])
  }

  function WithTextColor(c: ViewCommands, id: ViewId, color: Argb): ViewCommands {
    c.(textColors := c.textColors[id := color])
  }

  function WithVisibility(c: ViewCommands, id: ViewId, visibility: Visibility): ViewCommands {
    c.(visibilities := c.visibilities[id := visibility])
  }

  function WithImage(c: ViewCommands, id: ViewId, image: ImageContent): ViewCommands {
    c.(images := c.images[id := image])
  }

  function WithClick(c: ViewCommands, id: ViewId, pendingIntent: PendingIntent): ViewCommands {
    c.(clicks := c.clicks[id := pendingIntent])
  }

  function WithInt(c: ViewCommands, id: ViewId, methodName: string, value: int): ViewCommands {
    c.(ints := c.ints[id := IntsOf(c, id)[methodName := value]])
  }

  /** Updating one view's entry leaves every other view's entry. */
  lemma UpdateKeepsOthers<V>(m: map<ViewId, V>, id: ViewId, v: V, other: ViewId)
    requires other != id
    ensures Lookup(m[id := v], other) == Lookup(m, other)
  {
  }

  /** `setTextViewText` records the text on its own view, and every other
      view reads the same as before. */
  lemma WithTextWritesOneView(c: ViewCommands, id: ViewId, text: string, other: ViewId)
    requires other != id
    ensures TextOf(WithText(c, id, text), id) == Some(text)
    ensures SameView(WithText(c, id, text), c, other)
  {
    UpdateKeepsOthers(c.texts, id, text, other);
  }

  lemma WithTextColorWritesOneView(c: ViewCommands, id: ViewId, color: Argb, other: ViewId)
    requires other != id
    ensures TextColorOf(WithTextColor(c, id, color), id) == Some(color)
    ensures SameView(WithTextColor(c, id, color), c, other)
  {
    UpdateKeepsOthers(c.textColors, id, color, other);
  }

  lemma WithVisibilityWritesOneView(c: ViewCommands, id: ViewId, visibility: Visibility, other: ViewId)
    requires other != id
    ensures VisibilityOf(WithVisibility(c, id, visibility), id) == Some(visibility)
    ensures SameView(WithVisibility(c, id, visibility), c, other)
  {
    UpdateKeepsOthers(c.visibilities, id, visibility, other);
  }

  lemma WithImageWritesOneView(c: ViewCommands, id: ViewId, image: ImageContent, other: ViewId)
    requires other != id
    ensures ImageOf(WithImage(c, id, image), id) == Some(image)
    ensures SameView(WithImage(c, id, image), c, other)
  {
    UpdateKeepsOthers(c.images, id, image, other);
  }

  lemma WithClickWritesOneView(c: ViewCommands, id: ViewId, pendingIntent: PendingIntent, other: ViewId)
    requires other != id
    ensures ClickOf(WithClick(c, id, pendingIntent), id) == Some(pendingIntent)
    ensures SameView(WithClick(c, id, pendingIntent), c, other)
  {
    UpdateKeepsOthers(c.clicks, id, pendingIntent, other);
  }

  /** `setInt` records the value under its method name on its own view,
      keeping the view's other `setInt` calls. */
  lemma WithIntWritesOneView(c: ViewCommands, id: ViewId, methodName: string, value: int, other: ViewId)
    requires other != id
    ensures IntsOf(WithInt(c, id, methodName, value), id) == IntsOf(c, id)[methodName := value]
    ensures SameView(WithInt(c, id, methodName, value), c, other)
  {
    assert IntsIn(c.ints[id := IntsOf(c, id)[methodName := value]], other) == IntsIn(c.ints, other);
  }

  class RemoteViews {
    var commands: ViewCommands

    constructor ()
      ensures commands == NoCommands
    {
      commands := NoCommands;
    }

    method SetTextViewText(id: ViewId, text: string)
      modifies this
      ensures commands == WithText(old(commands), id, text)
    {
      commands := commands.(texts := commands.texts[id := text]);
    }

    method SetTextColor(id: ViewId, color: Argb)
      modifies this
      ensures commands == WithTextColor(old(commands), id, color)
    {
      commands := commands.(textColors := commands.textColors[id := color]);
    }

    method SetViewVisibility(id: ViewId, visibility: Visibility)
      modifies this
      ensures commands == WithVisibility(old(commands), id, visibility)
    {
      commands := commands.(visibilities := commands.visibilities[id := visibility]);
    }

    method SetImageViewBitmap(id: ViewId, bitmap: Bitmap)
      modifies this
      ensures commands == WithImage(old(commands), id, BitmapImage(bitmap))
    {
      commands := commands.(images := commands.images[id := BitmapImage(bitmap)]);
    }

    /** `setImageViewResource(id, R.drawable.ic_default_category)`. */
    method SetImageViewResource(id: ViewId)
      modifies this
      ensures commands == WithImage(old(commands), id, DefaultCategoryIcon)
    {
      commands := commands.(images := commands.images[id := DefaultCategoryIcon]);
    }

    method SetOnClickPendingIntent(id: ViewId, pendingIntent: PendingIntent)
      modifies this
      ensures commands == WithClick(old(commands), id, pendingIntent)
    {
      commands := commands.(clicks := commands.clicks[id := pendingIntent]);
    }

    method SetInt(id: ViewId, methodName: string, value: int)
      modifies this
      ensures commands == WithInt(old(commands), id, methodName, value)
    {
      var onView := if id in commands.ints then commands.ints[id] else map[];
      commands := commands.(ints := commands.ints[id := onView[methodName := value]]);
    }
  }
}
