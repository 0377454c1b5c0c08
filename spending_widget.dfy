/** One refresh of the home-screen widget (SpendingWidgetProvider
    .updateAppWidget and the row and chart helpers it calls): the snapshot
    the app saved in its preferences becomes the command set pushed to the
    widget. */
module SpendingWidget {
  import opened Wrappers
  import opened Json
  import opened Colors
  import opened PieGeometry
  import opened Android
  import opened Views
  import opened SnapshotParser
  import opened QuickActions

  /** Category rows on the widget. */
  const RowCount: nat := 3
  /** `CHART_SIZE_DP`: the chart bitmap's side in density-independent pixels. */
  const ChartSizeDp: real := 104.0
  /** The chart's rim sits this many pixels inside the bitmap's edge. */
  const RimInset: real := 10.0
  /** The donut hole's radius as a share of the chart's. */
  const HoleRatio: real := 0.58
  const HoleColor: Argb := 0xFF07_182A
  const ChartLabel: string := "TOP\nSPEND"
  /** The app's Statistics tab, which a tap on the widget opens. */
  const StatisticsTab: int := 3

  function Min(a: int, b: int): int { if a < b then a else b }

  /** `prefs.getString(key, default) ?: default`. */
  function PrefString(prefs: map<string, string>, key: string, default: string): string {
    if key in prefs then prefs[key] else default
  }

  /** A snapshot has been saved: `last_update` is present and not empty. */
  predicate HasData(prefs: map<string, string>) {
    "last_update" in prefs && prefs["last_update"] != ""
  }

  /** The tap on the widget's body: request code `appWidgetId`, opening
      the Statistics tab. */
  function RootPendingIntent(appWidgetId: int): (p: PendingIntent)
    ensures p.requestCode == appWidgetId
    ensures HasExtra(p.intent, "open_tab") && GetIntExtra(p.intent, "open_tab", 0) == StatisticsTab
    ensures ReadQuickActionRequest(p.intent).None?
  {
    PendingIntent(appWidgetId, Intent(map["open_tab" := IntExtra(StatisticsTab)]))
  }

  /** The five views of category row `r`. */
  predicate RowView(id: ViewId, r: nat) {
    id == CategoryRow(r) || id == CategoryName(r) || id == CategoryPercent(r) || id == CategoryIcon(r) || id == CategoryColorBar(r)
  }

  /** The commands of the first `k` passes of `hideCategoryRows`. */
  function RowsHiddenUpTo(views: ViewCommands, k: nat): ViewCommands {
    if k == 0 then views else WithVisibility(RowsHiddenUpTo(views, k - 1), CategoryRow(k - 1), Gone)
  }

  /** `hideCategoryRows`. */
  method HideCategoryRows(views: RemoteViews)
    modifies views
    ensures views.commands == RowsHiddenUpTo(old(views.commands), RowCount)
  {
    for r := 0 to RowCount
      invariant views.commands == RowsHiddenUpTo(old(views.commands), r)
    {
      views.SetViewVisibility(CategoryRow(r), Gone);
    }
  }

  /** The first `k` passes of `hideCategoryRows` make rows 0..k-1 GONE. */
  lemma {:induction false} RowsHiddenUpToHides(views: ViewCommands, k: nat, r: nat)
    requires r < k
    ensures VisibilityOf(RowsHiddenUpTo(views, k), CategoryRow(r)) == Some(Gone)
  {
    var prev := RowsHiddenUpTo(views, k - 1);
    if r < k - 1 {
      RowsHiddenUpToHides(views, k - 1, r);
      WithVisibilityWritesOneView(prev, CategoryRow(k - 1), Gone, CategoryRow(r));
    }
  }

  /** ... and leave every other view as it was. */
  lemma {:induction false} RowsHiddenUpToKeeps(views: ViewCommands, k: nat, id: ViewId)
    requires !(id.CategoryRow? && id.rank < k)
    ensures SameView(RowsHiddenUpTo(views, k), views, id)
  {
    if k > 0 {
      RowsHiddenUpToKeeps(views, k - 1, id);
      WithVisibilityWritesOneView(RowsHiddenUpTo(views, k - 1), CategoryRow(k - 1), Gone, id);
    }
  }

  /** The colour a category is drawn in. */
  function CategoryColor(category: CategoryData): Argb {
    ColorForCategory(category.name, category.categoryId)
  }

  function CategoryColors(categories: seq<CategoryData>): (colors: seq<Argb>)
    ensures |colors| == |categories|
    ensures forall i :: 0 <= i < |colors| ==> colors[i] == CategoryColor(categories[i])
  {
    seq(|categories|, i requires 0 <= i < |categories| => CategoryColor(categories[i]))
  }

  /** What a category row shows. */
  datatype RowContent = RowContent(name: string, percentText: string, icon: ImageContent, barColor: Argb)

  /** The row `bindCategoryRow` fills in for a category drawn in `color`:
      its name, its percent followed by "%", its icon (the default icon when
      none decodes) and a colour bar with the colour's red, green and blue
      at 70% of its alpha. */
  function RowOf(platform: Platform, category: CategoryData, color: Argb): (row: RowContent)
    ensures row.name == category.name && row.percentText == category.percent + "%"
    ensures row.icon == DefaultCategoryIcon <==> DecodeIconBitmap(platform, category.iconImage).None?
    ensures Red(row.barColor) == Red(color) && Green(row.barColor) == Green(color) && Blue(row.barColor) == Blue(color)
    ensures Alpha(row.barColor) <= Alpha(color)
    ensures row.barColor == ApplyAlpha(color, ColorBarAlpha)
  {
    RowContent(category.name, category.percent + "%", IconImage(platform, category.iconImage), ApplyAlpha(color, ColorBarAlpha))
  }

  /** The method `setInt` calls on a colour bar. */
  const BackgroundColorSetter: string := "setBackgroundColor"

  /** Row `r` is visible and its views show `row`. */
  ghost predicate ShowsRow(now: ViewCommands, r: nat, row: RowContent) {
    var bar := IntsOf(now, CategoryColorBar(r));
    && VisibilityOf(now, CategoryRow(r)) == Some(Visible)
    && TextOf(now, CategoryName(r)) == Some(row.name)
    && TextOf(now, CategoryPercent(r)) == Some(row.percentText)
    && ImageOf(now, CategoryIcon(r)) == Some(row.icon)
    && BackgroundColorSetter in bar && bar[BackgroundColorSetter] == row.barColor
  }

  /** The commands of `bindCategoryRow` for row `r`, in the order it
      issues them. */
  function ShowRow(views: ViewCommands, r: nat, row: RowContent): ViewCommands {
    var visible := WithVisibility(views, CategoryRow(r), Visible);
    var named := WithText(WithText(visible, CategoryName(r), row.name), CategoryPercent(r), row.percentText);
    WithInt(WithImage(named, CategoryIcon(r), row.icon), CategoryColorBar(r), BackgroundColorSetter, row.barColor)
  }

  /** `bindCategoryRow`: rows 0..2 are filled in; any other index changes
      nothing. */
  method BindCategoryRow(views: RemoteViews, platform: Platform, index: int, category: CategoryData, color: Argb)
    modifies views
    ensures views.commands == if 0 <= index < RowCount then ShowRow(old(views.commands), index, RowOf(platform, category, color))
                           else old(views.commands)
  {
    if 0 <= index < RowCount {
      views.SetViewVisibility(CategoryRow(index), Visible);
      views.SetTextViewText(CategoryName(index), category.name);
      views.SetTextViewText(CategoryPercent(index), category.percent + "%");
      SetIconImage(views, CategoryIcon(index), platform, category.iconImage);
      views.SetInt(CategoryColorBar(index), BackgroundColorSetter, ApplyAlpha(color, ColorBarAlpha));
    }
  }

  /** Showing `row` in row r makes the row visible and shows the row's
      content in its four other views ... */
  lemma ShowRowShows(views: ViewCommands, r: nat, row: RowContent)
    ensures ShowsRow(ShowRow(views, r, row), r, row)
  {
  }

  /** ... and writes no view outside the row. */
  lemma ShowRowKeeps(views: ViewCommands, r: nat, row: RowContent, id: ViewId)
    requires !RowView(id, r)
    ensures SameView(ShowRow(views, r, row), views, id)
  {
    var visible := WithVisibility(views, CategoryRow(r), Visible);
    var named := WithText(visible, CategoryName(r), row.name);
    var percent := WithText(named, CategoryPercent(r), row.percentText);
    var iconed := WithImage(percent, CategoryIcon(r), row.icon);
    WithVisibilityWritesOneView(views, CategoryRow(r), Visible, id);
    WithTextWritesOneView(visible, CategoryName(r), row.name, id);
    WithTextWritesOneView(named, CategoryPercent(r), row.percentText, id);
    WithImageWritesOneView(percent, CategoryIcon(r), row.icon, id);
    WithIntWritesOneView(iconed, CategoryColorBar(r), BackgroundColorSetter, row.barColor, id);
  }

  /** The chart bitmap's side in pixels: `(104 * density).toInt()`. */
  function ChartSize(density: real): int {
    Trunc(ChartSizeDp * density)
  }

  function Amounts(categories: seq<CategoryData>): (amounts: seq<real>)
    ensures |amounts| == |categories|
    ensures forall i :: 0 <= i < |amounts| ==> amounts[i] == categories[i].amount
  {
    seq(|categories|, i requires 0 <= i < |categories| => categories[i].amount)
  }

  /** `categories.take(3)`. */
  function FirstRows(categories: seq<CategoryData>): seq<CategoryData> {
    categories[..Min(|categories|, RowCount)]
  }

  /** The bitmap `drawPieChart` sets, or None when it sets none: a size of
      zero pixels or less is refused by the bitmap factory, and an empty
      colour list divides by zero; both exceptions are caught. A total of
      zero or less gives a blank bitmap. Otherwise the first three
      categories become sectors of `total` coloured `colors[i % size]`,
      under a hole of 58% of the radius labelled "TOP\nSPEND". */
  function ChartImage(density: real, categories: seq<CategoryData>, colors: seq<Argb>): Option<Bitmap> {
    var size := ChartSize(density);
    var total := Sum(Amounts(categories));
    if size <= 0 then None
    else if total <= 0.0 then Some(ChartBitmap(size, NoArcs))
    else if colors == [] then None
    else
      var radius := size as real / 2.0 - RimInset;
      Some(ChartBitmap(size, Donut(SweepLayout(Amounts(FirstRows(categories)), total, colors),
                                   radius, radius * HoleRatio, HoleColor, ChartLabel)))
  }

  /** The sector loop of `drawPieChart`: from 12 o'clock, each value
      sweeps `value / total * 360` degrees in `colors[index % size]`, and
      the next sector starts where it ended. */
  method SweepArcs(values: seq<real>, total: real, colors: seq<Argb>) returns (arcs: seq<Arc>)
    requires total != 0.0 && colors != []
    ensures arcs == SweepLayout(values, total, colors)
  {
    var startAngle := StartAngle;
    arcs := [];
    for index := 0 to |values|
      invariant |arcs| == index
      invariant startAngle == StartOf(values, index, total)
      invariant forall j :: 0 <= j < index ==>
        arcs[j] == Arc(StartOf(values, j, total), Sweep(values[j], total), colors[j % |colors|])
    {
      var sweepAngle := values[index] / total * 360.0;
      // `colors.getOrNull(index % colors.size)` is always in range here
      var color := colors[index % |colors|];
      arcs := arcs + [Arc(startAngle, sweepAngle, color)];
      StartStep(values, index, total);
      startAngle := startAngle + sweepAngle;
    }
  }

  /** The chart view after `drawPieChart` sets `chart`, if it sets one. */
  function ChartDrawn(views: ViewCommands, chart: Option<Bitmap>): ViewCommands {
    if chart.Some? then WithImage(views, PieChartImage, BitmapImage(chart.value)) else views
  }

  /** `drawPieChart`: the chart image view gets ChartImage, or nothing
      changes when there is none. */
  method DrawPieChart(views: RemoteViews, platform: Platform, categories: seq<CategoryData>, colors: seq<Argb>)
    modifies views
    ensures views.commands == ChartDrawn(old(views.commands), ChartImage(platform.density, categories, colors))
  {
    var chartSize := Trunc(ChartSizeDp * platform.density);
    if chartSize <= 0 {
      return;  // Bitmap.createBitmap throws; the exception is caught
    }
    var radius := chartSize as real / 2.0 - RimInset;
    var total := Sum(Amounts(categories));
    if total <= 0.0 {
      views.SetImageViewBitmap(PieChartImage, ChartBitmap(chartSize, NoArcs));
      return;
    }
    if colors == [] {
      return;  // `index % colors.size` throws; the exception is caught
    }
    var arcs := SweepArcs(Amounts(FirstRows(categories)), total, colors);
    var innerRadius := radius * HoleRatio;
    views.SetImageViewBitmap(PieChartImage, ChartBitmap(chartSize, Donut(arcs, radius, innerRadius, HoleColor, ChartLabel)));
  }

  /** With at most three categories, a positive total and some colours,
      the sectors start at 12 o'clock, are contiguous, sweep 360 degrees in
      all and end back at 12 o'clock; category i gets `colors[i % size]`. */
  lemma ChartCoversCircle(density: real, categories: seq<CategoryData>, colors: seq<Argb>)
    requires |categories| <= RowCount && colors != []
    requires ChartSize(density) > 0 && Sum(Amounts(categories)) > 0.0
    ensures var image := ChartImage(density, categories, colors);
      && image.Some? && image.value.drawing.Donut?
      && var arcs := image.value.drawing.arcs;
      && |arcs| == |categories|
      && arcs[0].startAngle == StartAngle
      && (forall i :: 0 <= i < |arcs| - 1 ==> arcs[i + 1].startAngle == arcs[i].startAngle + arcs[i].sweepAngle)
      && Sum(Sweeps(arcs)) == 360.0
      && EndAngle(arcs) == 270.0
      && (forall i :: 0 <= i < |arcs| ==> arcs[i].color == colors[i % |colors|])
  {
    assert FirstRows(categories) == categories;
    var values := Amounts(categories);
    LayoutIsContiguous(values, Sum(values), colors);
    LayoutCoversCircle(values, colors);
  }

  /** With non-negative amounts every sector sweeps between 0 and 360
      degrees. */
  lemma ChartSweepsWithinCircle(density: real, categories: seq<CategoryData>, colors: seq<Argb>)
    requires |categories| <= RowCount && colors != []
    requires forall c :: c in categories ==> c.amount >= 0.0
    requires ChartSize(density) > 0 && Sum(Amounts(categories)) > 0.0
    ensures var image := ChartImage(density, categories, colors);
      && image.Some? && image.value.drawing.Donut?
      && forall a :: a in image.value.drawing.arcs ==> 0.0 <= a.sweepAngle <= 360.0
  {
    assert FirstRows(categories) == categories;
    var values := Amounts(categories);
    assert forall k :: 0 <= k < |values| ==> values[k] >= 0.0 by {
      forall k | 0 <= k < |values| ensures values[k] >= 0.0 {
        assert categories[k] in categories;
      }
    }
    SweepsWithinCircle(values, colors);
  }

  /** Nothing spent: a positive-size blank bitmap and no sectors. */
  lemma NothingSpentBlankChart(density: real, categories: seq<CategoryData>, colors: seq<Argb>)
    requires ChartSize(density) > 0 && Sum(Amounts(categories)) <= 0.0
    ensures ChartImage(density, categories, colors) == Some(ChartBitmap(ChartSize(density), NoArcs))
  {
  }

  /** Views of any category row. */
  predicate IsRowView(id: ViewId) {
    id.CategoryRow? || id.CategoryName? || id.CategoryPercent? || id.CategoryIcon? || id.CategoryColorBar?
  }

  /** The rows the first three categories fill in, each in its category's
      colour. */
  function RowsOf(platform: Platform, categories: seq<CategoryData>): (rows: seq<RowContent>)
    ensures |rows| == Min(|categories|, RowCount)
    ensures forall r :: 0 <= r < |rows| ==> rows[r] == RowOf(platform, categories[r], CategoryColor(categories[r]))
  {
    var shown := FirstRows(categories);
    seq(|shown|, r requires 0 <= r < |shown| => RowOf(platform, shown[r], CategoryColor(shown[r])))
  }

  /** What the first `k` passes of the category loop do to each kind of
      property: rows 0..k-1 made VISIBLE, ... */
  function RowVisibilities(m: map<ViewId, Visibility>, k: nat): map<ViewId, Visibility> {
    if k == 0 then m else RowVisibilities(m, k - 1)[CategoryRow(k - 1) := Visible]
  }

  /** ... their names and percents set, ... */
  function RowTexts(m: map<ViewId, string>, rows: seq<RowContent>, k: nat): map<ViewId, string>
    requires k <= |rows|
  {
    if k == 0 then m
    else RowTexts(m, rows, k - 1)[CategoryName(k - 1) := rows[k - 1].name][CategoryPercent(k - 1) := rows[k - 1].percentText]
  }

  /** ... their icons set, ... */
  function RowIcons(m: map<ViewId, ImageContent>, rows: seq<RowContent>, k: nat): map<ViewId, ImageContent>
    requires k <= |rows|
  {
    if k == 0 then m else RowIcons(m, rows, k - 1)[CategoryIcon(k - 1) := rows[k - 1].icon]
  }

  /** ... and their colour bars' background colour set. */
  function RowBars(m: map<ViewId, map<string, int>>, rows: seq<RowContent>, k: nat): map<ViewId, map<string, int>>
    requires k <= |rows|
  {
    if k == 0 then m
    else
      var prev := RowBars(m, rows, k - 1);
      prev[CategoryColorBar(k - 1) := IntsIn(prev, CategoryColorBar(k - 1))[BackgroundColorSetter := rows[k - 1].barColor]]
  }

  /** The commands of the first `k` passes of the category loop. */
  function RowsFilledUpTo(views: ViewCommands, rows: seq<RowContent>, k: nat): ViewCommands
    requires k <= |rows|
  {
    views.(visibilities := RowVisibilities(views.visibilities, k),
           texts := RowTexts(views.texts, rows, k),
           images := RowIcons(views.images, rows, k),
           ints := RowBars(views.ints, rows, k))
  }

  /** The loop of `updateAppWidget` over `categories.take(3)`: each
      category's colour is collected and its row filled in. */
  method BindCategoryRows(views: RemoteViews, platform: Platform, categories: seq<CategoryData>) returns (colors: seq<Argb>)
    modifies views
    ensures colors == CategoryColors(FirstRows(categories))
    ensures |colors| == |RowsOf(platform, categories)|
    ensures views.commands == RowsFilledUpTo(old(views.commands), RowsOf(platform, categories), |colors|)
  {
    colors := [];
    ghost var rows := RowsOf(platform, categories);
    var count := Min(|categories|, RowCount);
    assert count == |rows| <= |categories|;
    for index := 0 to count
      invariant count == |rows| <= |categories|
      invariant colors == CategoryColors(categories[..index])
      invariant views.commands == RowsFilledUpTo(old(views.commands), rows, index)
    {
      var color := CategoryColor(categories[index]);
      ColorsNext(categories, index);
      colors := colors + [color];
      CategoryRowFilledNext(old(views.commands), rows, index, platform, categories);
      BindCategoryRow(views, platform, index, categories[index], color);
    }
  }

  /** One more pass of the category loop collects one more colour. */
  lemma ColorsNext(categories: seq<CategoryData>, k: nat)
    requires k < |categories|
    ensures CategoryColors(categories[..k + 1]) == CategoryColors(categories[..k]) + [CategoryColor(categories[k])]
  {
    assert categories[..k + 1][..k] == categories[..k];
  }

  /** One more pass of the category loop fills in row k. */
  lemma RowsFilledNext(views: ViewCommands, rows: seq<RowContent>, k: nat)
    requires k < |rows|
    ensures RowsFilledUpTo(views, rows, k + 1) == ShowRow(RowsFilledUpTo(views, rows, k), k, rows[k])
  {
  }

  /** One more pass of the category loop fills in row k with category k in
      its colour. */
  lemma CategoryRowFilledNext(views: ViewCommands, rows: seq<RowContent>, k: nat,
                              platform: Platform, categories: seq<CategoryData>)
    requires k < |rows|
    requires rows == RowsOf(platform, categories)
    ensures RowsFilledUpTo(views, rows, k + 1)
              == ShowRow(RowsFilledUpTo(views, rows, k), k, RowOf(platform, categories[k], CategoryColor(categories[k])))
  {
  }

  lemma {:induction false} RowVisibilitiesKeep(m: map<ViewId, Visibility>, k: nat, id: ViewId)
    requires !(id.CategoryRow? && id.rank < k)
    ensures Lookup(RowVisibilities(m, k), id) == Lookup(m, id)
  {
    if k > 0 {
      RowVisibilitiesKeep(m, k - 1, id);
    }
  }

  lemma {:induction false} RowVisibilitiesShow(m: map<ViewId, Visibility>, k: nat, r: nat)
    requires r < k
    ensures Lookup(RowVisibilities(m, k), CategoryRow(r)) == Some(Visible)
  {
    if r < k - 1 {
      RowVisibilitiesShow(m, k - 1, r);
    }
  }

  lemma {:induction false} RowTextsKeep(m: map<ViewId, string>, rows: seq<RowContent>, k: nat, id: ViewId)
    requires k <= |rows|
    requires !((id.CategoryName? || id.CategoryPercent?) && id.rank < k)
    ensures Lookup(RowTexts(m, rows, k), id) == Lookup(m, id)
  {
    if k > 0 {
      RowTextsKeep(m, rows, k - 1, id);
    }
  }

  lemma {:induction false} RowTextsShow(m: map<ViewId, string>, rows: seq<RowContent>, k: nat, r: nat)
    requires r < k <= |rows|
    ensures Lookup(RowTexts(m, rows, k), CategoryName(r)) == Some(rows[r].name)
    ensures Lookup(RowTexts(m, rows, k), CategoryPercent(r)) == Some(rows[r].percentText)
  {
    if r < k - 1 {
      RowTextsShow(m, rows, k - 1, r);
    }
  }

  lemma {:induction false} RowIconsKeep(m: map<ViewId, ImageContent>, rows: seq<RowContent>, k: nat, id: ViewId)
    requires k <= |rows|
    requires !(id.CategoryIcon? && id.rank < k)
    ensures Lookup(RowIcons(m, rows, k), id) == Lookup(m, id)
  {
    if k > 0 {
      RowIconsKeep(m, rows, k - 1, id);
    }
  }

  lemma {:induction false} RowIconsShow(m: map<ViewId, ImageContent>, rows: seq<RowContent>, k: nat, r: nat)
    requires r < k <= |rows|
    ensures Lookup(RowIcons(m, rows, k), CategoryIcon(r)) == Some(rows[r].icon)
  {
    if r < k - 1 {
      RowIconsShow(m, rows, k - 1, r);
    }
  }

  lemma {:induction false} RowBarsKeep(m: map<ViewId, map<string, int>>, rows: seq<RowContent>, k: nat, id: ViewId)
    requires k <= |rows|
    requires !(id.CategoryColorBar? && id.rank < k)
    ensures IntsIn(RowBars(m, rows, k), id) == IntsIn(m, id)
  {
    if k > 0 {
      RowBarsKeep(m, rows, k - 1, id);
    }
  }

  lemma {:induction false} RowBarsShow(m: map<ViewId, map<string, int>>, rows: seq<RowContent>, k: nat, r: nat)
    requires r < k <= |rows|
    ensures BackgroundColorSetter in IntsIn(RowBars(m, rows, k), CategoryColorBar(r))
    ensures IntsIn(RowBars(m, rows, k), CategoryColorBar(r))[BackgroundColorSetter] == rows[r].barColor
  {
    if r < k - 1 {
      RowBarsShow(m, rows, k - 1, r);
    }
  }

  /** The first `k` passes of the category loop leave every view outside
      rows 0..k-1 as it was. */
  lemma RowsFilledUpToKeeps(views: ViewCommands, rows: seq<RowContent>, k: nat, id: ViewId)
    requires k <= |rows|
    requires !(IsRowView(id) && id.rank < k)
    ensures SameView(RowsFilledUpTo(views, rows, k), views, id)
  {
    RowVisibilitiesKeep(views.visibilities, k, id);
    RowTextsKeep(views.texts, rows, k, id);
    RowIconsKeep(views.images, rows, k, id);
    RowBarsKeep(views.ints, rows, k, id);
  }

  /** After the first `k` passes of the category loop, row r < k shows
      rows[r]. */
  lemma RowsFilledUpToShows(views: ViewCommands, rows: seq<RowContent>, k: nat, r: nat)
    requires r < k <= |rows|
    ensures ShowsRow(RowsFilledUpTo(views, rows, k), r, rows[r])
  {
    RowVisibilitiesShow(views.visibilities, k, r);
    RowTextsShow(views.texts, rows, k, r);
    RowIconsShow(views.images, rows, k, r);
    RowBarsShow(views.ints, rows, k, r);
  }

  function Categories(prefs: map<string, string>, tokenize: string -> Option<JValue>): seq<CategoryData> {
    TopCategories(PrefString(prefs, "top_categories", "[]"), tokenize)
  }

  function Actions(prefs: map<string, string>, tokenize: string -> Option<JValue>): seq<QuickActionData> {
    QuickActionRecords(PrefString(prefs, "widget_quick_actions", "[]"), tokenize)
  }

  /** Everything one refresh shows: the quick-action strip, the month (none
      without a snapshot), the filled-in rows (the others hidden), whether
      the content or the empty state is shown, the chart, and the tap on
      the widget's body. */
  datatype WidgetContent = WidgetContent(
    strip: StripContent,
    month: Option<string>,
    rows: seq<RowContent>,
    showsContent: bool,
    chart: Option<Bitmap>,
    rootClick: PendingIntent)

  /** What `updateAppWidget` shows for the saved snapshot `prefs`. */
  function WidgetContentOf(prefs: map<string, string>, appWidgetId: int, platform: Platform): (w: WidgetContent)
    ensures |w.rows| <= RowCount && |w.strip.slots| == SlotCount
  {
    var cats := Categories(prefs, platform.tokenize);
    var hasData := HasData(prefs);
    var content := hasData && |cats| > 0;
    WidgetContent(
      StripOf(platform, appWidgetId, Actions(prefs, platform.tokenize)),
      if hasData then Some(PrefString(prefs, "month_year", "--/----")) else None,
      if hasData then RowsOf(platform, cats) else [],
      content,
      if content then ChartImage(platform.density, FirstRows(cats), CategoryColors(FirstRows(cats))) else None,
      RootPendingIntent(appWidgetId))
  }

  /** The month label after it is set, if it is. */
  function MonthSet(views: ViewCommands, month: Option<string>): ViewCommands {
    if month.Some? then WithText(views, WidgetMonth, month.value) else views
  }

  /** The content container and the empty state after one is made VISIBLE
      and the other GONE. */
  function PanelsSet(views: ViewCommands, showsContent: bool): ViewCommands {
    var container := WithVisibility(views, ContentContainer, if showsContent then Visible else Gone);
    WithVisibility(container, EmptyState, if showsContent then Gone else Visible)
  }

  /** The commands that close a refresh: the chart, the panels and the tap
      on the widget's body. */
  function Finish(views: ViewCommands, w: WidgetContent): ViewCommands {
    WithClick(PanelsSet(ChartDrawn(views, w.chart), w.showsContent), WidgetRoot, w.rootClick)
  }

  /** The commands a refresh issues after the quick actions are bound: the
      month, the rows hidden, the rows filled in, then the closing
      commands. */
  function AfterStrip(bound: ViewCommands, w: WidgetContent): ViewCommands
    requires |w.rows| <= RowCount
  {
    var hidden := RowsHiddenUpTo(MonthSet(bound, w.month), RowCount);
    Finish(RowsFilledUpTo(hidden, w.rows, |w.rows|), w)
  }

  /** The code as written throws inside the take(3) loop, and so never
      reaches `appWidgetManager.updateAppWidget`, exactly when there is a
      snapshot and one of the first three categories has a name outside the
      colour table and a negative id that is not a multiple of 30. */
  predicate RefreshThrowsAsWritten(prefs: map<string, string>, platform: Platform) {
    var shown := FirstRows(Categories(prefs, platform.tokenize));
    HasData(prefs) && exists i :: 0 <= i < |shown| && ColorForCategoryAsWritten(shown[i].name, shown[i].categoryId).None?
  }

  /** Wherever the code as written does not throw, the colours the refresh
      shows are the ones its own lookup computes; the model departs from the
      code only on the snapshots `RefreshThrowsAsWritten` names. */
  lemma RefreshColorsAsWritten(prefs: map<string, string>, platform: Platform)
    requires !RefreshThrowsAsWritten(prefs, platform)
    ensures var shown := FirstRows(Categories(prefs, platform.tokenize));
      HasData(prefs) ==>
        forall i :: 0 <= i < |shown| ==>
          ColorForCategoryAsWritten(shown[i].name, shown[i].categoryId) == Some(CategoryColors(shown)[i])
  {
  }

  /** The commands one refresh issues to show `w`, in the order
      `updateAppWidget` issues them on each of its branches: the strip, the
      month, the rows hidden, the rows filled in, the chart, the panels and
      the tap on the body. */
  function RefreshCommands(w: WidgetContent): ViewCommands
    requires |w.rows| <= RowCount && |w.strip.slots| == SlotCount
  {
    AfterStrip(StripShown(NoCommands, w.strip), w)
  }

  /** `updateAppWidget`: reads the snapshot from the widget's preferences
      and builds the command set for widget `appWidgetId`. */
  method UpdateAppWidget(prefs: map<string, string>, appWidgetId: int, platform: Platform) returns (views: RemoteViews)
    ensures fresh(views)
    ensures views.commands == RefreshCommands(WidgetContentOf(prefs, appWidgetId, platform))
  {
    ghost var w := WidgetContentOf(prefs, appWidgetId, platform);
    views := new RemoteViews();
    var lastUpdate := if "last_update" in prefs then Some(prefs["last_update"]) else None;
    var quickActionsJson := PrefString(prefs, "widget_quick_actions", "[]");
    var quickActions := ParseQuickActions(quickActionsJson, platform.tokenize);
    BindQuickActions(views, platform, quickActions, appWidgetId);

    if lastUpdate.Some? && lastUpdate.value != "" {
      var monthYear := PrefString(prefs, "month_year", "--/----");
      var topCategoriesJson := PrefString(prefs, "top_categories", "[]");
      views.SetTextViewText(WidgetMonth, monthYear);
      HideCategoryRows(views);
      ghost var hidden := views.commands;
      var categories := ParseTopCategories(topCategoriesJson, platform.tokenize);
      if |categories| > 0 {
        var colors := BindCategoryRows(views, platform, categories);
        assert categories[..|colors|] == FirstRows(categories);
        if |colors| > 0 {
          DrawPieChart(views, platform, categories[..|colors|], colors);
        }
        views.SetViewVisibility(ContentContainer, Visible);
        views.SetViewVisibility(EmptyState, Gone);
      } else {
        assert RowsFilledUpTo(hidden, w.rows, |w.rows|) == hidden;
        views.SetViewVisibility(ContentContainer, Gone);
        views.SetViewVisibility(EmptyState, Visible);
      }
    } else {
      HideCategoryRows(views);
      assert RowsFilledUpTo(views.commands, w.rows, |w.rows|) == views.commands;
      views.SetViewVisibility(ContentContainer, Gone);
      views.SetViewVisibility(EmptyState, Visible);
    }

    views.SetOnClickPendingIntent(WidgetRoot, RootPendingIntent(appWidgetId));
  }

  /** No command has been issued for view `id`. */
  ghost predicate Untouched(now: ViewCommands, id: ViewId) {
    SameView(now, NoCommands, id)
  }

  /** Row `r` is GONE and none of its other views shows anything. */
  ghost predicate HiddenRow(now: ViewCommands, r: nat) {
    && VisibilityOf(now, CategoryRow(r)) == Some(Gone)
    && Untouched(now, CategoryName(r))
    && Untouched(now, CategoryPercent(r))
    && Untouched(now, CategoryIcon(r))
    && Untouched(now, CategoryColorBar(r))
  }

  /** The first |rows| rows show `rows` and the others are hidden. */
  ghost predicate RowsShown(now: ViewCommands, rows: seq<RowContent>) {
    && (forall r: nat :: r < |rows| ==> ShowsRow(now, r, rows[r]))
    && (forall r: nat :: |rows| <= r < RowCount ==> HiddenRow(now, r))
  }

  /** The content container and the empty state are one VISIBLE and the
      other GONE, and the chart view holds `chart` if there is one. */
  ghost predicate PanelsShown(now: ViewCommands, showsContent: bool, chart: Option<Bitmap>) {
    && VisibilityOf(now, ContentContainer) == Some(if showsContent then Visible else Gone)
    && VisibilityOf(now, EmptyState) == Some(if showsContent then Gone else Visible)
    && ImageOf(now, PieChartImage) == (if chart.Some? then Some(BitmapImage(chart.value)) else None)
  }

  /** A command set shows `w`. */
  ghost predicate Shows(now: ViewCommands, w: WidgetContent) {
    && ShowsStrip(now, w.strip)
    && TextOf(now, WidgetMonth) == w.month
    && RowsShown(now, w.rows)
    && PanelsShown(now, w.showsContent, w.chart)
    && ClickOf(now, WidgetRoot) == Some(w.rootClick)
  }

  /** The views the closing commands write. */
  predicate PanelView(id: ViewId) {
    id == PieChartImage || id == ContentContainer || id == EmptyState || id == WidgetRoot
  }

  /** The closing commands write no view but the chart, the panels and the
      widget's root. */
  lemma FinishKeeps(views: ViewCommands, w: WidgetContent, id: ViewId)
    requires !PanelView(id)
    ensures SameView(Finish(views, w), views, id)
  {
    var charted := ChartDrawn(views, w.chart);
    var container := WithVisibility(charted, ContentContainer, if w.showsContent then Visible else Gone);
    if w.chart.Some? {
      WithImageWritesOneView(views, PieChartImage, BitmapImage(w.chart.value), id);
    }
    WithVisibilityWritesOneView(charted, ContentContainer, if w.showsContent then Visible else Gone, id);
    WithVisibilityWritesOneView(container, EmptyState, if w.showsContent then Gone else Visible, id);
    WithClickWritesOneView(PanelsSet(charted, w.showsContent), WidgetRoot, w.rootClick, id);
  }

  /** The closing commands show the panels, the chart and the tap on the
      body over a command set where the chart view is untouched. */
  lemma FinishShows(views: ViewCommands, w: WidgetContent)
    requires ImageOf(views, PieChartImage).None?
    ensures PanelsShown(Finish(views, w), w.showsContent, w.chart)
    ensures ClickOf(Finish(views, w), WidgetRoot) == Some(w.rootClick)
  {
    var charted := ChartDrawn(views, w.chart);
    var container := WithVisibility(charted, ContentContainer, if w.showsContent then Visible else Gone);
    var panels := PanelsSet(charted, w.showsContent);
    WithVisibilityWritesOneView(container, EmptyState, if w.showsContent then Gone else Visible, ContentContainer);
    WithVisibilityWritesOneView(charted, ContentContainer, if w.showsContent then Visible else Gone, PieChartImage);
    WithVisibilityWritesOneView(container, EmptyState, if w.showsContent then Gone else Visible, PieChartImage);
    WithClickWritesOneView(panels, WidgetRoot, w.rootClick, PieChartImage);
    WithClickWritesOneView(panels, WidgetRoot, w.rootClick, ContentContainer);
    WithClickWritesOneView(panels, WidgetRoot, w.rootClick, EmptyState);
  }

  /** Two command sets say the same about row `r`'s views. */
  ghost predicate SameRow(a: ViewCommands, b: ViewCommands, r: nat) {
    && SameView(a, b, CategoryRow(r))
    && SameView(a, b, CategoryName(r))
    && SameView(a, b, CategoryPercent(r))
    && SameView(a, b, CategoryIcon(r))
    && SameView(a, b, CategoryColorBar(r))
  }

  lemma MonthSetKeeps(views: ViewCommands, month: Option<string>, id: ViewId)
    requires id != WidgetMonth
    ensures SameView(MonthSet(views, month), views, id)
  {
    if month.Some? {
      WithTextWritesOneView(views, WidgetMonth, month.value, id);
    }
  }

  /** Everything after the quick actions leaves the strip's views as
      `bindQuickActions` left them. */
  lemma AfterStripKeeps(bound: ViewCommands, w: WidgetContent, id: ViewId)
    requires |w.rows| <= RowCount
    requires !IsRowView(id) && !PanelView(id) && id != WidgetMonth
    ensures SameView(AfterStrip(bound, w), bound, id)
  {
    var dated := MonthSet(bound, w.month);
    var hidden := RowsHiddenUpTo(dated, RowCount);
    MonthSetKeeps(bound, w.month, id);
    RowsHiddenUpToKeeps(dated, RowCount, id);
    RowsFilledUpToKeeps(hidden, w.rows, |w.rows|, id);
    FinishKeeps(RowsFilledUpTo(hidden, w.rows, |w.rows|), w, id);
  }

  /** Every refresh shows the quick-action strip. */
  lemma RefreshShowsStrip(w: WidgetContent)
    requires |w.rows| <= RowCount && |w.strip.slots| == SlotCount
    ensures ShowsStrip(RefreshCommands(w), w.strip)
  {
    var bound := StripShown(NoCommands, w.strip);
    StripShownShows(NoCommands, w.strip);
    forall id | QuickActionView(id)
      ensures SameView(AfterStrip(bound, w), bound, id)
    {
      AfterStripKeeps(bound, w, id);
    }
    ShowsStripKept(bound, AfterStrip(bound, w), w.strip);
  }

  /** A row none of whose views holds anything is hidden and empty once
      `hideCategoryRows` has run. */
  lemma HideUntouchedRow(views: ViewCommands, r: nat)
    requires r < RowCount
    requires SameRow(views, NoCommands, r)
    ensures HiddenRow(RowsHiddenUpTo(views, RowCount), r)
  {
    RowsHiddenUpToHides(views, RowCount, r);
    RowsHiddenUpToKeeps(views, RowCount, CategoryName(r));
    RowsHiddenUpToKeeps(views, RowCount, CategoryPercent(r));
    RowsHiddenUpToKeeps(views, RowCount, CategoryIcon(r));
    RowsHiddenUpToKeeps(views, RowCount, CategoryColorBar(r));
  }

  /** The closing commands write none of the rows' views. */
  lemma FinishKeepsRow(views: ViewCommands, w: WidgetContent, r: nat)
    ensures SameRow(Finish(views, w), views, r)
  {
    FinishKeeps(views, w, CategoryRow(r));
    FinishKeeps(views, w, CategoryName(r));
    FinishKeeps(views, w, CategoryPercent(r));
    FinishKeeps(views, w, CategoryIcon(r));
    FinishKeeps(views, w, CategoryColorBar(r));
  }

  /** A row the refresh does not fill in, and whose views the strip left
      untouched, ends hidden and empty. */
  lemma AfterStripHidesRow(bound: ViewCommands, w: WidgetContent, r: nat)
    requires |w.rows| <= r < RowCount
    requires SameRow(bound, NoCommands, r)
    ensures HiddenRow(AfterStrip(bound, w), r)
  {
    var dated := MonthSet(bound, w.month);
    var hidden := RowsHiddenUpTo(dated, RowCount);
    var filled := RowsFilledUpTo(hidden, w.rows, |w.rows|);
    MonthSetKeeps(bound, w.month, CategoryRow(r));
    MonthSetKeeps(bound, w.month, CategoryName(r));
    MonthSetKeeps(bound, w.month, CategoryPercent(r));
    MonthSetKeeps(bound, w.month, CategoryIcon(r));
    MonthSetKeeps(bound, w.month, CategoryColorBar(r));
    HideUntouchedRow(dated, r);
    RowsFilledUpToKeeps(hidden, w.rows, |w.rows|, CategoryRow(r));
    RowsFilledUpToKeeps(hidden, w.rows, |w.rows|, CategoryName(r));
    RowsFilledUpToKeeps(hidden, w.rows, |w.rows|, CategoryPercent(r));
    RowsFilledUpToKeeps(hidden, w.rows, |w.rows|, CategoryIcon(r));
    RowsFilledUpToKeeps(hidden, w.rows, |w.rows|, CategoryColorBar(r));
    FinishKeepsRow(filled, w, r);
  }

  /** A row the refresh fills in shows its content. */
  lemma AfterStripShowsRow(bound: ViewCommands, w: WidgetContent, r: nat)
    requires r < |w.rows| <= RowCount
    ensures ShowsRow(AfterStrip(bound, w), r, w.rows[r])
  {
    var hidden := RowsHiddenUpTo(MonthSet(bound, w.month), RowCount);
    var filled := RowsFilledUpTo(hidden, w.rows, |w.rows|);
    RowsFilledUpToShows(hidden, w.rows, |w.rows|, r);
    FinishKeepsRow(filled, w, r);
  }

  /** After the strip, the month view holds the month if there is one, and
      the panels, the chart and the tap on the body are shown. */
  lemma AfterStripShowsMonthAndPanels(bound: ViewCommands, w: WidgetContent)
    requires |w.rows| <= RowCount
    requires Untouched(bound, WidgetMonth) && Untouched(bound, PieChartImage)
    ensures TextOf(AfterStrip(bound, w), WidgetMonth) == w.month
    ensures PanelsShown(AfterStrip(bound, w), w.showsContent, w.chart)
    ensures ClickOf(AfterStrip(bound, w), WidgetRoot) == Some(w.rootClick)
  {
    var dated := MonthSet(bound, w.month);
    var hidden := RowsHiddenUpTo(dated, RowCount);
    var filled := RowsFilledUpTo(hidden, w.rows, |w.rows|);
    MonthSetKeeps(bound, w.month, PieChartImage);
    RowsHiddenUpToKeeps(dated, RowCount, WidgetMonth);
    RowsHiddenUpToKeeps(dated, RowCount, PieChartImage);
    RowsFilledUpToKeeps(hidden, w.rows, |w.rows|, WidgetMonth);
    RowsFilledUpToKeeps(hidden, w.rows, |w.rows|, PieChartImage);
    FinishKeeps(filled, w, WidgetMonth);
    FinishShows(filled, w);
  }

  /** The strip writes none of the rows' views. */
  lemma StripLeavesRow(strip: StripContent, r: nat)
    requires |strip.slots| == SlotCount
    ensures SameRow(StripShown(NoCommands, strip), NoCommands, r)
  {
    StripShownKeeps(NoCommands, strip, CategoryRow(r));
    StripShownKeeps(NoCommands, strip, CategoryName(r));
    StripShownKeeps(NoCommands, strip, CategoryPercent(r));
    StripShownKeeps(NoCommands, strip, CategoryIcon(r));
    StripShownKeeps(NoCommands, strip, CategoryColorBar(r));
  }

  /** A refresh shows the rows it fills in and leaves the others hidden
      and empty. */
  lemma RefreshShowsRows(w: WidgetContent)
    requires |w.rows| <= RowCount && |w.strip.slots| == SlotCount
    ensures RowsShown(RefreshCommands(w), w.rows)
  {
    var bound := StripShown(NoCommands, w.strip);
    forall r: nat | r < |w.rows|
      ensures ShowsRow(RefreshCommands(w), r, w.rows[r])
    {
      AfterStripShowsRow(bound, w, r);
    }
    forall r: nat | |w.rows| <= r < RowCount
      ensures HiddenRow(RefreshCommands(w), r)
    {
      StripLeavesRow(w.strip, r);
      AfterStripHidesRow(bound, w, r);
    }
  }

  /** A refresh shows its month, if it has one, its panels, its chart and
      the tap on its body. */
  lemma RefreshShowsMonthAndPanels(w: WidgetContent)
    requires |w.rows| <= RowCount && |w.strip.slots| == SlotCount
    ensures TextOf(RefreshCommands(w), WidgetMonth) == w.month
    ensures PanelsShown(RefreshCommands(w), w.showsContent, w.chart)
    ensures ClickOf(RefreshCommands(w), WidgetRoot) == Some(w.rootClick)
  {
    StripShownKeeps(NoCommands, w.strip, WidgetMonth);
    StripShownKeeps(NoCommands, w.strip, PieChartImage);
    AfterStripShowsMonthAndPanels(StripShown(NoCommands, w.strip), w);
  }

  /** The command set of a refresh shows exactly its content: the strip,
      the month if any, the filled-in rows with the others hidden and
      empty, the panels, the chart and the tap on the body. */
  lemma RefreshShows(w: WidgetContent)
    requires |w.rows| <= RowCount && |w.strip.slots| == SlotCount
    ensures Shows(RefreshCommands(w), w)
  {
    RefreshShowsStrip(w);
    RefreshShowsRows(w);
    RefreshShowsMonthAndPanels(w);
  }

  /** Without a snapshot (`last_update` missing or empty) a refresh hides
      every row, shows the empty state instead of the content, leaves the
      month and the chart unset ... */
  lemma NoSnapshotLayout(prefs: map<string, string>, appWidgetId: int, platform: Platform)
    requires !HasData(prefs)
    ensures var now := RefreshCommands(WidgetContentOf(prefs, appWidgetId, platform));
      && (forall r: nat :: r < RowCount ==> HiddenRow(now, r))
      && VisibilityOf(now, ContentContainer) == Some(Gone)
      && VisibilityOf(now, EmptyState) == Some(Visible)
      && TextOf(now, WidgetMonth).None?
      && ImageOf(now, PieChartImage).None?
  {
    RefreshShows(WidgetContentOf(prefs, appWidgetId, platform));
  }

  /** With a snapshot a refresh sets the month (default "--/----"), and
      shows the content iff some category parsed, the empty state iff none
      did ... */
  lemma SnapshotPanels(prefs: map<string, string>, appWidgetId: int, platform: Platform)
    requires HasData(prefs)
    ensures var cats := Categories(prefs, platform.tokenize);
      var now := RefreshCommands(WidgetContentOf(prefs, appWidgetId, platform));
      && TextOf(now, WidgetMonth) == Some(PrefString(prefs, "month_year", "--/----"))
      && VisibilityOf(now, ContentContainer) == Some(if |cats| > 0 then Visible else Gone)
      && VisibilityOf(now, EmptyState) == Some(if |cats| > 0 then Gone else Visible)
  {
    RefreshShows(WidgetContentOf(prefs, appWidgetId, platform));
  }

  /** ... the first min(n, 3) of the n parsed categories fill rows that
      are VISIBLE with the category's name and its percent followed by
      "%", and the other rows stay hidden and empty ... */
  lemma SnapshotRows(prefs: map<string, string>, appWidgetId: int, platform: Platform)
    requires HasData(prefs)
    ensures var cats := Categories(prefs, platform.tokenize);
      var now := RefreshCommands(WidgetContentOf(prefs, appWidgetId, platform));
      && (forall r: nat :: r < Min(|cats|, RowCount) ==>
            && VisibilityOf(now, CategoryRow(r)) == Some(Visible)
            && TextOf(now, CategoryName(r)) == Some(cats[r].name)
            && TextOf(now, CategoryPercent(r)) == Some(cats[r].percent + "%"))
      && (forall r: nat :: Min(|cats|, RowCount) <= r < RowCount ==> HiddenRow(now, r))
  {
    var w := WidgetContentOf(prefs, appWidgetId, platform);
    RefreshShowsRows(w);
    RowsShowCategories(RefreshCommands(w), platform, Categories(prefs, platform.tokenize));
  }

  /** Command sets that show the rows of `cats` show each category's name
      and percent in its row. */
  lemma RowsShowCategories(now: ViewCommands, platform: Platform, cats: seq<CategoryData>)
    requires RowsShown(now, RowsOf(platform, cats))
    ensures forall r: nat :: r < Min(|cats|, RowCount) ==>
      && VisibilityOf(now, CategoryRow(r)) == Some(Visible)
      && TextOf(now, CategoryName(r)) == Some(cats[r].name)
      && TextOf(now, CategoryPercent(r)) == Some(cats[r].percent + "%")
    ensures forall r: nat :: Min(|cats|, RowCount) <= r < RowCount ==> HiddenRow(now, r)
  {
    var rows := RowsOf(platform, cats);
    forall r: nat | r < Min(|cats|, RowCount)
      ensures VisibilityOf(now, CategoryRow(r)) == Some(Visible)
      ensures TextOf(now, CategoryName(r)) == Some(cats[r].name)
      ensures TextOf(now, CategoryPercent(r)) == Some(cats[r].percent + "%")
    {
      assert ShowsRow(now, r, rows[r]);
    }
  }

  /** ... and on every branch the chart view holds the chart of the first
      three categories when there is content and one was drawn, and nothing
      otherwise. */
  lemma ChartShown(prefs: map<string, string>, appWidgetId: int, platform: Platform)
    ensures var cats := FirstRows(Categories(prefs, platform.tokenize));
      var chart := ChartImage(platform.density, cats, CategoryColors(cats));
      var now := RefreshCommands(WidgetContentOf(prefs, appWidgetId, platform));
      ImageOf(now, PieChartImage) ==
        if HasData(prefs) && |cats| > 0 && chart.Some? then Some(BitmapImage(chart.value)) else None
  {
    RefreshShows(WidgetContentOf(prefs, appWidgetId, platform));
  }

  /** On every branch the quick actions are bound, and a tap on the widget's
      body opens the Statistics tab. */
  lemma EveryRefreshBindsStripAndRoot(prefs: map<string, string>, appWidgetId: int, platform: Platform)
    ensures var now := RefreshCommands(WidgetContentOf(prefs, appWidgetId, platform));
      && ShowsStrip(now, StripOf(platform, appWidgetId, Actions(prefs, platform.tokenize)))
      && ClickOf(now, WidgetRoot).Some?
      && GetIntExtra(ClickOf(now, WidgetRoot).value.intent, "open_tab", 0) == StatisticsTab
  {
    RefreshShows(WidgetContentOf(prefs, appWidgetId, platform));
  }
}
