# Spending widget model

This project models the Android side of the Whales Spent expense tracker: the home-screen spending widget and the activity that receives its taps.

- **Reading the snapshot (`SpendingWidgetProvider`).** A refresh reads a snapshot of the month's spending that the Flutter app saved in the widget's shared preferences. The snapshot holds the month label, the top categories as a JSON array, and the configured quick actions as a JSON array.
- **Building the widget (`SpendingWidgetProvider`).** From the snapshot, the refresh builds a `RemoteViews` command set:
  - three category rows, each with a name, a percent, an icon and a colour bar;
  - a donut chart of the first three categories;
  - a content panel or an empty-state panel;
  - five quick-action slots with a hint line;
  - a tap on the widget's body that opens the Statistics tab.
- **`PieChartView`.** A custom view that keeps a list of sections and their total, and draws them as a donut.
- **`MainActivity`.** The app's Flutter activity:
  - it answers the widget method channel's two calls, "is a widget pinned" and "pin one";
  - it forwards an `open_tab` extra from its launch intent to Flutter.

## Modules

- `Json`: the parsed JSON value tree and Android's org.json getters on it. Strict getters fail where org.json throws; `opt*` getters fall back to their default.
- `SnapshotParser`: `parseTopCategories` and `parseQuickActions`, as loops over the parsed array. Each loop stops at the first entry that fails.
- `Colors`: ARGB colours, the 17-name colour table, the 30-colour palette and `applyAlpha`.
- `Views`: the widget's view ids and the `RemoteViews` class. Each `set*` method records the last value set for one property of one view.
- `QuickActions`: how the five slots resolve, the slots' pending intents, and `bindQuickActions`.
- `PieGeometry`: the sector layout both charts use. Sectors start at -90 degrees and sector i sweeps `value / total * 360`, computed over real numbers.
- `SpendingWidget`: `hideCategoryRows`, `bindCategoryRow`, `drawPieChart` and `updateAppWidget`. `RefreshCommands(w)` is the command set one refresh issues to show the content `w`. `WidgetContentOf` computes `w` from the preferences.
- `PieChart`: the `PieChartView` class.
- `Activity`:
  - the pin-request cascade and the method dispatch, as functions of the device's answers;
  - the `MainActivity` class, whose state is the current intent, the configured channel and the messages sent to Flutter.

## Model

| member | source | states |
|---|---|---|
| Colors.FromChannels | android/app/src/main/kotlin/com/example/app_qlct/SpendingWidgetProvider.kt:540 | `Color.argb(a, r, g, b)` gives a colour whose four channels read back as a, r, g and b |
| Colors.KotlinRem | android/app/src/main/kotlin/com/example/app_qlct/SpendingWidgetProvider.kt:524 | Kotlin's `%` lies strictly between -b and b and agrees with the Euclidean remainder for a non-negative dividend; for a negative dividend it is at most 0 and differs from the dividend by a multiple of b |
| Colors.GenerateColorFromIdAsWritten | android/app/src/main/kotlin/com/example/app_qlct/SpendingWidgetProvider.kt:510-525 | `palette[id % 30]` as written fails exactly when id is negative and not a multiple of 30; otherwise it is a palette colour, and for a non-negative id it is `palette[id % 30]` |
| Colors.ColorForCategoryAsWritten | android/app/src/main/kotlin/com/example/app_qlct/SpendingWidgetProvider.kt:486-508 | a name in the table gets its table colour whatever the id; any other name fails exactly when the id's remainder is negative |
| Colors.NegativeIdThrows | android/app/src/main/kotlin/com/example/app_qlct/SpendingWidgetProvider.kt:507-524 | a category "Quà tặng" (not in the table) with id -1 makes the lookup as written fail |
| Colors.GenerateColorFromId | android/app/src/main/kotlin/com/example/app_qlct/SpendingWidgetProvider.kt:510-525 | the corrected lookup always gives a palette colour, and the same one as the code wherever the code does not fail |
| Colors.ColorForCategory | android/app/src/main/kotlin/com/example/app_qlct/SpendingWidgetProvider.kt:486-508 | the table wins over the id; every other name gets a palette colour for every id; agrees with the code wherever the code does not fail |
| Colors.NextLap | android/app/src/main/kotlin/com/example/app_qlct/SpendingWidgetProvider.kt:524 | ids 30 apart get the same palette colour |
| Colors.PaletteRepeats | android/app/src/main/kotlin/com/example/app_qlct/SpendingWidgetProvider.kt:511-524 | the palette has 30 entries, and ids that differ by any multiple of 30 get the same colour |
| Colors.SameResidueSameColor | android/app/src/main/kotlin/com/example/app_qlct/SpendingWidgetProvider.kt:486-525 | the colour depends only on (name, id): two names outside the table whose ids agree modulo 30 get the same colour |
| Colors.TableNotInjective | android/app/src/main/kotlin/com/example/app_qlct/SpendingWidgetProvider.kt:487-505 | the table gives "Giải trí" and "Khác" the same colour, and "Di chuyển" and "Hóa đơn" the same colour |
| Colors.ApplyAlpha | android/app/src/main/kotlin/com/example/app_qlct/SpendingWidgetProvider.kt:535-541 | red, green and blue are kept; the new alpha is the old alpha times the factor, rounded down, so it never increases |
| SnapshotParser.DecodeCategory | android/app/src/main/kotlin/com/example/app_qlct/SpendingWidgetProvider.kt:158-171 | an entry decodes iff it is an object with a string-readable `name` and `percent` and a numeric `amount`; a decoded entry carries the `name`, `amount` and `percent` read, the `category_id` read with `optInt` (the entry's index when missing), the `icon` and `type` read with `optString`, and the `icon_image` and `formatted_amount` read; missing `type` gives "expense", missing `icon` gives "", and missing `icon_image` or `formatted_amount` gives null |
| SnapshotParser.DecodeQuickAction | android/app/src/main/kotlin/com/example/app_qlct/SpendingWidgetProvider.kt:185-203 | an entry decodes iff it is an object whose `amount`, when present and not null, is numeric. A decoded entry carries `slot`, `id`, label, type, shortcut type, `category_id`, category name, `icon`, `is_quick_add` and `icon_image` as read with their defaults, a non-null amount as the number read, and a non-null feature id as the text read. The defaults: `slot` and `id` are the index, the label is "Tác vụ", the type is "expense", the shortcut type is "category", `category_id` is -1, the category name is "", and `is_quick_add` is false. A blank `feature_id` becomes null, and the amount is null iff it is missing or JSON null |
| SnapshotParser.DecodedPrefixFrom | android/app/src/main/kotlin/com/example/app_qlct/SpendingWidgetProvider.kt:155-176 | decoding from entry `start` gives a run of entries that decode in order, and the run ends at the array's end or at an entry that fails |
| SnapshotParser.DecodedPrefixIsLongest | android/app/src/main/kotlin/com/example/app_qlct/SpendingWidgetProvider.kt:155-176 | the parsers' result is exactly the longest run of decodable entries from the start |
| SnapshotParser.FailureDropsRest | android/app/src/main/kotlin/com/example/app_qlct/SpendingWidgetProvider.kt:155-176 | when entry k is the first that fails, the result is entries 0..k-1: entry k and every later entry are dropped |
| SnapshotParser.ParseTopCategories | android/app/src/main/kotlin/com/example/app_qlct/SpendingWidgetProvider.kt:153-178 | "" and "[]" give an empty list without parsing; otherwise the loop returns the decoded run before the first failing entry, never an error |
| SnapshotParser.ParseQuickActions | android/app/src/main/kotlin/com/example/app_qlct/SpendingWidgetProvider.kt:180-210 | the same, for quick-action records |
| QuickActions.SlotTableCoversIndices | android/app/src/main/kotlin/com/example/app_qlct/SpendingWidgetProvider.kt:33-39 | the slot table lists indices 0..4 exactly once each, in order, each with its own three views |
| QuickActions.DecodeIconBitmap | android/app/src/main/kotlin/com/example/app_qlct/SpendingWidgetProvider.kt:475-484 | null or blank icon data gives no bitmap |
| QuickActions.IconImage | android/app/src/main/kotlin/com/example/app_qlct/SpendingWidgetProvider.kt:223-227 | an icon view shows the default category icon exactly when no bitmap decodes |
| QuickActions.SetIconImage | android/app/src/main/kotlin/com/example/app_qlct/SpendingWidgetProvider.kt:223-227 | the icon view gets the decoded bitmap, or else the default icon; no other view changes |
| QuickActions.FirstWithSlot | android/app/src/main/kotlin/com/example/app_qlct/SpendingWidgetProvider.kt:219 | `firstOrNull { it.slot == s }`: none iff no record claims s; otherwise the earliest record that claims s |
| QuickActions.ResolveSlot | android/app/src/main/kotlin/com/example/app_qlct/SpendingWidgetProvider.kt:219-220 | a claimed slot gets the first record that claims it; an unclaimed slot i gets the record at list position i when there is one; otherwise the slot is a placeholder, which happens iff no record claims it and the list is no longer than i |
| QuickActions.QuickActionPendingIntent | android/app/src/main/kotlin/com/example/app_qlct/SpendingWidgetProvider.kt:268-298 | request code `appWidgetId * 100 + slot`; the amount travels as `amount ?: 0.0`; `trigger_haptic` is true; the intent has no `open_tab` and no editor extra |
| QuickActions.ConfigPendingIntent | android/app/src/main/kotlin/com/example/app_qlct/SpendingWidgetProvider.kt:300-314 | request code `appWidgetId * 1000`; the only extra is `open_widget_quick_actions = true` |
| QuickActions.PayloadRoundTrip | android/app/src/main/kotlin/com/example/app_qlct/SpendingWidgetProvider.kt:273-289 | reading a quick-action launch back from its extras gives every field of the record, with a missing amount as 0.0 |
| QuickActions.ConfigIsNotQuickAction | android/app/src/main/kotlin/com/example/app_qlct/SpendingWidgetProvider.kt:300-306 | the editor intent never reads as a quick-action launch |
| QuickActions.RequestCodesDistinct | android/app/src/main/kotlin/com/example/app_qlct/SpendingWidgetProvider.kt:291-310 | for a widget id of 1 or more and records of slots 0..4: two records share a request code iff they claim the same slot, and none shares the editor's code or the root click's code |
| QuickActions.SlotContentOf | android/app/src/main/kotlin/com/example/app_qlct/SpendingWidgetProvider.kt:222-237 | a bound slot shows the record's icon and its upper-cased label, coloured #FFD54F iff quick-add and white otherwise, and binds that record's pending intent; an unbound slot is the placeholder |
| QuickActions.PlaceholderIff | android/app/src/main/kotlin/com/example/app_qlct/SpendingWidgetProvider.kt:218-266 | slot i shows "Thêm" in #9FB3FF with the default icon and opens the editor iff no record claims i and the list has at most i records |
| QuickActions.ClaimedSlotLaunchesItsRecord | android/app/src/main/kotlin/com/example/app_qlct/SpendingWidgetProvider.kt:219-235 | a slot claimed by some record binds the first such record's pending intent, with request code `appWidgetId * 100 + i`, whose extras read back as that record |
| QuickActions.SparseSlotsFallBackByPosition | android/app/src/main/kotlin/com/example/app_qlct/SpendingWidgetProvider.kt:218-238 | with two records claiming slots 1 and 3, slot 0 shows the slot-1 record, slots 1 and 3 show their own, and only slots 2 and 4 are placeholders |
| QuickActions.HintText | android/app/src/main/kotlin/com/example/app_qlct/SpendingWidgetProvider.kt:241-245 | the hint reads "Chạm để thêm tác vụ" iff there are no records |
| QuickActions.SetQuickActionPlaceholder | android/app/src/main/kotlin/com/example/app_qlct/SpendingWidgetProvider.kt:253-266 | the slot's three views show the placeholder content |
| QuickActions.BindSlot | android/app/src/main/kotlin/com/example/app_qlct/SpendingWidgetProvider.kt:219-238 | one pass of the slot loop shows the resolved content in that slot's views |
| QuickActions.StripOf | android/app/src/main/kotlin/com/example/app_qlct/SpendingWidgetProvider.kt:218-250 | the strip has exactly five slots, and slot i shows what i resolves to |
| Android.Registry | android/app/src/main/kotlin/com/example/app_qlct/SpendingWidgetProvider.kt:291-297 | after pending intents are built in order, each one's request code maps to extras; the last one built under a code is what that code delivers |
| Android.RegistryAgrees | android/app/src/main/kotlin/com/example/app_qlct/SpendingWidgetProvider.kt:291-312 | when no two pending intents built under one code carry different extras, every pending intent delivers its own extras |
| Android.LaterRegistrationWins | android/app/src/main/kotlin/com/example/app_qlct/SpendingWidgetProvider.kt:291-297 | a pending intent built later under the same code, and not replaced afterwards, decides what every earlier one with that code delivers |
| QuickActions.StripPendingIntents | android/app/src/main/kotlin/com/example/app_qlct/SpendingWidgetProvider.kt:218-250 | the pending intents one binding builds are the five slots' clicks in slot order, then the strip's editor click |
| QuickActions.DuplicateSlotDeliversLaterRecord | android/app/src/main/kotlin/com/example/app_qlct/SpendingWidgetProvider.kt:219-220 | with records [a, x, b], a and b claiming slot 1 and x a slot past the strip, slot 1 shows a and binds a's pending intent, slot 2 binds b's under the same code, and a tap on slot 1 delivers b's extras |
| QuickActions.DistinctSlotsDeliverTheirOwn | android/app/src/main/kotlin/com/example/app_qlct/SpendingWidgetProvider.kt:291-312 | for a widget id of 1 or more and records claiming distinct slots among 0..4, every slot delivers the extras of the pending intent it was bound to |
| QuickActions.BindQuickActions | android/app/src/main/kotlin/com/example/app_qlct/SpendingWidgetProvider.kt:212-251 | the five slots are bound in order, each exactly once, then the hint and the strip's click are set; the new command set is StripShown of the old one |
| QuickActions.ShowSlotShows | android/app/src/main/kotlin/com/example/app_qlct/SpendingWidgetProvider.kt:223-235 | after a slot is shown, its icon, caption, caption colour and click are the content's |
| QuickActions.ShowSlotKeeps | android/app/src/main/kotlin/com/example/app_qlct/SpendingWidgetProvider.kt:223-235 | showing a slot leaves every view outside that slot as it was |
| QuickActions.SlotsShownKeeps | android/app/src/main/kotlin/com/example/app_qlct/SpendingWidgetProvider.kt:218-239 | the first k passes of the slot loop leave every view outside slots 0..k-1 as it was |
| QuickActions.SlotsShownShows | android/app/src/main/kotlin/com/example/app_qlct/SpendingWidgetProvider.kt:218-239 | after the first k passes, each slot i < k still shows its own content; later passes do not overwrite it |
| QuickActions.StripShownShowsSlot | android/app/src/main/kotlin/com/example/app_qlct/SpendingWidgetProvider.kt:218-250 | after `bindQuickActions`, slot i shows the strip's i-th content |
| QuickActions.StripShownShows | android/app/src/main/kotlin/com/example/app_qlct/SpendingWidgetProvider.kt:212-251 | after `bindQuickActions`, all five slots, the hint and the strip's click show the strip |
| QuickActions.StripShownKeeps | android/app/src/main/kotlin/com/example/app_qlct/SpendingWidgetProvider.kt:212-251 | `bindQuickActions` writes no view outside the strip |
| QuickActions.ShowsStripKept | android/app/src/main/kotlin/com/example/app_qlct/SpendingWidgetProvider.kt:81-142 | commands that leave the strip's views alone leave the strip showing |
| Views.WithTextWritesOneView | android/app/src/main/kotlin/com/example/app_qlct/SpendingWidgetProvider.kt:89 | `setTextViewText` sets that view's text and leaves every other view as it was |
| Views.WithTextColorWritesOneView | android/app/src/main/kotlin/com/example/app_qlct/SpendingWidgetProvider.kt:231 | `setTextColor` sets that view's text colour and leaves every other view as it was |
| Views.WithVisibilityWritesOneView | android/app/src/main/kotlin/com/example/app_qlct/SpendingWidgetProvider.kt:448 | `setViewVisibility` sets that view's visibility and leaves every other view as it was |
| Views.WithImageWritesOneView | android/app/src/main/kotlin/com/example/app_qlct/SpendingWidgetProvider.kt:225-227 | `setImageViewBitmap` and `setImageViewResource` set that view's image and leave every other view as it was |
| Views.WithClickWritesOneView | android/app/src/main/kotlin/com/example/app_qlct/SpendingWidgetProvider.kt:142 | `setOnClickPendingIntent` sets that view's click and leaves every other view as it was |
| Views.WithIntWritesOneView | android/app/src/main/kotlin/com/example/app_qlct/SpendingWidgetProvider.kt:459 | `setInt` records the value under that method name for that view, keeps the view's other `setInt` calls, and leaves every other view as it was |
| Views.RemoteViews.constructor | android/app/src/main/kotlin/com/example/app_qlct/SpendingWidgetProvider.kt:71 | a freshly inflated layout has no commands |
| Views.RemoteViews.SetTextViewText | android/app/src/main/kotlin/com/example/app_qlct/SpendingWidgetProvider.kt:89 | the command set gains that text for that view |
| Views.RemoteViews.SetTextColor | android/app/src/main/kotlin/com/example/app_qlct/SpendingWidgetProvider.kt:231 | the command set gains that text colour for that view |
| Views.RemoteViews.SetViewVisibility | android/app/src/main/kotlin/com/example/app_qlct/SpendingWidgetProvider.kt:115-116 | the command set gains that visibility for that view |
| Views.RemoteViews.SetImageViewBitmap | android/app/src/main/kotlin/com/example/app_qlct/SpendingWidgetProvider.kt:225 | the view shows that bitmap |
| Views.RemoteViews.SetImageViewResource | android/app/src/main/kotlin/com/example/app_qlct/SpendingWidgetProvider.kt:227 | the view shows the default category icon |
| Views.RemoteViews.SetOnClickPendingIntent | android/app/src/main/kotlin/com/example/app_qlct/SpendingWidgetProvider.kt:142 | the command set gains that click for that view |
| Views.RemoteViews.SetInt | android/app/src/main/kotlin/com/example/app_qlct/SpendingWidgetProvider.kt:459 | the command set gains that `setInt` call for that view |
| PieGeometry.SweepLayout | android/app/src/main/kotlin/com/example/app_qlct/SpendingWidgetProvider.kt:345-371 | one sector per value |
| PieGeometry.StartStep | android/app/src/main/kotlin/com/example/app_qlct/SpendingWidgetProvider.kt:370 | each sector starts where the one before it ended: `startAngle += sweepAngle` |
| PieGeometry.LayoutIsContiguous | android/app/src/main/kotlin/com/example/app_qlct/SpendingWidgetProvider.kt:345-371 | the first sector starts at -90 degrees; each later sector starts at the previous start plus the previous sweep; the last ends at the share of all values; sector i sweeps `value / total * 360` in `palette[i % size]` |
| PieGeometry.ScaledSum | android/app/src/main/kotlin/com/example/app_qlct/SpendingWidgetProvider.kt:349 | the sweeps add up to `Sum(values) / total * 360` |
| PieGeometry.LayoutCoversCircle | android/app/src/main/kotlin/com/example/app_qlct/SpendingWidgetProvider.kt:340-371 | when the total is the sum of the values, the sweeps add up to 360 and the last sector ends at 270 degrees |
| PieGeometry.SweepsWithinCircle | android/app/src/main/kotlin/com/example/app_qlct/SpendingWidgetProvider.kt:340-371 | with non-negative values and a positive total, every sweep lies between 0 and 360 degrees |
| SpendingWidget.RootPendingIntent | android/app/src/main/kotlin/com/example/app_qlct/SpendingWidgetProvider.kt:129-142 | request code `appWidgetId`; `open_tab` is 3 (Statistics); not a quick-action launch |
| SpendingWidget.HideCategoryRows | android/app/src/main/kotlin/com/example/app_qlct/SpendingWidgetProvider.kt:463-473 | the three rows are set GONE, in order |
| SpendingWidget.RowsHiddenUpToHides | android/app/src/main/kotlin/com/example/app_qlct/SpendingWidgetProvider.kt:463-473 | every row below the bound is GONE afterwards |
| SpendingWidget.RowsHiddenUpToKeeps | android/app/src/main/kotlin/com/example/app_qlct/SpendingWidgetProvider.kt:463-473 | every other view is left as it was |
| SpendingWidget.CategoryColors | android/app/src/main/kotlin/com/example/app_qlct/SpendingWidgetProvider.kt:96-101 | one colour per category, in order, each the category's own colour |
| SpendingWidget.RowOf | android/app/src/main/kotlin/com/example/app_qlct/SpendingWidgetProvider.kt:445-459 | the row shows the category's name and `percent + "%"`, the default icon iff none decodes, and a bar with the colour's red, green and blue and an alpha no higher than the colour's: exactly `applyAlpha(color, 0.7f)` |
| SpendingWidget.BindCategoryRow | android/app/src/main/kotlin/com/example/app_qlct/SpendingWidgetProvider.kt:418-461 | rows 0..2 are filled in (made visible, name, percent, icon, bar colour); any other index changes nothing |
| SpendingWidget.ShowRowShows | android/app/src/main/kotlin/com/example/app_qlct/SpendingWidgetProvider.kt:445-460 | after a row is filled in, it is VISIBLE and its four views show the row's content |
| SpendingWidget.ShowRowKeeps | android/app/src/main/kotlin/com/example/app_qlct/SpendingWidgetProvider.kt:445-460 | filling in row r leaves every view outside row r as it was |
| SpendingWidget.SweepArcs | android/app/src/main/kotlin/com/example/app_qlct/SpendingWidgetProvider.kt:345-371 | the sector loop builds exactly the sector layout |
| SpendingWidget.DrawPieChart | android/app/src/main/kotlin/com/example/app_qlct/SpendingWidgetProvider.kt:316-416 | the chart view gets ChartImage when there is one; otherwise nothing changes |
| SpendingWidget.ChartCoversCircle | android/app/src/main/kotlin/com/example/app_qlct/SpendingWidgetProvider.kt:340-371 | with at most 3 categories and a positive total, there is one sector per category, starting at -90 degrees, contiguous, sweeping 360 degrees in all and ending at 270; category i is drawn in `colors[i % size]` |
| SpendingWidget.ChartSweepsWithinCircle | android/app/src/main/kotlin/com/example/app_qlct/SpendingWidgetProvider.kt:340-371 | with non-negative amounts, every sweep lies between 0 and 360 degrees |
| SpendingWidget.NothingSpentBlankChart | android/app/src/main/kotlin/com/example/app_qlct/SpendingWidgetProvider.kt:340-344 | a total of zero or less gives a blank bitmap and no sectors |
| SpendingWidget.RowsOf | android/app/src/main/kotlin/com/example/app_qlct/SpendingWidgetProvider.kt:98-101 | `take(3)`: min(n, 3) rows, row r being category r drawn in its own colour |
| SpendingWidget.BindCategoryRows | android/app/src/main/kotlin/com/example/app_qlct/SpendingWidgetProvider.kt:96-102 | the colours collected are those of the first three categories, and rows 0..min(n,3)-1 are filled in |
| SpendingWidget.RowsFilledUpToKeeps | android/app/src/main/kotlin/com/example/app_qlct/SpendingWidgetProvider.kt:98-102 | filling the first k rows leaves every view outside them as it was |
| SpendingWidget.RowsFilledUpToShows | android/app/src/main/kotlin/com/example/app_qlct/SpendingWidgetProvider.kt:98-102 | after the first k rows are filled, each row r < k shows its content |
| SpendingWidget.WidgetContentOf | android/app/src/main/kotlin/com/example/app_qlct/SpendingWidgetProvider.kt:63-142 | at most 3 rows and exactly 5 slots |
| SpendingWidget.UpdateAppWidget | android/app/src/main/kotlin/com/example/app_qlct/SpendingWidgetProvider.kt:63-151 | on each of the three branches, the commands issued are RefreshCommands of the snapshot's content, in the source's order |
| SpendingWidget.RefreshColorsAsWritten | android/app/src/main/kotlin/com/example/app_qlct/SpendingWidgetProvider.kt:96-100 | wherever the code as written does not throw, every shown category's colour is the one its own `getColorForCategory` computes |
| SpendingWidget.FinishKeeps | android/app/src/main/kotlin/com/example/app_qlct/SpendingWidgetProvider.kt:104-142 | the closing commands (chart, panels, root click) leave every other view as it was |
| SpendingWidget.FinishShows | android/app/src/main/kotlin/com/example/app_qlct/SpendingWidgetProvider.kt:104-142 | after the closing commands, the panels and the chart show the content, and the root click is set |
| SpendingWidget.MonthSetKeeps | android/app/src/main/kotlin/com/example/app_qlct/SpendingWidgetProvider.kt:89 | setting the month leaves every other view as it was |
| SpendingWidget.AfterStripKeeps | android/app/src/main/kotlin/com/example/app_qlct/SpendingWidgetProvider.kt:83-142 | what follows `bindQuickActions` writes only the month, the rows, the panels, the chart and the root |
| SpendingWidget.RefreshShowsStrip | android/app/src/main/kotlin/com/example/app_qlct/SpendingWidgetProvider.kt:79-142 | at the end of a refresh, the quick-action strip still shows what `bindQuickActions` bound |
| SpendingWidget.HideUntouchedRow | android/app/src/main/kotlin/com/example/app_qlct/SpendingWidgetProvider.kt:463-473 | hiding a row that nothing has touched leaves it GONE, with its other views empty |
| SpendingWidget.FinishKeepsRow | android/app/src/main/kotlin/com/example/app_qlct/SpendingWidgetProvider.kt:104-142 | the closing commands leave every row as it was |
| SpendingWidget.AfterStripHidesRow | android/app/src/main/kotlin/com/example/app_qlct/SpendingWidgetProvider.kt:83-126 | rows with no category end GONE and empty |
| SpendingWidget.AfterStripShowsRow | android/app/src/main/kotlin/com/example/app_qlct/SpendingWidgetProvider.kt:91-102 | rows with a category end filled in with it |
| SpendingWidget.AfterStripShowsMonthAndPanels | android/app/src/main/kotlin/com/example/app_qlct/SpendingWidgetProvider.kt:83-142 | the month, the panels, the chart and the root click end as the content says |
| SpendingWidget.StripLeavesRow | android/app/src/main/kotlin/com/example/app_qlct/SpendingWidgetProvider.kt:81 | `bindQuickActions` touches no category row |
| SpendingWidget.RefreshShowsRows | android/app/src/main/kotlin/com/example/app_qlct/SpendingWidgetProvider.kt:83-126 | at the end of a refresh, the first rows show their categories and the others are GONE and empty |
| SpendingWidget.RefreshShowsMonthAndPanels | android/app/src/main/kotlin/com/example/app_qlct/SpendingWidgetProvider.kt:83-142 | at the end of a refresh, the month, the panels, the chart and the root click are as the content says |
| SpendingWidget.RefreshShows | android/app/src/main/kotlin/com/example/app_qlct/SpendingWidgetProvider.kt:63-142 | a refresh shows all of its content: the strip, the rows, the month, the panels, the chart and the root click |
| SpendingWidget.NoSnapshotLayout | android/app/src/main/kotlin/com/example/app_qlct/SpendingWidgetProvider.kt:121-126 | with `last_update` missing or empty: every row is hidden, the content is GONE, the empty state is VISIBLE, and neither the month nor the chart is set |
| SpendingWidget.SnapshotPanels | android/app/src/main/kotlin/com/example/app_qlct/SpendingWidgetProvider.kt:83-120 | with a snapshot, the month shows `month_year` (default "--/----"); the content is VISIBLE and the empty state GONE iff some category parsed, and the reverse when none did |
| SpendingWidget.SnapshotRows | android/app/src/main/kotlin/com/example/app_qlct/SpendingWidgetProvider.kt:91-102 | with a snapshot of n categories, rows 0..min(n,3)-1 are VISIBLE with the name and the percent followed by "%", and the other rows are GONE and empty |
| SpendingWidget.RowsShowCategories | android/app/src/main/kotlin/com/example/app_qlct/SpendingWidgetProvider.kt:445-450 | rows that show the categories' row content show each category's name and percent |
| SpendingWidget.ChartShown | android/app/src/main/kotlin/com/example/app_qlct/SpendingWidgetProvider.kt:95-113 | the chart view holds the chart of the first three categories iff there is a snapshot, some category and a drawable chart; otherwise it is unset |
| SpendingWidget.EveryRefreshBindsStripAndRoot | android/app/src/main/kotlin/com/example/app_qlct/SpendingWidgetProvider.kt:79-142 | on every branch the quick actions are bound, and the root click opens tab 3 |
| PieChart.PieChartView.constructor | android/app/src/main/kotlin/com/example/app_qlct/PieChartView.kt:24-25 | a new view has no sections and a total of 0, which satisfies the invariant |
| PieChart.PieChartView.SetData | android/app/src/main/kotlin/com/example/app_qlct/PieChartView.kt:37-41 | the sections are replaced and the total becomes the sum of their values, so `total == sum(values)` holds |
| PieChart.PieChartView.OnDraw | android/app/src/main/kotlin/com/example/app_qlct/PieChartView.kt:43-79 | for a view whose total is its sections' sum, it draws exactly ViewDrawing of the view's state; when it draws sectors, they sweep 360 degrees in all and end back at 12 o'clock |
| PieChart.SweepSections | android/app/src/main/kotlin/com/example/app_qlct/PieChartView.kt:62-73 | the sector loop produces exactly the layout in which section i sweeps `value / total * 360` in `colors[i % 6]`, starting where section i-1 ended |
| PieChart.DrawingCoversCircle | android/app/src/main/kotlin/com/example/app_qlct/PieChartView.kt:62-73 | when the total is the sections' sum, any sectors the view draws sweep 360 degrees and end at 270 |
| PieChart.DrawsNothingIff | android/app/src/main/kotlin/com/example/app_qlct/PieChartView.kt:43-79 | nothing is drawn iff there are no sections or the total is 0; otherwise one sector per section, a radius of min(w,h)/2 - 20, and a hole of half the radius |
| PieChart.ViewCoversCircle | android/app/src/main/kotlin/com/example/app_qlct/PieChartView.kt:62-73 | after `setData`, the sectors of all the sections (with no cap of 3) start at -90 degrees, are contiguous, sweep 360 degrees and end at 270; section i is drawn in `colors[i % 6]` |
| PieChart.SectionColorIgnored | android/app/src/main/kotlin/com/example/app_qlct/PieChartView.kt:64-85 | the drawing depends only on the sections' values: their labels and their own `color` are ignored |
| Activity.HasPinnedWidgetIff | android/app/src/main/kotlin/com/example/app_qlct/MainActivity.kt:59-64 | a widget is pinned iff there is a manager and its id array is non-null and non-empty |
| Activity.OldSdkUnsupported | android/app/src/main/kotlin/com/example/app_qlct/MainActivity.kt:67-70 | below SDK 26 the reply is the "unsupported" error whatever else holds, and no pin is requested |
| Activity.PinCascade | android/app/src/main/kotlin/com/example/app_qlct/MainActivity.kt:72-91 | from SDK 26 on: no manager gives "manager_null"; a pinned widget gives success(true) without a request; no pin support gives success(false); otherwise the reply is the launcher's answer. A pin is requested iff that last case holds |
| Activity.PinRepliesOnce | android/app/src/main/kotlin/com/example/app_qlct/MainActivity.kt:66-92 | every call ends in exactly one reply, a success or an error, and it is an error iff the SDK is below 26 or there is no manager |
| Activity.DispatchKnowsTwoMethods | android/app/src/main/kotlin/com/example/app_qlct/MainActivity.kt:19-25 | the handler answers notImplemented iff the method is neither "requestPinWidget" nor "hasPinnedWidget"; "hasPinnedWidget" gets success(hasPinnedWidget) |
| Activity.OpenTabMessages | android/app/src/main/kotlin/com/example/app_qlct/MainActivity.kt:42-57 | at most one message, and only when the intent has `open_tab` |
| Activity.MainActivity.constructor | android/app/src/main/kotlin/com/example/app_qlct/MainActivity.kt:13 | a new activity has its launch intent, no channel and nothing sent |
| Activity.MainActivity.ConfigureFlutterEngine | android/app/src/main/kotlin/com/example/app_qlct/MainActivity.kt:15-27 | the engine is attached and the channel is set; nothing is sent |
| Activity.MainActivity.HandleWidgetIntent | android/app/src/main/kotlin/com/example/app_qlct/MainActivity.kt:42-57 | exactly OpenTabMessages of the current state is appended to what was sent |
| Activity.MainActivity.OnCreate | android/app/src/main/kotlin/com/example/app_qlct/MainActivity.kt:29-34 | the launch intent is handled |
| Activity.MainActivity.OnNewIntent | android/app/src/main/kotlin/com/example/app_qlct/MainActivity.kt:36-40 | the new intent becomes current and is handled |
| Activity.RootClickOpensStatistics | android/app/src/main/kotlin/com/example/app_qlct/MainActivity.kt:42-57 | a tap on the widget's body sends exactly one "openTab" with 3 on the configured channel |
| Activity.OtherTapsOpenNoTab | android/app/src/main/kotlin/com/example/app_qlct/MainActivity.kt:42-57 | quick-action and editor taps send no "openTab" |
| Activity.OpenTabArgument | android/app/src/main/kotlin/com/example/app_qlct/MainActivity.kt:43-53 | with the extra and a channel or an engine, exactly one "openTab" is sent, carrying the extra's Int or else 0, on the configured channel iff one is set |

## Left out

- **JSON text and numbers.**
  - org.json's tokenizer is an input, `Platform.tokenize`; malformed text is `None`.
  - `getString` on a nested array or object, which org.json would serialise to JSON text, is treated as a failure.
  - The numeric strings accepted are decimals: a sign, digits, an optional fraction and surrounding blanks. Exponents, hexadecimal, NaN and Infinity are not.
- **32-bit integers.**
  - `optInt` of a number is Java's truncation without the 32-bit clamp.
  - The request codes `appWidgetId * 100 + slot` and `appWidgetId * 1000` are not wrapped at 32 bits.
  - Colours are unsigned ARGB values; Kotlin holds the same bits in a signed Int.
- **Floating point.**
  - Sweep angles, totals and amounts are real numbers, so Float and Double rounding is not modelled.
  - `applyAlpha`'s `* 0.7f` is the exact product rounded down.
- **Rasterisation.** Canvas drawing is left out: arcs, gradients, circles, the rim stroke, text layout of the centre label, anti-aliasing and bitmap pixels. A chart is its drawing description: sectors, radius, hole radius, hole colour and label.
- **Icons and locale.** Base64 and BitmapFactory decoding is the oracle `Platform.decodeIcon`. `uppercase(Locale.getDefault())` is `Platform.uppercase`.
- **Preferences.** Preferences are a map of strings. A preference stored with a non-string type, which would throw in `getString` and abort the whole refresh, is not modelled.
- **Provider lifecycle.** `onUpdate`'s loop over widget ids, `onReceive`, `appWidgetManager.updateAppWidget`, logging and the final catch of `updateAppWidget` are left out. The model's refresh returns the command set it would hand to the manager.
- **Unused values.** `formatAmountFallback` is never called. `total_expense_formatted` and `total_expense_label` are read and passed to `drawPieChart`, which never uses them.
- **Colour fallback.** In `drawPieChart`, the colour fallback of `colors.getOrNull(index % colors.size)` cannot be reached once `colors` is non-empty. With an empty list, `index % 0` throws and the exception is caught, so the chart view is left unset (`ChartImage` is `None`).
- **RemoteViews.** Only the last value of each property set on each view is kept. The order of calls on different views, and the layout's own defaults, are not recorded.
- **setInt.** `setInt` is modelled for the colour bars' `setBackgroundColor` calls, the only ones the provider makes.
- **Helper methods.** Five methods slice one source function each into its own piece:
  - `SpendingWidget.SweepArcs` is the sector loop of `drawPieChart`.
  - `SpendingWidget.BindCategoryRows` is the `take(3)` loop of `updateAppWidget`.
  - `QuickActions.BindSlot` is one pass of the slot loop of `bindQuickActions`.
  - `PieChart.SweepSections` is the sector loop of `PieChartView.onDraw`.
  - `QuickActions.SetIconImage` is the icon branch shared by `bindQuickActions` and `bindCategoryRow`.
- **Activity plumbing.**
  - MethodChannel transport, `super.configureFlutterEngine` and `setIntent`'s platform side are left out.
  - During `super.onCreate`, FlutterActivity attaches its engine and calls `configureFlutterEngine`. That framework call is not modelled: `OnCreate` handles the intent in whatever channel state the activity is in, and a caller runs `ConfigureFlutterEngine` first to get the platform's order.
- SpendingWidget.UpdateAppWidget: follows the corrected colour lookup. On a snapshot where `SpendingWidget.RefreshThrowsAsWritten` holds, the code as written throws in the `take(3)` loop. The catch then swallows the exception, so the widget keeps its old display, while the model issues a full command set. `SpendingWidget.RefreshColorsAsWritten` shows that the two agree on every other snapshot.
- QuickActions.SlotContentOf, QuickActions.ClaimedSlotLaunchesItsRecord: these state which pending intent a slot is bound to, not what a tap delivers. The platform identifies a PendingIntent by its request code, since every intent the widget builds has the same component, action and category. With FLAG_UPDATE_CURRENT, the last one built under a code wins. Only one widget's strip is modelled, through `Android.Registry`. Within that strip, `QuickActions.DuplicateSlotDeliversLaterRecord` shows two records claiming one slot aliasing each other. `QuickActions.DistinctSlotsDeliverTheirOwn` shows no aliasing when the records claim distinct slots among 0..4. Collisions across the pending intents of all widgets are not modelled. For example, widget 10's slot 0 and widget 1's editor both use code 1000. So is a record slot past the strip whose code meets the editor's (widget 1, slot 900).
- **Intents.** An intent is its extras. Its action, category, flags and target component are the same for every intent the widget builds, and are dropped.

## Notes on the code's behaviour

- **Parsing.** The `try` in each parser wraps the whole loop. An entry that fails to decode is dropped, and so is every entry after it (`SnapshotParser.FailureDropsRest`).
- **Sparse slots.** Take records that claim only slots 1 and 3. Slot 0 falls back to list position 0 and shows the slot-1 record. Slots 2 and 4 are placeholders (`QuickActions.SparseSlotsFallBackByPosition`).

## Findings

| source | as written | input that shows it | evidently intended | confidence | as-written member | corrected member |
|---|---|---|---|---|---|---|
| android/app/src/main/kotlin/com/example/app_qlct/SpendingWidgetProvider.kt:524 | `palette[id % palette.size]` with Kotlin's truncated `%`: a negative id that is not a multiple of 30 gives a negative index, which throws IndexOutOfBoundsException. The exception escapes `getColorForCategory` and is caught in `updateAppWidget`, so that widget is never updated | a top category named "Quà tặng" (not in the colour table) with `category_id` -1 | a palette colour for every id, using a non-negative remainder (`Math.floorMod` or `mod`) | not executed | Colors.NegativeIdThrows (on Colors.ColorForCategoryAsWritten) | Colors.ColorForCategory |
