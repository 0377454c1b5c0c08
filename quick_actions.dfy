/** The five quick-action slots under the chart
    (SpendingWidgetProvider.bindQuickActions, setQuickActionPlaceholder,
    createQuickActionPendingIntent, createWidgetConfigPendingIntent). Slot i
    shows the first record whose `slot` is i, else the record at list
    position i, else an "add" placeholder that opens the quick-action
    editor. */
module QuickActions {
  import opened Wrappers
  import opened Json
  import opened Colors
  import opened Android
  import opened Views
  import opened SnapshotParser

  /** The views of one slot and the slot index it stands for. */
  datatype QuickActionSlot = QuickActionSlot(containerId: ViewId, iconId: ViewId, labelId: ViewId, index: nat)

  const SlotCount: nat := 5

  const QuickActionSlots: seq<QuickActionSlot> := [
    QuickActionSlot(SlotContainer(0), SlotIcon(0), SlotLabel(0), 0),
    QuickActionSlot(SlotContainer(1), SlotIcon(1), SlotLabel(1), 1),
    QuickActionSlot(SlotContainer(2), SlotIcon(2), SlotLabel(2), 2),
    QuickActionSlot(SlotContainer(3), SlotIcon(3), SlotLabel(3), 3),
    QuickActionSlot(SlotContainer(4), SlotIcon(4), SlotLabel(4), 4)
  ]

  /** The slot table lists indices 0..4 once each, in order, each with its
      own views. */
  lemma SlotTableCoversIndices()
    ensures |QuickActionSlots| == SlotCount
    ensures forall k :: 0 <= k < |QuickActionSlots| ==>
      QuickActionSlots[k] == QuickActionSlot(SlotContainer(k), SlotIcon(k), SlotLabel(k), k)
  {
  }

  /** #FFD54F, the label colour of a quick-add action. */
  const QuickAddColor: Argb := 0xFFFF_D54F
  /** #9FB3FF, the label colour of a placeholder. */
  const PlaceholderColor: Argb := 0xFF9F_B3FF
  const PlaceholderCaption: string := "Thêm"

  /** `decodeIconBitmap`: null or blank data gives no bitmap without asking
      the decoder; otherwise the decoder's answer (a decoding failure is
      caught and gives none). */
  function DecodeIconBitmap(platform: Platform, data: Option<string>): (r: Option<Bitmap>)
    ensures data.None? || IsBlank(data.value) ==> r.None?
  {
    if data.None? || IsBlank(data.value) then None else platform.decodeIcon(data.value)
  }

  /** The icon an ImageView gets: the decoded bitmap, else the default
      category icon. */
  function IconImage(platform: Platform, data: Option<string>): (r: ImageContent)
    ensures r == DefaultCategoryIcon <==> DecodeIconBitmap(platform, data).None?
  {
    match DecodeIconBitmap(platform, data)
    case Some(b) => BitmapImage(b)
    case None => DefaultCategoryIcon
  }

  /** The decoded bitmap if there is one, else the default category icon
      resource: the icon idiom shared by slots and category rows. */
  method SetIconImage(views: RemoteViews, id: ViewId, platform: Platform, data: Option<string>)
    modifies views
    ensures views.commands == WithImage(old(views.commands), id, IconImage(platform, data))
  {
    var bitmap := DecodeIconBitmap(platform, data);
    if bitmap.Some? {
      views.SetImageViewBitmap(id, bitmap.value);
    } else {
      views.SetImageViewResource(id);
    }
  }

  /** `list.firstOrNull { it.slot == slot }`. */
  function FirstWithSlot(actions: seq<QuickActionData>, slot: int): (r: Option<QuickActionData>)
    ensures r.None? <==> forall a :: a in actions ==> a.slot != slot
    ensures r.Some? ==> exists k :: 0 <= k < |actions| && actions[k] == r.value && r.value.slot == slot &&
                          forall j :: 0 <= j < k ==> actions[j].slot != slot
  {
    if actions == [] then None
    else if actions[0].slot == slot then Some(actions[0])
    else
      var r := FirstWithSlot(actions[1..], slot);
      assert forall a :: a in actions[1..] ==> a in actions;
      assert r.Some? ==> exists k :: 0 <= k < |actions[1..]| && actions[1..][k] == r.value && r.value.slot == slot &&
                          forall j :: 0 <= j < k ==> actions[1..][j].slot != slot;
      r
  }

  /** The record slot `index` shows, or None for a placeholder. */
  function ResolveSlot(actions: seq<QuickActionData>, index: nat): (r: Option<QuickActionData>)
    ensures r.None? <==> (forall a :: a in actions ==> a.slot != index) && |actions| <= index
    ensures (exists a :: a in actions && a.slot == index) ==> r.Some? && r.value.slot == index
    ensures r.Some? ==> r.value in actions
    ensures FirstWithSlot(actions, index).Some? ==> r == FirstWithSlot(actions, index)
    ensures FirstWithSlot(actions, index).None? && index < |actions| ==> r == Some(actions[index])
  {
    match FirstWithSlot(actions, index)
    case Some(a) => Some(a)
    case None => if index < |actions| then Some(actions[index]) else None
  }

  /** The extras of a quick-action launch. */
  function QuickActionIntent(action: QuickActionData): Intent {
    Intent(map[
      "open_quick_action" := BoolExtra(true),
      "quick_action_type" := StringExtra(Some(action.kind)),
      "quick_action_category_id" := IntExtra(action.categoryId),
      "quick_action_category_name" := StringExtra(Some(action.categoryName)),
      "quick_action_category_icon" := StringExtra(Some(action.icon)),
      "quick_action_label" := StringExtra(Some(action.labelText)),
      "quick_action_amount" := DoubleExtra(action.amount.GetOr(0.0)),
      "quick_action_is_quick_add" := BoolExtra(action.isQuickAdd),
      "quick_action_shortcut_type" := StringExtra(Some(action.shortcutType)),
      "quick_action_feature_id" := StringExtra(action.featureId),
      "quick_action_slot" := IntExtra(action.slot),
      "trigger_haptic" := BoolExtra(true)
    ])
  }

  /** `createQuickActionPendingIntent`: request code `appWidgetId * 100 +
      slot`; a missing amount travels as 0.0 and the launch asks for
      haptic feedback. */
  function QuickActionPendingIntent(appWidgetId: int, action: QuickActionData): (p: PendingIntent)
    ensures p.requestCode == appWidgetId * 100 + action.slot
    ensures "quick_action_amount" in p.intent.extras && p.intent.extras["quick_action_amount"] == DoubleExtra(if action.amount.Some? then action.amount.value else 0.0)
    ensures "trigger_haptic" in p.intent.extras && p.intent.extras["trigger_haptic"] == BoolExtra(true)
    ensures !HasExtra(p.intent, "open_tab") && !HasExtra(p.intent, "open_widget_quick_actions")
  {
    PendingIntent(appWidgetId * 100 + action.slot, QuickActionIntent(action))
  }

  /** `createWidgetConfigPendingIntent`: opens the quick-action editor,
      request code `appWidgetId * 1000`. */
  function ConfigPendingIntent(appWidgetId: int): (p: PendingIntent)
    ensures p.requestCode == appWidgetId * 1000
    ensures p.intent.extras == map["open_widget_quick_actions" := BoolExtra(true)]
  {
    PendingIntent(appWidgetId * 1000, Intent(map["open_widget_quick_actions" := BoolExtra(true)]))
  }

  /** What a quick-action launch hands the app, read back from the extras. */
  datatype QuickActionRequest = QuickActionRequest(
    kind: string, categoryId: int, categoryName: string, icon: string, labelText: string,
    amount: real, isQuickAdd: bool, shortcutType: string, featureId: Option<string>, slot: int)

  function RequestOf(action: QuickActionData): QuickActionRequest {
    QuickActionRequest(action.kind, action.categoryId, action.categoryName, action.icon, action.labelText,
      action.amount.GetOr(0.0), action.isQuickAdd, action.shortcutType, action.featureId, action.slot)
  }

  /** Reads a quick-action launch from an intent's extras; None when the
      intent is not one. */
  function ReadQuickActionRequest(intent: Intent): Option<QuickActionRequest> {
    var e := intent.extras;
    if && "open_quick_action" in e && e["open_quick_action"] == BoolExtra(true)
       && "quick_action_type" in e && e["quick_action_type"].StringExtra? && e["quick_action_type"].s.Some?
       && "quick_action_category_id" in e && e["quick_action_category_id"].IntExtra?
       && "quick_action_category_name" in e && e["quick_action_category_name"].StringExtra? && e["quick_action_category_name"].s.Some?
       && "quick_action_category_icon" in e && e["quick_action_category_icon"].StringExtra? && e["quick_action_category_icon"].s.Some?
       && "quick_action_label" in e && e["quick_action_label"].StringExtra? && e["quick_action_label"].s.Some?
       && "quick_action_amount" in e && e["quick_action_amount"].DoubleExtra?
       && "quick_action_is_quick_add" in e && e["quick_action_is_quick_add"].BoolExtra?
       && "quick_action_shortcut_type" in e && e["quick_action_shortcut_type"].StringExtra? && e["quick_action_shortcut_type"].s.Some?
       && "quick_action_feature_id" in e && e["quick_action_feature_id"].StringExtra?
       && "quick_action_slot" in e && e["quick_action_slot"].IntExtra?
    then Some(QuickActionRequest(
      e["quick_action_type"].s.value, e["quick_action_category_id"].i, e["quick_action_category_name"].s.value,
      e["quick_action_category_icon"].s.value, e["quick_action_label"].s.value, e["quick_action_amount"].d,
      e["quick_action_is_quick_add"].b, e["quick_action_shortcut_type"].s.value,
      e["quick_action_feature_id"].s, e["quick_action_slot"].i))
    else None
  }

  /** Every field of the record the launch carries arrives intact; the
      amount arrives as 0.0 when the record has none. */
  lemma PayloadRoundTrip(appWidgetId: int, action: QuickActionData)
    ensures ReadQuickActionRequest(QuickActionPendingIntent(appWidgetId, action).intent) == Some(RequestOf(action))
    ensures action.amount.None? ==> RequestOf(action).amount == 0.0
  {
  }

  /** A placeholder's editor intent is never mistaken for a quick-action
      launch. */
  lemma ConfigIsNotQuickAction(appWidgetId: int)
    ensures ReadQuickActionRequest(ConfigPendingIntent(appWidgetId).intent).None?
  {
  }

  /** For a real widget id, two records of slots 0..4 get the same request
      code exactly when they claim the same slot, and none of them gets the
      editor's code or the root click's (the widget id itself). */
  lemma RequestCodesDistinct(appWidgetId: int, a1: QuickActionData, a2: QuickActionData)
    requires appWidgetId >= 1 && 0 <= a1.slot < SlotCount && 0 <= a2.slot < SlotCount
    ensures QuickActionPendingIntent(appWidgetId, a1).requestCode == QuickActionPendingIntent(appWidgetId, a2).requestCode
      <==> a1.slot == a2.slot
    ensures QuickActionPendingIntent(appWidgetId, a1).requestCode != ConfigPendingIntent(appWidgetId).requestCode
    ensures QuickActionPendingIntent(appWidgetId, a1).requestCode != appWidgetId
    ensures ConfigPendingIntent(appWidgetId).requestCode != appWidgetId
  {
  }

  /** What one slot shows. */
  datatype SlotContent = SlotContent(icon: ImageContent, caption: string, captionColor: Argb, click: PendingIntent)

  /** A placeholder: the default icon and "Thêm" in #9FB3FF, opening the
      quick-action editor. */
  function PlaceholderContent(appWidgetId: int): SlotContent {
    SlotContent(DefaultCategoryIcon, PlaceholderCaption, PlaceholderColor, ConfigPendingIntent(appWidgetId))
  }

  /** A bound slot shows the record's icon, its upper-cased label (gold for
      a quick-add action, white otherwise) and launches the action; a
      placeholder shows the default icon and "Thêm" and opens the editor. */
  function SlotContentOf(platform: Platform, appWidgetId: int, action: Option<QuickActionData>): (c: SlotContent)
    ensures action.Some? ==>
      && c.icon == IconImage(platform, action.value.iconImage)
      && c.caption == platform.uppercase(action.value.labelText)
      && (c.captionColor == QuickAddColor <==> action.value.isQuickAdd)
      && (!action.value.isQuickAdd ==> c.captionColor == White)
      && c.click == QuickActionPendingIntent(appWidgetId, action.value)
    ensures action.None? ==> c == PlaceholderContent(appWidgetId)
  {
    match action
    case Some(a) =>
      SlotContent(IconImage(platform, a.iconImage), platform.uppercase(a.labelText),
        if a.isQuickAdd then QuickAddColor else White, QuickActionPendingIntent(appWidgetId, a))
    case None => PlaceholderContent(appWidgetId)
  }

  function SlotOf(platform: Platform, appWidgetId: int, actions: seq<QuickActionData>, index: nat): SlotContent {
    SlotContentOf(platform, appWidgetId, ResolveSlot(actions, index))
  }

  /** Slot i opens the editor exactly when it is a placeholder: no record
      claims slot i and the list has at most i records. */
  lemma PlaceholderIff(platform: Platform, appWidgetId: int, actions: seq<QuickActionData>, index: nat)
    ensures SlotOf(platform, appWidgetId, actions, index).click == ConfigPendingIntent(appWidgetId)
        <==> (forall a :: a in actions ==> a.slot != index) && |actions| <= index
  {
    var r := ResolveSlot(actions, index);
    if r.Some? {
      assert "open_quick_action" in SlotOf(platform, appWidgetId, actions, index).click.intent.extras;
    }
  }

  /** When records claim slot i, slot i launches the first of them: its
      request code is `appWidgetId * 100 + i` and the launch reads back as
      that record, slot i included. */
  lemma ClaimedSlotLaunchesItsRecord(platform: Platform, appWidgetId: int, actions: seq<QuickActionData>, index: nat)
    requires exists a :: a in actions && a.slot == index
    ensures FirstWithSlot(actions, index).Some?
    ensures var c := SlotOf(platform, appWidgetId, actions, index);
      && c.click == QuickActionPendingIntent(appWidgetId, FirstWithSlot(actions, index).value)
      && c.click.requestCode == appWidgetId * 100 + index
      && ReadQuickActionRequest(c.click.intent) == Some(RequestOf(FirstWithSlot(actions, index).value))
      && ReadQuickActionRequest(c.click.intent).value.slot == index
  {
    var a := ResolveSlot(actions, index).value;
    PayloadRoundTrip(appWidgetId, a);
  }

  /** Two records claiming slots 1 and 3 only: slot 0 falls back to list
      position 0 and shows the slot-1 record, slot 1 shows it too, slots 2
      and 4 are placeholders and slot 3 shows the slot-3 record. */
  lemma SparseSlotsFallBackByPosition(platform: Platform, appWidgetId: int, first: QuickActionData, second: QuickActionData)
    requires first.slot == 1 && second.slot == 3
    ensures var actions := [first, second];
      && ResolveSlot(actions, 0) == Some(first)
      && ResolveSlot(actions, 1) == Some(first)
      && ResolveSlot(actions, 2) == None
      && ResolveSlot(actions, 3) == Some(second)
      && ResolveSlot(actions, 4) == None
  {
    var actions := [first, second];
    assert actions[0] == first && actions[1] == second;
    assert forall a :: a in actions ==> a == first || a == second;
  }

  /** `quick_action_hint`: a call to add actions when there are none, else
      how to edit them. */
  function HintText(actions: seq<QuickActionData>): (t: string)
    ensures t == "Chạm để thêm tác vụ" <==> actions == []
  {
    if actions == [] then "Chạm để thêm tác vụ" else "Nhấn giữ widget để chỉnh"
  }

  /** The commands that show `content` in `slot`: its icon, its caption's
      text and colour, and its click. */
  function ShowSlot(c: ViewCommands, slot: QuickActionSlot, content: SlotContent): ViewCommands {
    var withIcon := WithImage(c, slot.iconId, content.icon);
    var withCaption := WithTextColor(WithText(withIcon, slot.labelId, content.caption), slot.labelId, content.captionColor);
    WithClick(withCaption, slot.containerId, content.click)
  }

  /** `setQuickActionPlaceholder`. */
  method SetQuickActionPlaceholder(views: RemoteViews, slot: QuickActionSlot, appWidgetId: int)
    modifies views
    ensures views.commands == ShowSlot(old(views.commands), slot, PlaceholderContent(appWidgetId))
  {
    views.SetImageViewResource(slot.iconId);
    views.SetTextViewText(slot.labelId, PlaceholderCaption);
    views.SetTextColor(slot.labelId, PlaceholderColor);
    views.SetOnClickPendingIntent(slot.containerId, ConfigPendingIntent(appWidgetId));
  }

  /** One pass of `bindQuickActions`' loop: a resolved record is bound to
      the slot's views, a missing one leaves a placeholder. */
  method BindSlot(views: RemoteViews, platform: Platform, slot: QuickActionSlot, action: Option<QuickActionData>, appWidgetId: int)
    modifies views
    ensures views.commands == ShowSlot(old(views.commands), slot, SlotContentOf(platform, appWidgetId, action))
  {
    if action.Some? {
      var a := action.value;
      SetIconImage(views, slot.iconId, platform, a.iconImage);
      var labelColor := if a.isQuickAdd then QuickAddColor else White;
      views.SetTextViewText(slot.labelId, platform.uppercase(a.labelText));
      views.SetTextColor(slot.labelId, labelColor);
      views.SetOnClickPendingIntent(slot.containerId, QuickActionPendingIntent(appWidgetId, a));
    } else {
      SetQuickActionPlaceholder(views, slot, appWidgetId);
    }
  }

  /** What the quick-action strip shows: the five slots, the hint, and the
      tap on the strip itself. */
  datatype StripContent = StripContent(slots: seq<SlotContent>, hint: string, stripClick: PendingIntent)

  /** The strip for `actions`: slot i shows what it resolves to, the hint
      depends on whether there are actions, and a tap opens the editor. */
  function StripOf(platform: Platform, appWidgetId: int, actions: seq<QuickActionData>): (strip: StripContent)
    ensures |strip.slots| == SlotCount
    ensures forall i :: 0 <= i < SlotCount ==> strip.slots[i] == SlotOf(platform, appWidgetId, actions, i)
  {
    StripContent(seq(SlotCount, i requires 0 <= i < SlotCount => SlotOf(platform, appWidgetId, actions, i)),
                 HintText(actions), ConfigPendingIntent(appWidgetId))
  }

  /** The pending intents one `bindQuickActions` builds, in the order it
      builds them: each slot's click, then the strip's. */
  function StripPendingIntents(strip: StripContent): (built: seq<PendingIntent>)
    ensures |built| == |strip.slots| + 1
    ensures forall i :: 0 <= i < |strip.slots| ==> built[i] == strip.slots[i].click
    ensures built[|strip.slots|] == strip.stripClick
  {
    seq(|strip.slots|, i requires 0 <= i < |strip.slots| => strip.slots[i].click) + [strip.stripClick]
  }

  /** The intent a tap on slot i delivers once the strip is bound: what the
      system stores under the code of the slot's pending intent. */
  function SlotDelivers(strip: StripContent, i: nat): Intent
    requires i < |strip.slots|
  {
    var built := StripPendingIntents(strip);
    assert built[i] == strip.slots[i].click;
    Registry(built)[strip.slots[i].click.requestCode]
  }

  /** Request codes are `appWidgetId * 100 + action.slot`, not slot
      positions, so two records claiming the same slot alias each other.
      With records [a, x, b], a and b claiming slot 1 and x a slot past the
      strip, slot 1 shows a but, slot 2 being bound to b under the same code
      afterwards, a tap on slot 1 delivers b's extras. */
  lemma DuplicateSlotDeliversLaterRecord(platform: Platform, appWidgetId: int, a: QuickActionData, x: QuickActionData, b: QuickActionData)
    requires appWidgetId >= 1
    requires a.slot == 1 && b.slot == 1 && x.slot >= SlotCount && a.labelText != b.labelText
    ensures var strip := StripOf(platform, appWidgetId, [a, x, b]);
      && strip.slots[1].click == QuickActionPendingIntent(appWidgetId, a)
      && strip.slots[2].click == QuickActionPendingIntent(appWidgetId, b)
      && SlotDelivers(strip, 1) == QuickActionIntent(b)
      && SlotDelivers(strip, 1) != strip.slots[1].click.intent
  {
    var actions := [a, x, b];
    DuplicateSlotResolution(a, x, b);
    var strip := StripOf(platform, appWidgetId, actions);
    var built := StripPendingIntents(strip);
    assert built[1] == QuickActionPendingIntent(appWidgetId, a);
    assert built[2] == QuickActionPendingIntent(appWidgetId, b);
    assert built[3] == ConfigPendingIntent(appWidgetId);
    assert built[4] == ConfigPendingIntent(appWidgetId);
    assert built[5] == ConfigPendingIntent(appWidgetId);
    LaterRegistrationWins(built, 1, 2);
    LabelsTellIntentsApart(a, b);
  }

  /** How the five slots resolve for [a, x, b]. */
  lemma DuplicateSlotResolution(a: QuickActionData, x: QuickActionData, b: QuickActionData)
    requires a.slot == 1 && b.slot == 1 && x.slot >= SlotCount
    ensures ResolveSlot([a, x, b], 1) == Some(a)
    ensures ResolveSlot([a, x, b], 2) == Some(b)
    ensures ResolveSlot([a, x, b], 3) == None && ResolveSlot([a, x, b], 4) == None
  {
    var actions := [a, x, b];
    assert actions[0] == a && actions[1] == x && actions[2] == b;
    assert forall r :: r in actions ==> r == a || r == x || r == b;
  }

  /** Launches of records with different labels carry different extras. */
  lemma LabelsTellIntentsApart(a: QuickActionData, b: QuickActionData)
    requires a.labelText != b.labelText
    ensures QuickActionIntent(a) != QuickActionIntent(b)
  {
    assert QuickActionIntent(a).extras["quick_action_label"] != QuickActionIntent(b).extras["quick_action_label"];
  }

  /** A pending intent the strip builds: the editor's, or the launch of a
      record from the list. */
  predicate BuiltFor(p: PendingIntent, appWidgetId: int, actions: seq<QuickActionData>) {
    p == ConfigPendingIntent(appWidgetId) ||
    exists k :: 0 <= k < |actions| && p == QuickActionPendingIntent(appWidgetId, actions[k])
  }

  /** When the records claim distinct slots among 0..4, no two pending
      intents of the strip share a code with different extras, so every
      slot delivers the intent it was bound to. */
  lemma DistinctSlotsDeliverTheirOwn(platform: Platform, appWidgetId: int, actions: seq<QuickActionData>)
    requires appWidgetId >= 1
    requires forall k :: 0 <= k < |actions| ==> 0 <= actions[k].slot < SlotCount
    requires forall k, l :: 0 <= k < |actions| && 0 <= l < |actions| && actions[k].slot == actions[l].slot ==> k == l
    ensures var strip := StripOf(platform, appWidgetId, actions);
      forall i :: 0 <= i < SlotCount ==> SlotDelivers(strip, i) == strip.slots[i].click.intent
  {
    var strip := StripOf(platform, appWidgetId, actions);
    var built := StripPendingIntents(strip);
    forall k | 0 <= k < |built|
      ensures BuiltFor(built[k], appWidgetId, actions)
    {
      if k < SlotCount {
        var r := ResolveSlot(actions, k);
        if r.Some? {
          var m :| 0 <= m < |actions| && actions[m] == r.value;
          assert built[k] == QuickActionPendingIntent(appWidgetId, actions[m]);
        }
      }
    }
    forall i, j | 0 <= i < |built| && 0 <= j < |built| && built[i].requestCode == built[j].requestCode
      ensures built[i].intent == built[j].intent
    {
      assert BuiltFor(built[i], appWidgetId, actions) && BuiltFor(built[j], appWidgetId, actions);
    }
    RegistryAgrees(built);
  }

  /** The commands of the first `k` passes of the slot loop. */
  function SlotsShown(c: ViewCommands, slots: seq<SlotContent>, k: nat): ViewCommands
    requires k <= |slots| && k <= |QuickActionSlots|
  {
    if k == 0 then c else ShowSlot(SlotsShown(c, slots, k - 1), QuickActionSlots[k - 1], slots[k - 1])
  }

  /** The commands `bindQuickActions` adds to `c`. */
  function StripShown(c: ViewCommands, strip: StripContent): ViewCommands
    requires |strip.slots| == SlotCount
  {
    var slotsShown := SlotsShown(c, strip.slots, |strip.slots|);
    WithClick(WithText(slotsShown, QuickActionHint, strip.hint), QuickActionsContainer, strip.stripClick)
  }

  /** `bindQuickActions`: the five slots in order, then the hint and the
      strip's own click. */
  method BindQuickActions(views: RemoteViews, platform: Platform, actions: seq<QuickActionData>, appWidgetId: int)
    modifies views
    ensures views.commands == StripShown(old(views.commands), StripOf(platform, appWidgetId, actions))
  {
    SlotTableCoversIndices();
    ghost var strip := StripOf(platform, appWidgetId, actions);
    for k := 0 to |QuickActionSlots|
      invariant views.commands == SlotsShown(old(views.commands), strip.slots, k)
    {
      var slot := QuickActionSlots[k];
      BindSlot(views, platform, slot, ResolveSlot(actions, slot.index), appWidgetId);
    }
    views.SetTextViewText(QuickActionHint, HintText(actions));
    views.SetOnClickPendingIntent(QuickActionsContainer, ConfigPendingIntent(appWidgetId));
  }

  predicate IsSlotView(id: ViewId) {
    id.SlotContainer? || id.SlotIcon? || id.SlotLabel?
  }

  /** The views `bindQuickActions` writes. */
  predicate QuickActionView(id: ViewId) {
    || (IsSlotView(id) && id.slot < SlotCount)
    || id == QuickActionHint
    || id == QuickActionsContainer
  }

  /** Slot `i`'s views show `content`. */
  ghost predicate ShowsSlot(now: ViewCommands, i: nat, content: SlotContent) {
    && ImageOf(now, SlotIcon(i)) == Some(content.icon)
    && TextOf(now, SlotLabel(i)) == Some(content.caption)
    && TextColorOf(now, SlotLabel(i)) == Some(content.captionColor)
    && ClickOf(now, SlotContainer(i)) == Some(content.click)
  }

  /** Showing `content` in slot i makes its views show it. */
  lemma ShowSlotShows(c: ViewCommands, i: nat, content: SlotContent)
    ensures ShowsSlot(ShowSlot(c, QuickActionSlot(SlotContainer(i), SlotIcon(i), SlotLabel(i), i), content), i, content)
  {
  }

  /** Showing a slot leaves every view outside the slot as it was. */
  lemma ShowSlotKeeps(c: ViewCommands, slot: QuickActionSlot, content: SlotContent, id: ViewId)
    requires id != slot.iconId && id != slot.labelId && id != slot.containerId
    ensures SameView(ShowSlot(c, slot, content), c, id)
  {
    var withIcon := WithImage(c, slot.iconId, content.icon);
    var withText := WithText(withIcon, slot.labelId, content.caption);
    var withCaption := WithTextColor(withText, slot.labelId, content.captionColor);
    WithImageWritesOneView(c, slot.iconId, content.icon, id);
    WithTextWritesOneView(withIcon, slot.labelId, content.caption, id);
    WithTextColorWritesOneView(withText, slot.labelId, content.captionColor, id);
    WithClickWritesOneView(withCaption, slot.containerId, content.click, id);
  }

  /** The first `k` passes of the slot loop leave every view outside slots
      0..k-1 as it was. */
  lemma {:induction false} SlotsShownKeeps(c: ViewCommands, slots: seq<SlotContent>, k: nat, id: ViewId)
    requires k <= |slots| && k <= |QuickActionSlots|
    requires !(IsSlotView(id) && id.slot < k)
    ensures SameView(SlotsShown(c, slots, k), c, id)
  {
    if k > 0 {
      SlotsShownKeeps(c, slots, k - 1, id);
      SlotTableCoversIndices();
      ShowSlotKeeps(SlotsShown(c, slots, k - 1), QuickActionSlots[k - 1], slots[k - 1], id);
    }
  }

  /** Showing slot j leaves what another slot i shows. */
  lemma ShowOtherSlotKeeps(c: ViewCommands, j: nat, content: SlotContent, i: nat, shown: SlotContent)
    requires i != j && ShowsSlot(c, i, shown)
    ensures ShowsSlot(ShowSlot(c, QuickActionSlot(SlotContainer(j), SlotIcon(j), SlotLabel(j), j), content), i, shown)
  {
  }

  /** After the first `k` passes of the slot loop, slot i < k shows
      slots[i]. */
  lemma {:induction false} SlotsShownShows(c: ViewCommands, slots: seq<SlotContent>, k: nat, i: nat)
    requires i < k <= |slots| && k <= |QuickActionSlots|
    ensures ShowsSlot(SlotsShown(c, slots, k), i, slots[i])
  {
    SlotTableCoversIndices();
    var prev := SlotsShown(c, slots, k - 1);
    assert QuickActionSlots[k - 1] == QuickActionSlot(SlotContainer(k - 1), SlotIcon(k - 1), SlotLabel(k - 1), k - 1);
    if i == k - 1 {
      ShowSlotShows(prev, i, slots[i]);
    } else {
      SlotsShownShows(c, slots, k - 1, i);
      ShowOtherSlotKeeps(prev, k - 1, slots[k - 1], i, slots[i]);
    }
  }

  /** The quick-action views show `strip`. */
  ghost predicate ShowsStrip(now: ViewCommands, strip: StripContent) {
    && |strip.slots| == SlotCount
    && (forall i: nat :: i < SlotCount ==> ShowsSlot(now, i, strip.slots[i]))
    && TextOf(now, QuickActionHint) == Some(strip.hint)
    && ClickOf(now, QuickActionsContainer) == Some(strip.stripClick)
  }

  /** After `bindQuickActions`, slot i shows strip.slots[i]: the hint and
      the strip's click come after the slots and touch none of their views. */
  lemma StripShownShowsSlot(c: ViewCommands, strip: StripContent, i: nat)
    requires |strip.slots| == SlotCount && i < SlotCount
    ensures ShowsSlot(StripShown(c, strip), i, strip.slots[i])
  {
    SlotTableCoversIndices();
    var slotsShown := SlotsShown(c, strip.slots, |strip.slots|);
    var hinted := WithText(slotsShown, QuickActionHint, strip.hint);
    SlotsShownShows(c, strip.slots, |strip.slots|, i);
    WithTextWritesOneView(slotsShown, QuickActionHint, strip.hint, SlotLabel(i));
    WithTextWritesOneView(slotsShown, QuickActionHint, strip.hint, SlotContainer(i));
    WithTextWritesOneView(slotsShown, QuickActionHint, strip.hint, SlotIcon(i));
    WithClickWritesOneView(hinted, QuickActionsContainer, strip.stripClick, SlotContainer(i));
    WithClickWritesOneView(hinted, QuickActionsContainer, strip.stripClick, SlotLabel(i));
    WithClickWritesOneView(hinted, QuickActionsContainer, strip.stripClick, SlotIcon(i));
  }

  /** `bindQuickActions` shows the strip: each of the five slots, the hint
      and the strip's click. */
  lemma StripShownShows(c: ViewCommands, strip: StripContent)
    requires |strip.slots| == SlotCount
    ensures ShowsStrip(StripShown(c, strip), strip)
  {
    forall i: nat | i < SlotCount
      ensures ShowsSlot(StripShown(c, strip), i, strip.slots[i])
    {
      StripShownShowsSlot(c, strip, i);
    }
    var slotsShown := SlotsShown(c, strip.slots, |strip.slots|);
    var hinted := WithText(slotsShown, QuickActionHint, strip.hint);
    WithClickWritesOneView(hinted, QuickActionsContainer, strip.stripClick, QuickActionHint);
  }

  /** `bindQuickActions` writes no view outside the strip. */
  lemma StripShownKeeps(c: ViewCommands, strip: StripContent, id: ViewId)
    requires |strip.slots| == SlotCount
    requires !QuickActionView(id)
    ensures SameView(StripShown(c, strip), c, id)
  {
    SlotsShownKeeps(c, strip.slots, |strip.slots|, id);
  }

  /** Commands to other views leave what the strip shows. */
  lemma ShowsStripKept(m1: ViewCommands, m2: ViewCommands, strip: StripContent)
    requires ShowsStrip(m1, strip)
    requires forall id :: QuickActionView(id) ==> SameView(m2, m1, id)
    ensures ShowsStrip(m2, strip)
  {
    forall i: nat | i < SlotCount
      ensures ShowsSlot(m2, i, strip.slots[i])
    {
      assert QuickActionView(SlotIcon(i)) && QuickActionView(SlotLabel(i)) && QuickActionView(SlotContainer(i));
    }
    assert QuickActionView(QuickActionHint) && QuickActionView(QuickActionsContainer);
  }
}
