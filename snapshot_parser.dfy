/** Reading the two JSON arrays of the snapshot into records
    (SpendingWidgetProvider.parseTopCategories, parseQuickActions).
    Each parser walks the array inside one try block: the first entry that
    throws ends the walk, so that entry and every later one are dropped
    and the entries before it are kept. Text that is empty or exactly "[]"
    is not parsed at all, and text that is malformed or not an array gives
    an empty list. */
module SnapshotParser {
  import opened Wrappers
  import opened Json

  /** An entry of `top_categories` (the data class CategoryData). */
  datatype CategoryData = CategoryData(
    name: string,
    amount: real,
    percent: string,
    icon: string,
    categoryId: int,
    kind: string,
    iconImage: Option<string>,
    formattedAmount: Option<string>)

  /** An entry of `widget_quick_actions` (the data class QuickActionData). */
  datatype QuickActionData = QuickActionData(
    slot: int,
    id: int,
    labelText: string,
    kind: string,
    shortcutType: string,
    featureId: Option<string>,
    categoryId: int,
    categoryName: string,
    icon: string,
    iconImage: Option<string>,
    amount: Option<real>,
    isQuickAdd: bool)

  /** Entry `i` of `top_categories`: `name`, `amount` and `percent` are read
      strictly (the entry throws without them), everything else falls back
      to a default, and `category_id` falls back to the entry's index. */
  function DecodeCategory(v: JValue, i: nat): (r: Option<CategoryData>)
    ensures r.Some? <==>
      && v.JObj?
      && GetString(v.fields, "name").Some?
      && GetDouble(v.fields, "amount").Some?
      && GetString(v.fields, "percent").Some?
    ensures r.Some? ==>
      && r.value.name == GetString(v.fields, "name").value
      && r.value.amount == GetDouble(v.fields, "amount").value
      && r.value.percent == GetString(v.fields, "percent").value
      && r.value.categoryId == OptInt(v.fields, "category_id", i)
      && r.value.icon == OptString(v.fields, "icon", "")
      && r.value.kind == OptString(v.fields, "type", "expense")
      && r.value.iconImage == GetString(v.fields, "icon_image")
      && r.value.formattedAmount == GetString(v.fields, "formatted_amount")
    ensures r.Some? && "category_id" !in v.fields ==> r.value.categoryId == i
    ensures r.Some? && "type" !in v.fields ==> r.value.kind == "expense"
    ensures r.Some? && "icon" !in v.fields ==> r.value.icon == ""
    ensures r.Some? && "icon_image" !in v.fields ==> r.value.iconImage == None
    ensures r.Some? && "formatted_amount" !in v.fields ==> r.value.formattedAmount == None
  {
    if !v.JObj? then None
    else
      var o := v.fields;
      match (GetString(o, "name"), GetDouble(o, "amount"), GetString(o, "percent"))
      case (Some(name), Some(amount), Some(percent)) =>
        Some(CategoryData(
          name := name,
          amount := amount,
          percent := percent,
          icon := OptString(o, "icon", ""),
          categoryId := OptInt(o, "category_id", i),
          kind := OptString(o, "type", "expense"),
          iconImage := GetString(o, "icon_image"),
          formattedAmount := GetString(o, "formatted_amount")))
      case _ => None
  }

  /** Entry `i` of `widget_quick_actions`: every field has a default, so
      only an entry that is not an object, or whose `amount` is present,
      not null and not numeric, throws. A blank `feature_id` becomes null. */
  function DecodeQuickAction(v: JValue, i: nat): (r: Option<QuickActionData>)
    ensures r.Some? <==> v.JObj? && (HasNonNull(v.fields, "amount") ==> GetDouble(v.fields, "amount").Some?)
    ensures r.Some? ==>
      && r.value.slot == OptInt(v.fields, "slot", i)
      && r.value.id == OptInt(v.fields, "id", i)
      && r.value.labelText == OptString(v.fields, "label", "Tác vụ")
      && r.value.categoryId == OptInt(v.fields, "category_id", -1)
      && r.value.kind == OptString(v.fields, "type", "expense")
      && r.value.shortcutType == OptString(v.fields, "shortcut_type", "category")
      && r.value.categoryName == OptString(v.fields, "category_name", "")
      && r.value.icon == OptString(v.fields, "icon", "")
      && r.value.isQuickAdd == OptBoolean(v.fields, "is_quick_add", false)
      && r.value.iconImage == GetString(v.fields, "icon_image")
      && (r.value.amount.Some? ==> r.value.amount == GetDouble(v.fields, "amount"))
      && (r.value.featureId.Some? ==> r.value.featureId.value == OptString(v.fields, "feature_id", ""))
    ensures r.Some? && "slot" !in v.fields ==> r.value.slot == i
    ensures r.Some? && "id" !in v.fields ==> r.value.id == i
    ensures r.Some? && "label" !in v.fields ==> r.value.labelText == "Tác vụ"
    ensures r.Some? && "type" !in v.fields ==> r.value.kind == "expense"
    ensures r.Some? && "shortcut_type" !in v.fields ==> r.value.shortcutType == "category"
    ensures r.Some? && "category_id" !in v.fields ==> r.value.categoryId == -1
    ensures r.Some? && "category_name" !in v.fields ==> r.value.categoryName == ""
    ensures r.Some? && "is_quick_add" !in v.fields ==> !r.value.isQuickAdd
    ensures r.Some? ==> (r.value.featureId.None? <==> IsBlank(OptString(v.fields, "feature_id", "")))
    ensures r.Some? ==> (r.value.amount.None? <==> !HasNonNull(v.fields, "amount"))
  {
    if !v.JObj? then None
    else
      var o := v.fields;
      var featureValue := OptString(o, "feature_id", "");
      var amount := if HasNonNull(o, "amount") then GetDouble(o, "amount") else None;
      if HasNonNull(o, "amount") && amount.None? then None
      else
        Some(QuickActionData(
          slot := OptInt(o, "slot", i),
          id := OptInt(o, "id", i),
          labelText := OptString(o, "label", "Tác vụ"),
          kind := OptString(o, "type", "expense"),
          shortcutType := OptString(o, "shortcut_type", "category"),
          featureId := if IsBlank(featureValue) then None else Some(featureValue),
          categoryId := OptInt(o, "category_id", -1),
          categoryName := OptString(o, "category_name", ""),
          icon := OptString(o, "icon", ""),
          iconImage := GetString(o, "icon_image"),
          amount := amount,
          isQuickAdd := OptBoolean(o, "is_quick_add", false)))
  }

  /** The entries the parser walks: none for "" and "[]", which are not
      parsed, and none when the text is malformed or not an array. */
  function EntriesOf(json: string, tokenize: string -> Option<JValue>): seq<JValue> {
    if json == "" || json == "[]" then []
    else match tokenize(json)
      case Some(JArr(items)) => items
      case _ => []
  }

  /** The records decoded from entry `start` on, up to the first entry
      that fails to decode. */
  function DecodedPrefix<T>(items: seq<JValue>, decode: (JValue, nat) -> Option<T>, start: nat): seq<T>
    requires start <= |items|
    decreases |items| - start
  {
    if start == |items| then []
    else match decode(items[start], start)
      case None => []
      case Some(x) => [x] + DecodedPrefix(items, decode, start + 1)
  }

  /** `list` is the longest run of entries, from the first, that decode:
      entry j decodes to list[j], and the entry after the run fails. */
  ghost predicate LongestDecodedPrefix<T>(items: seq<JValue>, decode: (JValue, nat) -> Option<T>, list: seq<T>) {
    && |list| <= |items|
    && (forall j :: 0 <= j < |list| ==> decode(items[j], j) == Some(list[j]))
    && (|list| < |items| ==> decode(items[|list|], |list|).None?)
  }

  lemma {:induction false} DecodedPrefixFrom<T>(items: seq<JValue>, decode: (JValue, nat) -> Option<T>, start: nat)
    requires start <= |items|
    ensures var list := DecodedPrefix(items, decode, start);
      && start + |list| <= |items|
      && (forall j :: 0 <= j < |list| ==> decode(items[start + j], start + j) == Some(list[j]))
      && (start + |list| < |items| ==> decode(items[start + |list|], start + |list|).None?)
    decreases |items| - start
  {
    if start < |items| && decode(items[start], start).Some? {
      DecodedPrefixFrom(items, decode, start + 1);
      var rest := DecodedPrefix(items, decode, start + 1);
      var list := DecodedPrefix(items, decode, start);
      assert list == [decode(items[start], start).value] + rest;
      forall j | 0 <= j < |list|
        ensures decode(items[start + j], start + j) == Some(list[j])
      {
        if j > 0 {
          assert list[j] == rest[j - 1];
          assert start + j == (start + 1) + (j - 1);
        }
      }
    }
  }

  /** The parsers' result is exactly the longest decodable run of entries. */
  lemma DecodedPrefixIsLongest<T>(items: seq<JValue>, decode: (JValue, nat) -> Option<T>)
    ensures LongestDecodedPrefix(items, decode, DecodedPrefix(items, decode, 0))
  {
    DecodedPrefixFrom(items, decode, 0);
  }

  /** If entry k is the first that fails, the result is entries 0..k-1:
      the failing entry and everything after it are dropped. */
  lemma FailureDropsRest<T>(items: seq<JValue>, decode: (JValue, nat) -> Option<T>, k: nat)
    requires k < |items|
    requires forall j :: 0 <= j < k ==> decode(items[j], j).Some?
    requires decode(items[k], k).None?
    ensures var list := DecodedPrefix(items, decode, 0);
      |list| == k && forall j :: 0 <= j < k ==> Some(list[j]) == decode(items[j], j)
  {
    DecodedPrefixIsLongest(items, decode);
  }

  function TopCategories(json: string, tokenize: string -> Option<JValue>): seq<CategoryData> {
    DecodedPrefix(EntriesOf(json, tokenize), DecodeCategory, 0)
  }

  function QuickActionRecords(json: string, tokenize: string -> Option<JValue>): seq<QuickActionData> {
    DecodedPrefix(EntriesOf(json, tokenize), DecodeQuickAction, 0)
  }

  /** `parseTopCategories(json)`: never throws; returns the entries decoded
      before the first failing one. */
  method ParseTopCategories(json: string, tokenize: string -> Option<JValue>) returns (list: seq<CategoryData>)
    ensures json == "" || json == "[]" ==> list == []
    ensures list == TopCategories(json, tokenize)
  {
    list := [];
    if json != "" && json != "[]" {
      var parsed := tokenize(json);
      if parsed.Some? && parsed.value.JArr? {
        var items := parsed.value.items;
        var i := 0;
        while i < |items|
          invariant 0 <= i <= |items|
          invariant list + DecodedPrefix(items, DecodeCategory, i) == DecodedPrefix(items, DecodeCategory, 0)
        {
          var entry := DecodeCategory(items[i], i);
          if entry.None? {
            break;
          }
          list := list + [entry.value];
          i := i + 1;
        }
      }
    }
  }

  /** `parseQuickActions(json)`: never throws; returns the entries decoded
      before the first failing one. */
  method ParseQuickActions(json: string, tokenize: string -> Option<JValue>) returns (list: seq<QuickActionData>)
    ensures json == "" || json == "[]" ==> list == []
    ensures list == QuickActionRecords(json, tokenize)
  {
    list := [];
    if json != "" && json != "[]" {
      var parsed := tokenize(json);
      if parsed.Some? && parsed.value.JArr? {
        var items := parsed.value.items;
        var i := 0;
        while i < |items|
          invariant 0 <= i <= |items|
          invariant list + DecodedPrefix(items, DecodeQuickAction, i) == DecodedPrefix(items, DecodeQuickAction, 0)
        {
          var entry := DecodeQuickAction(items[i], i);
          if entry.None? {
            break;
          }
          list := list + [entry.value];
          i := i + 1;
        }
      }
    }
  }
}
