/** The platform values the widget hands around: intents and their extras,
    pending intents, bitmaps, and the platform calls the model cannot see
    (locale upper-casing, icon decoding, org.json's tokenizer, the screen
    density), which are inputs here. */
module Android {
  import opened Wrappers
  import opened Json
  import opened PieGeometry

  /** A value put into an intent with `putExtra`. A `String?` extra may be
      null. */
  datatype Extra =
    | IntExtra(i: int)
    | BoolExtra(b: bool)
    | DoubleExtra(d: real)
    | StringExtra(s: Option<string>)

  /** An explicit intent for MainActivity. Every intent the widget builds
      has action MAIN, category LAUNCHER and flags NEW_TASK | CLEAR_TOP;
      they differ only in their extras, which is what is kept. */
  datatype Intent = Intent(extras: map<string, Extra>)

  /** `PendingIntent.getActivity(context, requestCode, intent,
      UPDATE_CURRENT | IMMUTABLE)`. */
  datatype PendingIntent = PendingIntent(requestCode: int, intent: Intent)

  /** A bitmap: one decoded from an icon's bytes, or a chart the widget
      drew onto a square canvas of `size` pixels. */
  datatype Bitmap =
    | IconBitmap(pixels: seq<int>)
    | ChartBitmap(size: int, drawing: Drawing)

  /** What an ImageView shows: a bitmap, or the default category icon
      resource (the only drawable resource the widget sets). */
  datatype ImageContent = BitmapImage(bitmap: Bitmap) | DefaultCategoryIcon

  /** The platform's answers, as inputs to the model. */
  datatype Platform = Platform(
    uppercase: string -> string,           // String.uppercase(Locale.getDefault())
    decodeIcon: string -> Option<Bitmap>,  // Base64.decode then BitmapFactory.decodeByteArray
    tokenize: string -> Option<JValue>,    // org.json's tokenizer; None for malformed text
    density: real)                         // resources.displayMetrics.density

  /** `Intent.hasExtra(key)`. */
  predicate HasExtra(intent: Intent, key: string) {
    key in intent.extras
  }

  /** `Intent.getIntExtra(key, default)`: the default unless an Int is
      stored under the key. */
  function GetIntExtra(intent: Intent, key: string, default: int): int {
    if key in intent.extras && intent.extras[key].IntExtra? then intent.extras[key].i else default
  }

  /** The system's table of activity PendingIntents after `built` were
      made, in order. Intents that differ only in their extras are the same
      PendingIntent, so one is identified by its request code alone, and
      FLAG_UPDATE_CURRENT replaces the extras stored under that code with
      the latest ones. */
  function Registry(built: seq<PendingIntent>): (table: map<int, Intent>)
    ensures forall k :: 0 <= k < |built| ==> built[k].requestCode in table
    ensures |built| > 0 ==> table[built[|built| - 1].requestCode] == built[|built| - 1].intent
  {
    if built == [] then map[]
    else Registry(built[..|built| - 1])[built[|built| - 1].requestCode := built[|built| - 1].intent]
  }

  /** Registrations that never disagree about a code's extras leave every
      PendingIntent delivering its own intent. */
  lemma {:induction false} RegistryAgrees(built: seq<PendingIntent>)
    requires forall i, j :: 0 <= i < |built| && 0 <= j < |built| && built[i].requestCode == built[j].requestCode ==>
               built[i].intent == built[j].intent
    ensures forall k :: 0 <= k < |built| ==> Registry(built)[built[k].requestCode] == built[k].intent
  {
    if built != [] {
      var init := built[..|built| - 1];
      assert forall i :: 0 <= i < |init| ==> init[i] == built[i];
      RegistryAgrees(init);
    }
  }

  /** A PendingIntent registered later under the same code, and not
      replaced after it, decides what every earlier one delivers. */
  lemma {:induction false} LaterRegistrationWins(built: seq<PendingIntent>, i: nat, j: nat)
    requires i <= j < |built| && built[i].requestCode == built[j].requestCode
    requires forall k :: j < k < |built| ==> built[k].requestCode != built[j].requestCode
    ensures Registry(built)[built[i].requestCode] == built[j].intent
  {
    if j < |built| - 1 {
      var init := built[..|built| - 1];
      assert forall k :: 0 <= k < |init| ==> init[k] == built[k];
      LaterRegistrationWins(init, i, j);
    }
  }
}
