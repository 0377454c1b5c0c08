/** Category colours: a fixed table keyed by the category's display name,
    and a 30-colour palette indexed by the category id for every other name
    (SpendingWidgetProvider.getColorForCategory, generateColorFromId,
    applyAlpha). */
module Colors {
  import opened Wrappers

  /** A colour packed as 0xAARRGGBB. Kotlin keeps the same 32 bits in a
      signed Int; the model uses their unsigned value. */
  type Argb = c: int | 0 <= c < 0x1_0000_0000

  /** One 8-bit channel of a colour. */
  type Channel = c: int | 0 <= c < 0x100

  function Alpha(c: Argb): Channel { c / 0x100_0000 }
  function Red(c: Argb): Channel { (c / 0x1_0000) % 0x100 }
  function Green(c: Argb): Channel { (c / 0x100) % 0x100 }
  function Blue(c: Argb): Channel { c % 0x100 }

  /** Appends one 8-bit channel below `high`. */
  lemma AppendByte(high: int, low: Channel)
    ensures (high * 0x100 + low) / 0x100 == high && (high * 0x100 + low) % 0x100 == low
  {
  }

  /** `Color.argb(a, r, g, b)`: packing and unpacking are inverse. */
  function FromChannels(a: Channel, r: Channel, g: Channel, b: Channel): (c: Argb)
    ensures Alpha(c) == a && Red(c) == r && Green(c) == g && Blue(c) == b
  {
    var ar := a * 0x100 + r;
    var arg := ar * 0x100 + g;
    var c := arg * 0x100 + b;
    AppendByte(arg, b);
    AppendByte(ar, g);
    AppendByte(a, r);
    assert c / 0x1_0000 == ar by { assert c / 0x1_0000 == (c / 0x100) / 0x100; }
    assert c / 0x100_0000 == a by { assert c / 0x100_0000 == (c / 0x1_0000) / 0x100; }
    c
  }

  const White: Argb := 0xFFFF_FFFF

  /** The colours of well-known category names. */
  const ColorTable: map<string, Argb> :=
    map[
      "Ăn uống" := 0xFFFF_8A65,
      "Di chuyển" := 0xFF4E_CDC4,
      "Mua sắm" := 0xFFFF_C857,
      "Hóa đơn" := 0xFF4E_CDC4,
      "Giải trí" := 0xFFFF_9800,
      "Y tế" := 0xFFE9_1E63,
      "Giáo dục" := 0xFF9C_27B0,
      "Nhà cửa" := 0xFF79_5548,
      "Xe cộ" := 0xFF60_7D8B,
      "Điện thoại" := 0xFF3F_51B5,
      "Điện" := 0xFFFF_EB3B,
      "Nước" := 0xFF21_96F3,
      "Lương" := 0xFF4C_AF50,
      "Thưởng" := 0xFF8B_C34A,
      "Đầu tư" := 0xFF00_9688,
      "Kinh doanh" := 0xFF03_A9F4,
      "Khác" := 0xFFFF_9800
    ]

  /** The fallback palette for names outside the table. */
  const Palette: seq<Argb> :=
    [
      0xFF64_B5F6, 0xFF4F_C3F7, 0xFF4D_D0E1,
      0xFF4D_B6AC, 0xFF81_C784, 0xFFAE_D581,
      0xFFFF_D54F, 0xFFFF_B74D, 0xFFE5_7373,
      0xFFBA_68C8, 0xFF95_75CD, 0xFF79_86CB,
      0xFF90_A4AE, 0xFFEF_5350, 0xFFAB_47BC,
      0xFF7E_57C2, 0xFF5C_6BC0, 0xFF42_A5F5,
      0xFF29_B6F6, 0xFF26_C6DA, 0xFF26_A69A,
      0xFF66_BB6A, 0xFF9C_CC65, 0xFFFF_CA28,
      0xFFFF_A726, 0xFF8D_6E63, 0xFF78_909C,
      0xFFEC_407A, 0xFFF0_6292, 0xFFA1_887F
    ]

  /** Kotlin's `%` on Int: the remainder takes the sign of the dividend. */
  function KotlinRem(a: int, b: int): (r: int)
    requires b > 0
    ensures -b < r < b
    ensures a >= 0 ==> r == a % b
    ensures a < 0 ==> r <= 0 && (a - r) % b == 0
  {
    if a >= 0 then a % b
    else
      var q, m := (-a) / b, (-a) % b;
      assert a + m == (-q) * b + 0;
      RemainderUnique(a + m, -q, b, 0);
      -m
  }

  /** The Euclidean remainder is the only one in [0, b). */
  lemma RemainderUnique(x: int, k: int, b: int, m: int)
    requires b > 0 && 0 <= m < b && x == k * b + m
    ensures x % b == m
  {
    var d := k - x / b;
    assert d * b == x % b - m by {
      assert x == (x / b) * b + x % b;
      assert k * b - (x / b) * b == d * b;
    }
    if d >= 1 {
      AtLeastDivisor(d, b);
    } else if d <= -1 {
      AtLeastDivisor(-d, b);
    }
  }

  lemma AtLeastDivisor(d: int, b: int)
    requires d >= 1 && b > 0
    ensures d * b >= b
  {
    assert d * b == (d - 1) * b + b;
    ProductNonNegative((d - 1) as real, b as real);
    assert ((d - 1) * b) as real == (d - 1) as real * b as real;
  }

  /** `generateColorFromId` as written: `palette[id % palette.size]`. A
      negative remainder indexes out of range, where Kotlin throws; that
      is `None` here. */
  function GenerateColorFromIdAsWritten(id: int): (r: Option<Argb>)
    ensures r.None? <==> id < 0 && id % |Palette| != 0
    ensures r.Some? ==> r.value in Palette
    ensures id >= 0 ==> r == Some(Palette[id % |Palette|])
  {
    var k := KotlinRem(id, |Palette|);
    if 0 <= k then Some(Palette[k]) else None
  }

  /** `getColorForCategory` as written: the table colour of the name, else
      the palette colour of the id (which may throw). */
  function ColorForCategoryAsWritten(name: string, categoryId: int): (r: Option<Argb>)
    ensures name in ColorTable ==> r == Some(ColorTable[name])
    ensures name !in ColorTable ==> (r.None? <==> categoryId < 0 && categoryId % |Palette| != 0)
  {
    if name in ColorTable then Some(ColorTable[name]) else GenerateColorFromIdAsWritten(categoryId)
  }

  /** A category whose name is not in the table and whose id is -1 makes
      the lookup throw. */
  lemma NegativeIdThrows()
    ensures "Quà tặng" !in ColorTable
    ensures ColorForCategoryAsWritten("Quà tặng", -1) == None
  {
  }

  /** The palette lookup with a non-negative remainder: it agrees with the
      code as written wherever that does not throw. */
  function GenerateColorFromId(id: int): (r: Argb)
    ensures r in Palette
    ensures GenerateColorFromIdAsWritten(id).Some? ==> GenerateColorFromIdAsWritten(id) == Some(r)
  {
    Palette[id % |Palette|]
  }

  /** The category colour the widget shows: the table wins over the id,
      and every other name gets a palette colour, for every id. */
  function ColorForCategory(name: string, categoryId: int): (r: Argb)
    ensures name in ColorTable ==> r == ColorTable[name]
    ensures name !in ColorTable ==> r in Palette
    ensures ColorForCategoryAsWritten(name, categoryId).Some? ==>
              ColorForCategoryAsWritten(name, categoryId) == Some(r)
  {
    if name in ColorTable then ColorTable[name] else GenerateColorFromId(categoryId)
  }

  /** Moving an id by the palette size keeps its colour. */
  lemma NextLap(id: int)
    ensures GenerateColorFromId(id + 30) == GenerateColorFromId(id)
  {
    assert |Palette| == 30;
    assert (id + 30) % 30 == id % 30;
  }

  /** Ids that differ by a multiple of the palette size share a colour. */
  lemma {:induction false} PaletteRepeats(id: int, k: int)
    ensures |Palette| == 30
    ensures GenerateColorFromId(id + 30 * k) == GenerateColorFromId(id)
    decreases if k < 0 then -k else k
  {
    assert |Palette| == 30;
    if k > 0 {
      PaletteRepeats(id, k - 1);
      NextLap(id + 30 * (k - 1));
    } else if k < 0 {
      PaletteRepeats(id, k + 1);
      NextLap(id + 30 * k);
    }
  }

  /** Two names outside the table with ids of the same residue share a
      colour, whatever the names are. */
  lemma SameResidueSameColor(name1: string, id1: int, name2: string, id2: int)
    requires name1 !in ColorTable && name2 !in ColorTable
    requires id1 % |Palette| == id2 % |Palette|
    ensures ColorForCategory(name1, id1) == ColorForCategory(name2, id2)
  {
  }

  /** The table is not injective: two pairs of names share a colour. */
  lemma TableNotInjective()
    ensures "Giải trí" != "Khác" && ColorTable["Giải trí"] == ColorTable["Khác"]
    ensures "Di chuyển" != "Hóa đơn" && ColorTable["Di chuyển"] == ColorTable["Hóa đơn"]
  {
  }

  /** The factor the category colour bars use. */
  const ColorBarAlpha: real := 0.7

  /** Scaling a channel by a factor in [0, 1] and truncating gives a
      channel no larger than the original. */
  lemma ScaledChannel(a: Channel, factor: real)
    requires 0.0 <= factor <= 1.0
    ensures 0 <= (a as real * factor).Floor <= a
  {
    var x := a as real;
    ProductNonNegative(x, factor);
    ProductNonNegative(x, 1.0 - factor);
    assert x * (1.0 - factor) == x - x * factor;
  }

  lemma ProductNonNegative(p: real, q: real)
    requires p >= 0.0 && q >= 0.0
    ensures p * q >= 0.0
  {
  }

  /** `(channel * factor).toInt()` for a factor in [0, 1]: the product
      rounded down, a channel no larger than the original. */
  function ScaleChannel(a: Channel, factor: real): (s: Channel)
    requires 0.0 <= factor <= 1.0
    ensures s <= a
    ensures s as real <= a as real * factor < s as real + 1.0
  {
    ScaledChannel(a, factor);
    (a as real * factor).Floor
  }

  /** `applyAlpha(color, factor)`: scales the alpha channel, truncating,
      and keeps red, green and blue. */
  function ApplyAlpha(color: Argb, factor: real): (r: Argb)
    requires 0.0 <= factor <= 1.0
    ensures Red(r) == Red(color) && Green(r) == Green(color) && Blue(r) == Blue(color)
    ensures Alpha(r) <= Alpha(color)
    ensures Alpha(r) as real <= Alpha(color) as real * factor < Alpha(r) as real + 1.0
  {
    FromChannels(ScaleChannel(Alpha(color), factor), Red(color), Green(color), Blue(color))
  }
}
