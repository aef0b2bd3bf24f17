/**
 * The result renderer `create_result_png`: the text it draws on an 800×600
 * white canvas, where it draws it, and the name of the file it saves. The
 * rasterisation itself is not modelled; a drawing is the ordered list of
 * `draw.text` calls.
 */
module Render {
  import opened Wrappers
  import opened Format
  import opened Catalog

  /** One `draw.text((x, y), text, fill="black")` call. */
  datatype Draw = Draw(x: int, y: int, text: string)

  /** The saved image: canvas size, the text drawn on it in order, and its file name. */
  datatype Png = Png(width: nat, height: nat, commands: seq<Draw>, filename: string)

  const WIDTH: nat := 800
  const HEIGHT: nat := 600
  const TITLE := "\U{1F6D2} 구매 결과"
  const ITEMS_HEADER := "\U{1F4E6} 구매한 물품:"
  const REASON_HEADER := "\U{1F4DD} 구매 이유:"
  const FILE_PREFIX := "result_"
  const FILE_SUFFIX := ".png"

  /** The line drawn for one cart item: `f"- {name} / {price:,}원"`. */
  function ItemText(item: Product): string {
    "- " + item.name + " / " + Grouped(item.price) + "원"
  }

  /** Where the `i`-th cart item (from 0) is drawn. */
  function ItemLine(i: nat, item: Product): Draw {
    Draw(40, 120 + 30 * i, ItemText(item))
  }

  function ItemLines(items: seq<Product>): (r: seq<Draw>)
    ensures |r| == |items|
  {
    if items == [] then []
    else ItemLines(items[..|items| - 1]) + [ItemLine(|items| - 1, items[|items| - 1])]
  }

  /**
   * Everything drawn for a cart and a justification, at the absolute
   * positions the running `y` offset of the source reaches.
   */
  function Layout(items: seq<Product>, reason: string): (r: seq<Draw>)
    ensures |r| == |items| + 4
  {
    var n := |items|;
    [Draw(20, 20, TITLE), Draw(20, 80, ITEMS_HEADER)]
    + ItemLines(items)
    + [Draw(20, 140 + 30 * n, REASON_HEADER), Draw(40, 180 + 30 * n, reason)]
  }

  /** `f"result_{now.strftime('%Y%m%d_%H%M%S')}.png"`. */
  function ResultFilename(now: Timestamp): (r: string)
    ensures |r| == 26 && r[..7] == FILE_PREFIX && r[15] == '_' && r[22..] == FILE_SUFFIX
    ensures AllDigits(r[7..15]) && AllDigits(r[16..22])
  {
    var stamp := Strftime(now);
    var r := FILE_PREFIX + stamp + FILE_SUFFIX;
    assert r[7..22] == stamp;
    assert r[7..15] == stamp[..8] && r[16..22] == stamp[9..];
    r
  }

  /** What `create_result_png(reason, items)` produces when called at time `now`. */
  function ResultPng(reason: string, items: seq<Product>, now: Timestamp): (r: Png)
    ensures r.width == WIDTH && r.height == HEIGHT && |r.commands| == |items| + 4
    ensures r.filename == ResultFilename(now)
  {
    Png(WIDTH, HEIGHT, Layout(items, reason), ResultFilename(now))
  }

  /**
   * `create_result_png`: draws the title and the items header, then one line
   * per item while moving `y` down, then the reason header and the reason,
   * and names the file after `now`.
   */
  method CreateResultPng(reasonText: string, cartItems: seq<Product>, now: Timestamp) returns (png: Png)
    ensures png == ResultPng(reasonText, cartItems, now)
  {
    var commands: seq<Draw> := [Draw(20, 20, TITLE)];
    var y := 80;
    commands := commands + [Draw(20, y, ITEMS_HEADER)];
    y := y + 40;
    for i := 0 to |cartItems|
      invariant y == 120 + 30 * i
      invariant commands == [Draw(20, 20, TITLE), Draw(20, 80, ITEMS_HEADER)] + ItemLines(cartItems[..i])
    {
      assert cartItems[..i + 1][..i] == cartItems[..i];
      commands := commands + [Draw(40, y, ItemText(cartItems[i]))];
      y := y + 30;
    }
    assert cartItems[..|cartItems|] == cartItems;
    y := y + 20;
    commands := commands + [Draw(20, y, REASON_HEADER)];
    y := y + 40;
    commands := commands + [Draw(40, y, reasonText)];
    png := Png(WIDTH, HEIGHT, commands, ResultFilename(now));
  }

  // ---------------------------------------------------------------------
  // Properties of the layout
  // ---------------------------------------------------------------------

  lemma {:induction false} ItemLinesAt(items: seq<Product>, k: nat)
    requires k < |items|
    ensures ItemLines(items)[k] == ItemLine(k, items[k])
  {
    if k < |items| - 1 {
      ItemLinesAt(items[..|items| - 1], k);
    }
  }

  /**
   * Item `i` is drawn at (40, 120 + 30·i) in cart order, the reason header at
   * y = 140 + 30·n and the reason itself at (40, 180 + 30·n).
   */
  lemma LayoutPositions(items: seq<Product>, reason: string)
    ensures var r := Layout(items, reason); var n := |items|;
      && (forall i :: 0 <= i < n ==> r[2 + i] == Draw(40, 120 + 30 * i, ItemText(items[i])))
      && r[n + 2] == Draw(20, 140 + 30 * n, REASON_HEADER)
      && r[n + 3] == Draw(40, 180 + 30 * n, reason)
  {
    var r := Layout(items, reason);
    forall i | 0 <= i < |items| ensures r[2 + i] == Draw(40, 120 + 30 * i, ItemText(items[i])) {
      ItemLinesAt(items, i);
    }
  }

  /** The lines go strictly down the canvas, in the order they are drawn. */
  lemma LayoutTopToBottom(items: seq<Product>, reason: string)
    ensures var r := Layout(items, reason);
      forall i, j :: 0 <= i < j < |r| ==> r[i].y < r[j].y
  {
    var r := Layout(items, reason);
    var n := |items|;
    LayoutPositions(items, reason);
    forall i | 0 <= i < |r| ensures r[i].y == if i < 2 then 20 + 60 * i else if i < n + 2 then 120 + 30 * (i - 2) else 140 + 30 * n + 40 * (i - n - 2) {
      if i < 2 {
        assert r[i] == [Draw(20, 20, TITLE), Draw(20, 80, ITEMS_HEADER)][i];
        assert r[i].y == 20 + 60 * i;
      } else if i < n + 2 {
        ItemLinesAt(items, i - 2);
        assert r[i] == ItemLines(items)[i - 2];
      } else if i == n + 2 {
        assert r[i].y == 140 + 30 * n;
      } else {
        assert r[i].y == 180 + 30 * n;
      }
    }
  }

  /**
   * The price part of an item line is a thousands-grouped numeral whose
   * digits, with the commas removed, are `str(price)`, and it reads back as
   * the price.
   */
  lemma ItemTextShowsPrice(item: Product)
    ensures var t := ItemText(item); var k := |item.name| + 5;
      && k < |t| && t[..k] == "- " + item.name + " / " && t[|t| - 1] == '원'
      && ThousandsGrouped(t[k..|t| - 1])
      && RemoveCommas(t[k..|t| - 1]) == Decimal(item.price)
      && ParseGrouped(t[k..|t| - 1]) == item.price
  {
    ItemTextSplit(item);
    GroupedDigits(item.price);
    GroupedRoundTrip(item.price);
  }

  lemma ItemTextSplit(item: Product)
    ensures var t := ItemText(item); var k := |item.name| + 5;
      && k < |t| && t[..k] == "- " + item.name + " / " && t[|t| - 1] == '원'
      && t[k..|t| - 1] == Grouped(item.price)
  {
  }

  // ---------------------------------------------------------------------
  // The file name
  // ---------------------------------------------------------------------

  /** Reads the time stamp back out of a result file name. */
  function ParseResultFilename(name: string): Option<Timestamp> {
    if && |name| == 26 && name[..7] == FILE_PREFIX && name[15] == '_' && name[22..] == FILE_SUFFIX
       && AllDigits(name[7..11]) && AllDigits(name[11..13]) && AllDigits(name[13..15])
       && AllDigits(name[16..18]) && AllDigits(name[18..20]) && AllDigits(name[20..22])
    then
      Some(Timestamp(ParseDecimal(name[7..11]), ParseDecimal(name[11..13]), ParseDecimal(name[13..15]),
                     ParseDecimal(name[16..18]), ParseDecimal(name[18..20]), ParseDecimal(name[20..22])))
    else
      None
  }

  /** The file name records the generation time to the second, and can be read back. */
  lemma FilenameRoundTrip(now: Timestamp)
    requires ValidTimestamp(now)
    ensures ParseResultFilename(ResultFilename(now)) == Some(now)
  {
    var name := ResultFilename(now);
    var y4, mo, d := Padded(now.year, 4), Padded(now.month, 2), Padded(now.day, 2);
    var h, mi, s := Padded(now.hour, 2), Padded(now.minute, 2), Padded(now.second, 2);
    assert name == FILE_PREFIX + y4 + mo + d + "_" + h + mi + s + FILE_SUFFIX;
    assert name[7..11] == y4 && name[11..13] == mo && name[13..15] == d;
    assert name[16..18] == h && name[18..20] == mi && name[20..22] == s;
    assert Pow10(2) == 100 && Pow10(4) == 10000;
    PaddedRoundTrip(now.year, 4);
    PaddedRoundTrip(now.month, 2);
    PaddedRoundTrip(now.day, 2);
    PaddedRoundTrip(now.hour, 2);
    PaddedRoundTrip(now.minute, 2);
    PaddedRoundTrip(now.second, 2);
  }

  /** Distinct generation times give distinct file names. */
  lemma FilenameInjective(t1: Timestamp, t2: Timestamp)
    requires ValidTimestamp(t1) && ValidTimestamp(t2) && t1 != t2
    ensures ResultFilename(t1) != ResultFilename(t2)
  {
    FilenameRoundTrip(t1);
    FilenameRoundTrip(t2);
  }

  // ---------------------------------------------------------------------
  // A worked example
  // ---------------------------------------------------------------------

  /**
   * A worked example: a cart of an apple at 1,000 won and bread at 2,500 won
   * totals 3,500 won, and the two item lines are drawn in cart order, above
   * the reason.
   */
  lemma BreakfastExample()
    ensures var cart := [Product("Apple", 1000, ""), Product("Bread", 2500, "")];
      && Total(cart) == 3500
      && var drawn := Layout(cart, "For breakfast");
      && drawn[2] == Draw(40, 120, "- Apple / 1,000원")
      && drawn[3] == Draw(40, 150, "- Bread / 2,500원")
      && drawn[5] == Draw(40, 240, "For breakfast")
  {
    var cart := [Product("Apple", 1000, ""), Product("Bread", 2500, "")];
    AppleLine();
    BreadLine();
    var drawn := Layout(cart, "For breakfast");
    ItemLinesAt(cart, 0);
    ItemLinesAt(cart, 1);
    assert drawn[2] == ItemLines(cart)[0] && drawn[3] == ItemLines(cart)[1];
    assert Total(cart) == 3500 by {
      assert cart[1..][1..] == [];
    }
  }

  lemma AppleLine()
    ensures ItemText(Product("Apple", 1000, "")) == "- Apple / 1,000원"
  {
    GroupedOneThousand();
  }

  lemma BreadLine()
    ensures ItemText(Product("Bread", 2500, "")) == "- Bread / 2,500원"
  {
    GroupedTwoThousandFiveHundred();
  }
}
