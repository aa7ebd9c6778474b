/** The content script's text parsers: page classification by URL, the
    card's photo counter, price and size texts, and the listing id in a
    listing page URL. Each regular expression of the script is written
    out as the scan its leftmost, greedy match performs. */
module PageParsers {
  import opened Wrappers
  import opened Strings

  // ---------------------------------------------------------------------
  // detectPageType
  // ---------------------------------------------------------------------

  datatype PageType = ListingPage | SearchPage | FavoritesPage | UnknownPage

  /** `detectPageType` on the page URL. */
  function DetectPageType(url: string): PageType
  {
    if Contains(url, "/inmueble/") then ListingPage
    else if Contains(url, "/alquiler-viviendas/") || Contains(url, "/venta-viviendas/")
         || Contains(url, "/point/alquiler-viviendas/") || Contains(url, "/point/venta-viviendas/")
    then SearchPage
    else if Contains(url, "/usuario/favoritos/") || Contains(url, "/user/favorites/") then FavoritesPage
    else UnknownPage
  }

  /** The two '/point/...' fragments add nothing: each contains one of the
      two plain search fragments. */
  lemma PointFragmentsRedundant(url: string)
    ensures Contains(url, "/point/alquiler-viviendas/") ==> Contains(url, "/alquiler-viviendas/")
    ensures Contains(url, "/point/venta-viviendas/") ==> Contains(url, "/venta-viviendas/")
  {
    assert "/point/alquiler-viviendas/" == "/point" + "/alquiler-viviendas/";
    ContainedInfix(url, "/point", "/alquiler-viviendas/");
    assert "/point/venta-viviendas/" == "/point" + "/venta-viviendas/";
    ContainedInfix(url, "/point", "/venta-viviendas/");
  }

  /** A text containing `p + needle` contains `needle`. */
  lemma ContainedInfix(url: string, p: string, needle: string)
    ensures Contains(url, p + needle) ==> Contains(url, needle)
  {
    assert p + needle + "" == p + needle;
    ContainsInfix(p, needle, "");
    if Contains(url, p + needle) {
      ContainsTransitive(url, p + needle, needle);
    }
  }

  /** The classification, with its precedence: a listing URL is a listing
      whatever else it contains; a search fragment decides next; then the
      favourites paths; anything else is unknown. */
  lemma PageTypePrecedence(url: string)
    ensures DetectPageType(url) == ListingPage <==> Contains(url, "/inmueble/")
    ensures DetectPageType(url) == SearchPage <==>
      !Contains(url, "/inmueble/") &&
      (Contains(url, "/alquiler-viviendas/") || Contains(url, "/venta-viviendas/"))
    ensures DetectPageType(url) == FavoritesPage <==>
      !Contains(url, "/inmueble/") &&
      !Contains(url, "/alquiler-viviendas/") && !Contains(url, "/venta-viviendas/") &&
      (Contains(url, "/usuario/favoritos/") || Contains(url, "/user/favorites/"))
  {
    PointFragmentsRedundant(url);
  }

  // ---------------------------------------------------------------------
  // Photo counter: /(\d+)\s*\/\s*(\d+)/, else all digits
  // ---------------------------------------------------------------------

  /** JavaScript's `\s`: the white-space and line-terminator characters. */
  predicate IsSpace(c: char)
  {
    c == ' ' || (9 <= c as int <= 13) || c as int == 0xA0 || c as int == 0x1680
    || (0x2000 <= c as int <= 0x200A) || c as int == 0x2028 || c as int == 0x2029
    || c as int == 0x202F || c as int == 0x205F || c as int == 0x3000 || c as int == 0xFEFF
  }

  /** The second group of `(\d+)\s*\/\s*(\d+)` matched from index `i`.
      Backtracking never helps: a shorter digit or space run is followed
      by a digit or a space, where the pattern needs '/' or a digit. */
  function SlashMatchAt(s: string, i: nat): Option<string>
    requires i <= |s|
  {
    if i < |s| && IsDigit(s[i]) then
      var j := RunEnd(s, i, IsDigit);
      var k := RunEnd(s, j, IsSpace);
      if k < |s| && s[k] == '/' then
        var m := RunEnd(s, k + 1, IsSpace);
        var e := RunEnd(s, m, IsDigit);
        if m < e then Some(s[m..e]) else None
      else None
    else None
  }

  /** The leftmost match at index `i` or later. */
  function FirstSlashMatch(s: string, i: nat): (r: Option<string>)
    requires i <= |s|
    ensures r.Some? ==> r.value != "" && AllDigits(r.value)
    decreases |s| - i
  {
    match SlashMatchAt(s, i)
    case Some(g) => Some(g)
    case None => if i < |s| then FirstSlashMatch(s, i + 1) else None
  }

  /** The photo counter of a card (its trimmed text `raw`): the second number
      of an "a / b" counter, else the number made of all digits of the
      text, else none. */
  function ParsePhotoCounter(raw: string): Option<nat>
  {
    match FirstSlashMatch(raw, 0)
    case Some(g) => Some(DecimalValue(g))
    case None =>
      var d := DigitsOf(raw);
      if d == [] then None else Some(DecimalValue(d))
  }

  /** "1/18", "3 / 25" and the like: the total after the slash. */
  lemma PhotoCounterSlash(a: string, w1: string, w2: string, b: string, rest: string)
    requires a != "" && AllDigits(a) && b != "" && AllDigits(b)
    requires forall k :: 0 <= k < |w1| ==> IsSpace(w1[k])
    requires forall k :: 0 <= k < |w2| ==> IsSpace(w2[k])
    requires rest == "" || !IsDigit(rest[0])
    ensures ParsePhotoCounter(a + w1 + "/" + w2 + b + rest) == Some(DecimalValue(b))
  {
    var s := a + w1 + "/" + w2 + b + rest;
    var k := |a| + |w1|;
    var m := k + 1 + |w2|;
    CounterHeadRuns(a, w1, w2 + b + rest);
    assert s == (a + w1) + "/" + (w2 + b + rest);
    CounterTailRuns(a + w1 + "/", w2, b, rest);
    assert s == (a + w1 + "/") + w2 + b + rest;
    SlashMatchFromRuns(s, |a|, k, m, m + |b|);
  }

  /** The runs before the slash of `a + w1 + "/" + tail`. */
  lemma CounterHeadRuns(a: string, w1: string, tail: string)
    requires AllDigits(a)
    requires forall k :: 0 <= k < |w1| ==> IsSpace(w1[k])
    ensures var s := a + w1 + "/" + tail;
      (forall x :: 0 <= x < |a| ==> IsDigit(s[x]))
      && (forall x :: |a| <= x < |a| + |w1| ==> IsSpace(s[x]))
      && s[|a| + |w1|] == '/'
  {
    var s := a + w1 + "/" + tail;
    forall x | 0 <= x < |a| ensures IsDigit(s[x]) { assert s[x] == a[x]; }
    forall x | |a| <= x < |a| + |w1| ensures IsSpace(s[x]) { assert s[x] == w1[x - |a|]; }
  }

  /** The runs after the slash of `head + w2 + b + rest`. */
  lemma CounterTailRuns(head: string, w2: string, b: string, rest: string)
    requires AllDigits(b)
    requires forall k :: 0 <= k < |w2| ==> IsSpace(w2[k])
    requires rest == "" || !IsDigit(rest[0])
    ensures var s := head + w2 + b + rest;
      var m := |head| + |w2|;
      (forall x :: |head| <= x < m ==> IsSpace(s[x]))
      && (forall x :: m <= x < m + |b| ==> IsDigit(s[x]))
      && (m + |b| == |s| || !IsDigit(s[m + |b|]))
      && s[m..m + |b|] == b
  {
    var s := head + w2 + b + rest;
    var m := |head| + |w2|;
    forall x | |head| <= x < m ensures IsSpace(s[x]) { assert s[x] == w2[x - |head|]; }
    forall x | m <= x < m + |b| ensures IsDigit(s[x]) { assert s[x] == b[x - m]; }
    assert m + |b| == |s| || s[m + |b|] == rest[0];
  }

  /** The match at 0 when the runs of the pattern are known. */
  lemma SlashMatchFromRuns(s: string, j: nat, k: nat, m: nat, e: nat)
    requires 0 < j <= k < m <= e <= |s| && m < e
    requires forall x :: 0 <= x < j ==> IsDigit(s[x])
    requires forall x :: j <= x < k ==> IsSpace(s[x])
    requires s[k] == '/'
    requires forall x :: k + 1 <= x < m ==> IsSpace(s[x])
    requires forall x :: m <= x < e ==> IsDigit(s[x])
    requires e == |s| || !IsDigit(s[e])
    ensures ParsePhotoCounter(s) == Some(DecimalValue(s[m..e]))
  {
    assert SlashMatchAt(s, 0) == Some(s[m..e]) by {
      RunEndAt(s, 0, j, IsDigit);
      RunEndAt(s, j, k, IsSpace);
      RunEndAt(s, k + 1, m, IsSpace);
      RunEndAt(s, m, e, IsDigit);
    }
  }

  /** Without a slash, the counter is the number made of all its digits. */
  lemma PhotoCounterNoSlash(raw: string)
    requires '/' !in raw
    ensures ParsePhotoCounter(raw) == if DigitsOf(raw) == [] then None else Some(DecimalValue(DigitsOf(raw)))
  {
    NoSlashNoMatch(raw, 0);
  }

  lemma {:induction false} NoSlashNoMatch(s: string, i: nat)
    requires i <= |s| && '/' !in s
    ensures FirstSlashMatch(s, i) == None
    decreases |s| - i
  {
    if i < |s| {
      NoSlashNoMatch(s, i + 1);
    }
  }

  /** A counter text without digits gives no photo count. */
  lemma PhotoCounterNoDigits(raw: string)
    requires forall k :: 0 <= k < |raw| ==> !IsDigit(raw[k])
    ensures ParsePhotoCounter(raw) == None
  {
    NoDigitNoMatch(raw, 0);
  }

  lemma {:induction false} NoDigitNoMatch(s: string, i: nat)
    requires i <= |s|
    requires forall k :: 0 <= k < |s| ==> !IsDigit(s[k])
    ensures FirstSlashMatch(s, i) == None
    decreases |s| - i
  {
    if i < |s| {
      NoDigitNoMatch(s, i + 1);
    }
  }

  // ---------------------------------------------------------------------
  // Price and size texts: parseFloat(text.replace(/[^0-9]/g, ''))
  // ---------------------------------------------------------------------

  /** The card's price: the number made of all digits of the text; none
      when there are no digits (NaN in the script). */
  function ParsePrice(text: string): Option<nat>
  {
    var d := DigitsOf(text);
    if d == [] then None else Some(DecimalValue(d))
  }

  /** A printed number surrounded by text without digits ("1250 €/mes")
      reads back as that number. */
  lemma PriceRoundTrip(p: string, n: nat, q: string)
    requires forall k :: 0 <= k < |p| ==> !IsDigit(p[k])
    requires forall k :: 0 <= k < |q| ==> !IsDigit(q[k])
    ensures ParsePrice(p + NatToDecimal(n) + q) == Some(n)
  {
    var d := NatToDecimal(n);
    DigitsBetween(p, d, q);
    DecimalRoundTrip(n);
  }

  /** The digits of a digit string between two digit-free texts. */
  lemma DigitsBetween(p: string, d: string, q: string)
    requires forall k :: 0 <= k < |p| ==> !IsDigit(p[k])
    requires AllDigits(d)
    requires forall k :: 0 <= k < |q| ==> !IsDigit(q[k])
    ensures DigitsOf(p + d + q) == d
  {
    DigitsOfAppend(p + d, q);
    DigitsOfAppend(p, d);
    DigitsOfDigits(d);
    assert DigitsOf(p) == [] && DigitsOf(q) == [];
  }

  /** Thousands separators are dropped: "1.250" reads as 1250. */
  lemma PriceSeparators(a: string, sep: char, b: string)
    requires AllDigits(a) && AllDigits(b) && a + b != "" && !IsDigit(sep)
    ensures ParsePrice(a + [sep] + b) == Some(DecimalValue(a + b))
  {
    DigitsAroundSeparator(a, sep, b);
  }

  lemma DigitsAroundSeparator(a: string, sep: char, b: string)
    requires AllDigits(a) && AllDigits(b) && !IsDigit(sep)
    ensures DigitsOf(a + [sep] + b) == a + b
  {
    var head := a + [sep];
    assert DigitsOf(head) == a by {
      DigitsOfAppend(a, [sep]);
      DigitsOfDigits(a);
      assert DigitsOf([sep]) == [];
    }
    assert DigitsOf(b) == b by {
      DigitsOfDigits(b);
    }
    DigitsOfAppend(head, b);
  }

  /** A detail text names an area when it contains "m²" or "m2". */
  predicate HasAreaUnit(text: string)
  {
    Contains(text, "m²") || Contains(text, "m2")
  }

  /** The size as the script computes it from an area detail: the number
      made of ALL digits of the text, `|| null` turning 0 and NaN into none. */
  function ParseSizeAsWritten(text: string): Option<nat>
  {
    var d := DigitsOf(text);
    if d == [] || DecimalValue(d) == 0 then None else Some(DecimalValue(d))
  }

  /** On the "m²" form the script reads the area right ... */
  lemma SizeSuperscriptAsWritten(n: nat)
    requires n > 0
    ensures ParseSizeAsWritten(NatToDecimal(n) + " m²") == Some(n)
  {
    var d := NatToDecimal(n);
    DigitsOfAppend(d, " m²");
    DigitsOfDigits(d);
    assert forall k :: 0 <= k < |" m²"| ==> !IsDigit(" m²"[k]);
    assert DigitsOf(d + " m²") == d;
    DecimalRoundTrip(n);
  }

  /** ... but on the "m2" form it keeps the unit's '2' as a digit: "85 m2"
      reads as 852. */
  lemma SizeM2AsWritten(n: nat)
    requires n > 0
    ensures ParseSizeAsWritten(NatToDecimal(n) + " m2") == Some(10 * n + 2)
  {
    var d := NatToDecimal(n);
    DigitsOfAppend(d, " m2");
    DigitsOfDigits(d);
    assert " m2" == " m" + "2";
    DigitsOfAppend(" m", "2");
    assert forall k :: 0 <= k < |" m"| ==> !IsDigit(" m"[k]);
    DigitsOfDigits("2");
    assert DigitsOf(" m2") == "2";
    assert DigitsOf(d + " m2") == d + "2";
    assert (d + "2")[..|d + "2"| - 1] == d;
    DecimalRoundTrip(n);
  }

  /** The first index where "m²" or "m2" starts, if any. */
  function UnitStart(text: string, i: nat): (r: Option<nat>)
    requires i <= |text|
    ensures r.Some? ==> i <= r.value < |text| - 1
    ensures r.Some? ==> text[r.value] == 'm' && text[r.value + 1] in "²2"
    decreases |text| - i
  {
    if i + 1 < |text| && text[i] == 'm' && text[i + 1] in "²2" then Some(i)
    else if i < |text| then UnitStart(text, i + 1)
    else None
  }

  /** The size read from the digits before the unit only. */
  function ParseSize(text: string): Option<nat>
  {
    match UnitStart(text, 0)
    case Some(u) => ParseSizeAsWritten(text[..u])
    case None => None
  }

  /** The size as intended, on both spellings of the unit: "85 m2" and
      "85 m²" both read as 85. */
  lemma SizeRoundTrip(n: nat, unit: char)
    requires n > 0 && unit in "²2"
    ensures ParseSize(NatToDecimal(n) + " m" + [unit]) == Some(n)
  {
    var d := NatToDecimal(n);
    DecimalRoundTrip(n);
    UnitAfterNumber(d, unit);
    NumberThenSpace(d);
  }

  /** Digits followed by a space read as their value. */
  lemma NumberThenSpace(d: string)
    requires d != "" && AllDigits(d) && DecimalValue(d) != 0
    ensures ParseSizeAsWritten(d + " ") == Some(DecimalValue(d))
  {
    DigitsOfAppend(d, " ");
    DigitsOfDigits(d);
    assert DigitsOf(" ") == [];
    assert DigitsOf(d + " ") == d;
  }

  /** In "<digits> m²" the unit starts after the digits and the space. */
  lemma UnitAfterNumber(d: string, unit: char)
    requires AllDigits(d) && unit in "²2"
    ensures var t := d + " m" + [unit];
      UnitStart(t, 0) == Some(|d| + 1) && t[..|d| + 1] == d + " "
  {
    var t := d + " m" + [unit];
    assert t[|d| + 1] == 'm' && t[|d| + 2] == unit;
    forall k | 0 <= k < |d| + 1 ensures t[k] != 'm' {
      if k < |d| {
        assert t[k] == d[k];
      }
    }
    UnitStartAfterDigits(t, 0, |d| + 1);
    assert t[..|d| + 1] == d + " ";
  }

  /** No unit starts inside a run of characters other than 'm'. */
  lemma {:induction false} UnitStartAfterDigits(t: string, i: nat, u: nat)
    requires i <= u < |t| - 1
    requires forall k :: i <= k < u ==> t[k] != 'm'
    requires t[u] == 'm' && t[u + 1] in "²2"
    ensures UnitStart(t, i) == Some(u)
    decreases u - i
  {
    if i < u {
      UnitStartAfterDigits(t, i + 1, u);
    }
  }

  /** Which size parse a card loop applies: the script's all-digits parse,
      or the intended one reading only the digits before the unit. */
  datatype SizeParse = AsWrittenParse | CorrectedParse

  function ParseSizeBy(mode: SizeParse, text: string): Option<nat>
  {
    match mode
    case AsWrittenParse => ParseSizeAsWritten(text)
    case CorrectedParse => ParseSize(text)
  }

  /** The card loop over `.item-detail` texts: the first text naming an area
      decides the size (the loop breaks there), even when it parses to none. */
  function SizeOfDetails(mode: SizeParse, details: seq<string>): Option<nat>
  {
    if details == [] then None
    else if HasAreaUnit(details[0]) then ParseSizeBy(mode, details[0])
    else SizeOfDetails(mode, details[1..])
  }

  /** The `for ... of` loop with `break` in `extractListingData`; the script
      runs it with `AsWrittenParse`. */
  method SizeFromDetails(mode: SizeParse, details: seq<string>) returns (size: Option<nat>)
    ensures size == SizeOfDetails(mode, details)
  {
    size := None;
    var i := 0;
    while i < |details|
      invariant 0 <= i <= |details|
      invariant size == None
      invariant SizeOfDetails(mode, details) == SizeOfDetails(mode, details[i..])
    {
      assert details[i..][1..] == details[i + 1..];
      var text := details[i];
      if HasAreaUnit(text) {
        size := ParseSizeBy(mode, text);
        break;
      }
      i := i + 1;
    }
  }

  /** Only the first area detail counts; the ones before it do not name an
      area and the ones after it are never read. */
  lemma {:induction false} SizeOfDetailsFirst(mode: SizeParse, details: seq<string>, i: nat)
    requires i < |details| && HasAreaUnit(details[i])
    requires forall k :: 0 <= k < i ==> !HasAreaUnit(details[k])
    ensures SizeOfDetails(mode, details) == ParseSizeBy(mode, details[i])
    decreases i
  {
    if i > 0 {
      SizeOfDetailsFirst(mode, details[1..], i - 1);
    }
  }

  /** Without an area detail there is no size, under either parse. */
  lemma {:induction false} SizeOfDetailsNone(mode: SizeParse, details: seq<string>)
    requires forall k :: 0 <= k < |details| ==> !HasAreaUnit(details[k])
    ensures SizeOfDetails(mode, details) == None
    decreases |details|
  {
    if details != [] {
      SizeOfDetailsNone(mode, details[1..]);
    }
  }

  /** "<n> m²" and "<n> m2" name an area. */
  lemma AreaDetail(n: nat, unit: char)
    requires unit in "²2"
    ensures HasAreaUnit(NatToDecimal(n) + " m" + [unit])
  {
    var d := NatToDecimal(n);
    assert d + " m" + [unit] == (d + " ") + ("m" + [unit]) + "";
    ContainsInfix(d + " ", "m" + [unit], "");
    assert "m" + [unit] == "m²" || "m" + [unit] == "m2";
  }

  /** The script's loop: when the first area detail of a card is "<n> m2",
      the card's size is 10n+2 ("85 m2" gives 852). */
  lemma SizeOfDetailsM2AsWritten(details: seq<string>, i: nat, n: nat)
    requires n > 0 && i < |details| && details[i] == NatToDecimal(n) + " m2"
    requires forall k :: 0 <= k < i ==> !HasAreaUnit(details[k])
    ensures SizeOfDetails(AsWrittenParse, details) == Some(10 * n + 2)
  {
    AreaDetail(n, '2');
    assert details[i] == NatToDecimal(n) + " m" + ['2'];
    SizeOfDetailsFirst(AsWrittenParse, details, i);
    SizeM2AsWritten(n);
  }

  /** The intended loop: when the first area detail of a card is "<n> m²"
      or "<n> m2", the card's size is n. */
  lemma SizeOfDetailsRoundTrip(details: seq<string>, i: nat, n: nat, unit: char)
    requires n > 0 && unit in "²2" && i < |details| && details[i] == NatToDecimal(n) + " m" + [unit]
    requires forall k :: 0 <= k < i ==> !HasAreaUnit(details[k])
    ensures SizeOfDetails(CorrectedParse, details) == Some(n)
  {
    AreaDetail(n, unit);
    SizeOfDetailsFirst(CorrectedParse, details, i);
    SizeRoundTrip(n, unit);
  }

  /** On the "m²" spelling the two loops agree. */
  lemma SizeOfDetailsSuperscriptAgree(details: seq<string>, i: nat, n: nat)
    requires n > 0 && i < |details| && details[i] == NatToDecimal(n) + " m²"
    requires forall k :: 0 <= k < i ==> !HasAreaUnit(details[k])
    ensures SizeOfDetails(AsWrittenParse, details) == SizeOfDetails(CorrectedParse, details) == Some(n)
  {
    AreaDetail(n, '²');
    assert details[i] == NatToDecimal(n) + " m" + ['²'];
    SizeOfDetailsRoundTrip(details, i, n, '²');
    SizeOfDetailsFirst(AsWrittenParse, details, i);
    SizeSuperscriptAsWritten(n);
  }

  // ---------------------------------------------------------------------
  // Listing id: /\/inmueble\/(\d+)(?:[\/\?#]|$)/
  // ---------------------------------------------------------------------

  const ListingPath := "/inmueble/"

  /** The group matched from index `i`: the digits after "/inmueble/",
      which must be followed by '/', '?', '#' or the end of the URL. */
  function IdMatchAt(url: string, i: nat): Option<string>
    requires i <= |url|
  {
    if i + |ListingPath| <= |url| && url[i..i + |ListingPath|] == ListingPath then
      var s := i + |ListingPath|;
      var e := RunEnd(url, s, IsDigit);
      if s < e && (e == |url| || url[e] in "/?#") then Some(url[s..e]) else None
    else None
  }

  function FirstIdMatch(url: string, i: nat): Option<string>
    requires i <= |url|
    decreases |url| - i
  {
    match IdMatchAt(url, i)
    case Some(d) => Some(d)
    case None => if i < |url| then FirstIdMatch(url, i + 1) else None
  }

  /** The listing id `extractCurrentListingData` reads from the page URL. */
  function ListingIdFromUrl(url: string): Option<string>
  {
    FirstIdMatch(url, 0)
  }

  /** What the extractor returns is a non-empty run of digits that follows
      "/inmueble/" in the URL. */
  lemma {:induction false} ListingIdSound(url: string, i: nat)
    requires i <= |url|
    ensures var r := FirstIdMatch(url, i);
      r.Some? ==> r.value != "" && AllDigits(r.value) && Contains(url, ListingPath + r.value)
    decreases |url| - i
  {
    var r := IdMatchAt(url, i);
    if r.Some? {
      var s := i + |ListingPath|;
      var e := RunEnd(url, s, IsDigit);
      assert url[i..e] == ListingPath + r.value;
      ContainsAt(url, ListingPath + r.value, i);
    } else if i < |url| {
      ListingIdSound(url, i + 1);
    }
  }

  /** A URL without "/inmueble/" has no listing id. */
  lemma NoListingPathNoId(url: string)
    requires !Contains(url, ListingPath)
    ensures ListingIdFromUrl(url) == None
  {
    ListingIdSound(url, 0);
    var r := ListingIdFromUrl(url);
    if r.Some? {
      assert "" + ListingPath + r.value == ListingPath + r.value;
      ContainsInfix("", ListingPath, r.value);
      ContainsTransitive(url, ListingPath + r.value, ListingPath);
    }
  }

  /** The id written after the first "/inmueble/" of a URL, and ended by
      '/', '?', '#' or the end, is the id read back. */
  lemma ListingIdRoundTrip(p: string, d: string, q: string)
    requires !Contains(p + "/inmueble", ListingPath)
    requires d != "" && AllDigits(d)
    requires q == "" || q[0] in "/?#"
    ensures ListingIdFromUrl(p + ListingPath + d + q) == Some(d)
  {
    var url := p + ListingPath + d + q;
    var s := |p| + |ListingPath|;
    var e := s + |d|;
    assert url[|p|..s] == ListingPath && url[s..e] == d;
    assert e == |url| || url[e] == q[0];
    RunEndAt(url, s, e, IsDigit);
    assert IdMatchAt(url, |p|) == Some(d);
    forall j | 0 <= j < |p|
      ensures IdMatchAt(url, j) == None
    {
      if j + |ListingPath| <= |url| && url[j..j + |ListingPath|] == ListingPath {
        assert (p + "/inmueble")[j..j + |ListingPath|] == url[j..j + |ListingPath|];
        ContainsAt(p + "/inmueble", ListingPath, j);
      }
    }
    SkipNoMatch(url, 0, |p|);
  }

  lemma {:induction false} SkipNoMatch(url: string, i: nat, j: nat)
    requires i <= j <= |url|
    requires forall k :: i <= k < j ==> IdMatchAt(url, k) == None
    ensures FirstIdMatch(url, i) == FirstIdMatch(url, j)
    decreases j - i
  {
    if i < j {
      SkipNoMatch(url, i + 1, j);
    }
  }
}
