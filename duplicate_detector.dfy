/**
 * Duplicate detection (utils/duplicate_detector.py): the text parsers shared
 * with the scrapers, the address and description normalisers, the similarity
 * scores, the three-layer same-property decision and the database look-ups of
 * `is_duplicate` and `find_similar_properties`.
 *
 * The two fuzzywuzzy scorers are given as functions returning a percentage.
 * Rows of the database are passed in as the sequence of stored properties.
 */
module DuplicateDetector {
  import opened Wrappers
  import opened Text
  import opened Models
  import opened Listings

  /** A fuzzy-matching score in percent. */
  type Percent = x: int | 0 <= x <= 100

  /** `fuzz.ratio` and `fuzz.token_sort_ratio`. */
  datatype Fuzzy = Fuzzy(ratio: (string, string) -> Percent, tokenSortRatio: (string, string) -> Percent)

  /** The detector's thresholds, read from the configuration, and its scorers. */
  datatype Detector = Detector(addressThreshold: real, descriptionThreshold: real, priceThreshold: int, fuzzy: Fuzzy)

  function Min(a: real, b: real): real { if a <= b then a else b }

  function Abs(x: real): real { if x < 0.0 then -x else x }

  // ---------------------------------------------------------------------------
  // Parsers

  /** The digits and dots of `s`, in order. */
  function KeepNumeric(s: string): (r: string)
    ensures |r| <= |s|
    ensures forall i :: 0 <= i < |r| ==> IsDigit(r[i]) || r[i] == '.'
    decreases |s|
  {
    if |s| == 0 then []
    else (if IsDigit(s[0]) || s[0] == '.' then [s[0]] else []) + KeepNumeric(s[1..])
  }

  /** `float(s) if s else None`, for a string of digits and dots. */
  function ParseNumeral(s: string): Option<real> {
    if s == [] then None else ParseDecimal(s)
  }

  /** `s.replace(p, '')` for each marker `p` of `markers`, in order. */
  function DropAll(s: string, markers: seq<string>): string
    requires forall k :: 0 <= k < |markers| ==> markers[k] != []
    decreases |markers|
  {
    if markers == [] then s else DropAll(ReplaceAll(s, markers[0], ""), markers[1..])
  }

  /** Markers without digits, dots or (when `commas`) commas. */
  predicate NumeralFree(markers: seq<string>, commas: bool) {
    forall k :: 0 <= k < |markers| ==>
      markers[k] != [] && forall i :: 0 <= i < |markers[k]| ==>
        !IsDigit(markers[k][i]) && markers[k][i] != '.' && (commas ==> markers[k][i] != ',')
  }

  /** What `parse_price` removes before it reads commas as dots, and after. */
  const CurrencyMarkers: seq<string> := ["€", "EUR", " "]
  const ChargeMarkers: seq<string> := ["CC", "charges"]

  /** `parse_price`: drop currency and charge markers, read commas as dots, keep digits and dots, then `float`. */
  function ParsePrice(text: string): (r: Option<real>)
    ensures text == "" ==> r.None?
    ensures r.Some? ==> r.value >= 0.0
  {
    if text == "" then None
    else ParseNumeral(KeepNumeric(DropAll(ReplaceAll(DropAll(text, CurrencyMarkers), ",", "."), ChargeMarkers)))
  }

  function CommaToDot(s: string): (r: string)
    ensures |r| == |s|
  {
    seq(|s|, i requires 0 <= i < |s| => if s[i] == ',' then '.' else s[i])
  }

  /** The digits and dots of a text once its commas are read as dots. */
  function NumericView(s: string): string {
    KeepNumeric(CommaToDot(s))
  }

  lemma {:induction false} KeepNumericAppend(a: string, b: string)
    ensures KeepNumeric(a + b) == KeepNumeric(a) + KeepNumeric(b)
    decreases |a|
  {
    if |a| > 0 {
      KeepNumericAppend(a[1..], b);
      var head := if IsDigit(a[0]) || a[0] == '.' then [a[0]] else [];
      assert (a + b)[0] == a[0];
      assert (a + b)[1..] == a[1..] + b;
      assert KeepNumeric(a + b) == head + KeepNumeric(a[1..] + b);
      assert KeepNumeric(a) == head + KeepNumeric(a[1..]);
      assert head + (KeepNumeric(a[1..]) + KeepNumeric(b)) == (head + KeepNumeric(a[1..])) + KeepNumeric(b);
    } else {
      assert a + b == b;
    }
  }

  lemma NumericViewAppend(a: string, b: string)
    ensures NumericView(a + b) == NumericView(a) + NumericView(b)
  {
    assert CommaToDot(a + b) == CommaToDot(a) + CommaToDot(b);
    KeepNumericAppend(CommaToDot(a), CommaToDot(b));
  }

  /** A text without digits, dots or commas contributes nothing to the numeric view. */
  lemma {:induction false} NumericViewOfNoNumerals(s: string)
    requires forall i :: 0 <= i < |s| ==> !IsDigit(s[i]) && s[i] != '.' && s[i] != ','
    ensures NumericView(s) == []
    decreases |s|
  {
    if |s| > 0 {
      NumericViewOfNoNumerals(s[1..]);
      assert s == [s[0]] + s[1..];
      NumericViewAppend([s[0]], s[1..]);
    }
  }

  /** Removing a marker without digits, dots or commas leaves the numeric view unchanged. */
  lemma {:induction false} NumericViewDrop(s: string, pat: string)
    requires pat != []
    requires forall i :: 0 <= i < |pat| ==> !IsDigit(pat[i]) && pat[i] != '.' && pat[i] != ','
    ensures NumericView(ReplaceAll(s, pat, "")) == NumericView(s)
    decreases |s|
  {
    if |s| > 0 {
      if StartsWith(s, pat) {
        var rest := s[|pat|..];
        NumericViewDrop(rest, pat);
        assert s == pat + rest;
        NumericViewAppend(pat, rest);
        NumericViewOfNoNumerals(pat);
        assert NumericView(s) == NumericView(rest);
        assert ReplaceAll(s, pat, "") == "" + ReplaceAll(rest, pat, "");
        assert "" + ReplaceAll(rest, pat, "") == ReplaceAll(rest, pat, "");
      } else {
        NumericViewDrop(s[1..], pat);
        assert s == [s[0]] + s[1..];
        NumericViewAppend([s[0]], s[1..]);
        NumericViewAppend([s[0]], ReplaceAll(s[1..], pat, ""));
      }
    }
  }

  /** Removing a marker without digits or dots leaves the digits and dots unchanged. */
  lemma {:induction false} KeepNumericDrop(s: string, pat: string)
    requires pat != []
    requires forall i :: 0 <= i < |pat| ==> !IsDigit(pat[i]) && pat[i] != '.'
    ensures KeepNumeric(ReplaceAll(s, pat, "")) == KeepNumeric(s)
    decreases |s|
  {
    if |s| > 0 {
      if StartsWith(s, pat) {
        var rest := s[|pat|..];
        KeepNumericDrop(rest, pat);
        assert s == pat + rest;
        KeepNumericAppend(pat, rest);
        KeepNumericOfNoNumerals(pat);
        assert KeepNumeric(s) == KeepNumeric(rest);
        assert ReplaceAll(s, pat, "") == "" + ReplaceAll(rest, pat, "");
        assert "" + ReplaceAll(rest, pat, "") == ReplaceAll(rest, pat, "");
      } else {
        KeepNumericDrop(s[1..], pat);
      }
    }
  }

  lemma {:induction false} KeepNumericOfNoNumerals(s: string)
    requires forall i :: 0 <= i < |s| ==> !IsDigit(s[i]) && s[i] != '.'
    ensures KeepNumeric(s) == []
    decreases |s|
  {
    if |s| > 0 {
      KeepNumericOfNoNumerals(s[1..]);
    }
  }

  /** Replacing every comma by a dot is `CommaToDot`. */
  lemma {:induction false} ReplaceCommaByDot(s: string)
    ensures ReplaceAll(s, ",", ".") == CommaToDot(s)
    decreases |s|
  {
    if |s| > 0 {
      ReplaceCommaByDot(s[1..]);
      assert CommaToDot(s) == CommaToDot([s[0]]) + CommaToDot(s[1..]);
    }
  }

  lemma {:induction false} NumericViewDropAll(s: string, markers: seq<string>)
    requires NumeralFree(markers, true)
    ensures NumericView(DropAll(s, markers)) == NumericView(s)
    decreases |markers|
  {
    if markers != [] {
      NumericViewDrop(s, markers[0]);
      NumericViewDropAll(ReplaceAll(s, markers[0], ""), markers[1..]);
    }
  }

  lemma {:induction false} KeepNumericDropAll(s: string, markers: seq<string>)
    requires NumeralFree(markers, false)
    ensures KeepNumeric(DropAll(s, markers)) == KeepNumeric(s)
    decreases |markers|
  {
    if markers != [] {
      KeepNumericDrop(s, markers[0]);
      KeepNumericDropAll(ReplaceAll(s, markers[0], ""), markers[1..]);
    }
  }

  /**
   * The price a text gives depends only on its digits, dots and commas: the
   * currency and charge markers the parser removes never hold any.
   */
  lemma MarkersNumeralFree()
    ensures NumeralFree(CurrencyMarkers, true)
    ensures NumeralFree(ChargeMarkers, false)
  {
  }

  lemma ParsePriceReadsNumerals(text: string)
    ensures ParsePrice(text) == if text == "" then None else ParseNumeral(NumericView(text))
  {
    if text != "" {
      MarkersNumeralFree();
      var c := DropAll(text, CurrencyMarkers);
      NumericViewDropAll(text, CurrencyMarkers);
      ReplaceCommaByDot(c);
      KeepNumericDropAll(CommaToDot(c), ChargeMarkers);
    }
  }

  lemma {:induction false} NumericViewOfDigits(s: string)
    requires OptDigits(s)
    ensures NumericView(s) == s
    decreases |s|
  {
    if |s| > 0 {
      NumericViewOfDigits(s[1..]);
      assert s == [s[0]] + s[1..];
      NumericViewAppend([s[0]], s[1..]);
    }
  }

  /** A whole amount followed by text without digits, dots or commas ("850 €", "850 € CC") reads as that amount. */
  lemma ParsePriceOfWholeAmount(n: nat, suffix: string)
    requires forall i :: 0 <= i < |suffix| ==> !IsDigit(suffix[i]) && suffix[i] != '.' && suffix[i] != ','
    ensures ParsePrice(NatToString(n) + suffix) == Some(n as real)
  {
    var d := NatToString(n);
    ParsePriceReadsNumerals(d + suffix);
    NumericViewAppend(d, suffix);
    NumericViewOfNoNumerals(suffix);
    NumericViewOfDigits(d);
    assert NumericView(d + suffix) == d;
    ParseDecimalOfNat(n);
  }

  lemma NumericViewOfDotted(a: string, b: string, c: string, suffix: string)
    requires OptDigits(a) && OptDigits(b) && OptDigits(c)
    requires forall i :: 0 <= i < |suffix| ==> !IsDigit(suffix[i]) && suffix[i] != '.' && suffix[i] != ','
    ensures NumericView(a + "." + b + "," + c + suffix) == a + "." + b + "." + c
  {
    NumericViewOfDigits(a);
    NumericViewOfDigits(b);
    NumericViewOfDigits(c);
    NumericViewOfNoNumerals(suffix);
    var t1 := a + ".";
    NumericViewAppend(a, ".");
    assert NumericView(t1) == t1;
    var t2 := t1 + b;
    NumericViewAppend(t1, b);
    var t3 := t2 + ",";
    NumericViewAppend(t2, ",");
    assert NumericView(t3) == t2 + ".";
    var t4 := t3 + c;
    NumericViewAppend(t3, c);
    NumericViewAppend(t4, suffix);
    assert NumericView(t4 + suffix) == t2 + "." + c;
  }

  /** A numeral with two dots is not a number. */
  lemma ParseDecimalTwoDots(a: string, b: string, c: string)
    requires OptDigits(a)
    ensures ParseDecimal(a + "." + b + "." + c) == None
  {
    var v := a + "." + b + "." + c;
    assert v[|a|] == '.';
    assert FirstIndexOf(v, '.') == |a|;
    assert v[|a| + 1..] == b + "." + c;
    assert (b + "." + c)[|b|] == '.';
  }

  /**
   * A French-style price with a thousands dot and a decimal comma
   * ("1.200,50 €") reads as two dots and gives no price.
   */
  lemma ParsePriceRejectsDottedThousands(a: string, b: string, c: string, suffix: string)
    requires AllDigits(a) && AllDigits(b) && AllDigits(c)
    requires forall i :: 0 <= i < |suffix| ==> !IsDigit(suffix[i]) && suffix[i] != '.' && suffix[i] != ','
    ensures ParsePrice(a + "." + b + "," + c + suffix) == None
  {
    var t := a + "." + b + "," + c + suffix;
    ParsePriceReadsNumerals(t);
    NumericViewOfDotted(a, b, c, suffix);
    ParseDecimalTwoDots(a, b, c);
  }

  /** `parse_area`: drop the square-metre units and spaces, keep digits and dots, then `float`. */
  function ParseArea(text: string): (r: Option<real>)
    ensures text == "" ==> r.None?
    ensures r.Some? ==> r.value >= 0.0
    ensures (forall i :: 0 <= i < |text| ==> !IsDigit(text[i])) ==> r.None?
  {
    if text == "" then None
    else
      var c := ReplaceAll(ReplaceAll(ReplaceAll(text, "m²", ""), "m2", ""), " ", "");
      NoDigitsAfterDrops(text);
      ParseNumeral(KeepNumeric(c))
  }

  /** A text without digits has none after the units and spaces are removed. */
  lemma NoDigitsAfterDrops(text: string)
    ensures (forall i :: 0 <= i < |text| ==> !IsDigit(text[i])) ==>
      var c := ReplaceAll(ReplaceAll(ReplaceAll(text, "m²", ""), "m2", ""), " ", "");
      ParseNumeral(KeepNumeric(c)).None?
  {
    if forall i :: 0 <= i < |text| ==> !IsDigit(text[i]) {
      var p := (ch: char) => !IsDigit(ch);
      var a := ReplaceAll(text, "m²", "");
      ReplaceAllKeeps(text, "m²", "", p);
      var b := ReplaceAll(a, "m2", "");
      ReplaceAllKeeps(a, "m2", "", p);
      ReplaceAllKeeps(b, " ", "", p);
      KeepNumericNoDigits(ReplaceAll(b, " ", ""));
      DotsAreNoNumber(KeepNumeric(ReplaceAll(b, " ", "")));
    }
  }

  /** Dots alone (".", "..") are not a number. */
  lemma DotsAreNoNumber(s: string)
    requires forall i :: 0 <= i < |s| ==> s[i] == '.'
    ensures ParseNumeral(s).None?
  {
    if s != [] {
      assert FirstIndexOf(s, '.') == 0;
      if |s| > 1 {
        assert s[1..][0] == '.';
      }
    }
  }

  lemma {:induction false} KeepNumericNoDigits(s: string)
    requires forall i :: 0 <= i < |s| ==> !IsDigit(s[i])
    ensures forall i :: 0 <= i < |KeepNumeric(s)| ==> KeepNumeric(s)[i] == '.'
    decreases |s|
  {
    if |s| > 0 {
      KeepNumericNoDigits(s[1..]);
    }
  }

  lemma {:induction false} KeepNumericOfDigits(s: string)
    requires OptDigits(s)
    ensures KeepNumeric(s) == s
    decreases |s|
  {
    if |s| > 0 {
      KeepNumericOfDigits(s[1..]);
    }
  }

  /** A whole area followed by either spelling of the unit reads as that area; the 2 of "m2" is not read as a digit. */
  lemma ParseAreaOfWholeAmount(n: nat)
    ensures ParseArea(NatToString(n) + " m²") == Some(n as real)
    ensures ParseArea(NatToString(n) + "m2") == Some(n as real)
  {
    var d := NatToString(n);
    assert forall i :: 0 <= i < |d| ==> IsDigit(d[i]);
    ReplaceAllSkip(d, " m²", "m²", "");
    assert ReplaceAll(" m²", "m²", "") == " ";
    ReplaceAllSkip(d, " ", "m2", "");
    assert ReplaceAll(" ", "m2", "") == " ";
    ReplaceAllSkip(d, " ", " ", "");
    assert ReplaceAll(" ", " ", "") == "";
    assert d + "" == d;
    ReplaceAllSkip(d, "m2", "m²", "");
    assert ReplaceAll("m2", "m²", "") == "m2";
    ReplaceAllSkip(d, "m2", "m2", "");
    assert ReplaceAll("m2", "m2", "") == "";
    ReplaceAllSkip(d, "", " ", "");
    assert ReplaceAll("", " ", "") == "";
    assert d + "" == d;
    KeepNumericOfDigits(d);
    ParseDecimalOfNat(n);
  }

  /** The room descriptions `parse_rooms` recognises, in the order it tries them. */
  const RoomMappings: seq<(string, int)> := [
    ("studio", 1),
    ("T1", 1), ("F1", 1), ("1 pièce", 1),
    ("T2", 2), ("F2", 2), ("2 pièces", 2),
    ("T3", 3), ("F3", 3), ("3 pièces", 3),
    ("T4", 4), ("F4", 4), ("4 pièces", 4),
    ("T5", 5), ("F5", 5), ("5 pièces", 5)]

  predicate ValuesWithin(table: seq<(string, int)>, lo: int, hi: int) {
    forall k :: 0 <= k < |table| ==> lo <= table[k].1 <= hi
  }

  /** Every recognised description stands for one to five rooms. */
  lemma RoomMappingsWithin()
    ensures ValuesWithin(RoomMappings, 1, 5)
  {
  }

  /** The value of the first entry of `table` from `i` on whose lowercased key occurs in `lowered`. */
  function FirstMappedRooms(lowered: string, table: seq<(string, int)>, i: nat): (r: Option<int>)
    requires i <= |table|
    ensures r.Some? ==> exists k :: i <= k < |table| && table[k].1 == r.value
    decreases |table| - i
  {
    if i == |table| then None
    else if Contains(lowered, Lower(table[i].0)) then Some(table[i].1)
    else FirstMappedRooms(lowered, table, i + 1)
  }

  /**
   * The room count of a text: the first recognised description, else the
   * first digit of the text (a single digit, so "10" reads as 1).
   */
  function RoomsOf(text: string): (r: Option<int>)
    ensures text == "" ==> r.None?
    ensures r.Some? ==> 0 <= r.value <= 9
    ensures text != "" && (exists i :: 0 <= i < |text| && IsDigit(text[i])) ==> r.Some?
  {
    if text == "" then None
    else
      RoomMappingsWithin();
      match FirstMappedRooms(Lower(text), RoomMappings, 0)
      case Some(v) => Some(v)
      case None =>
        var digits := KeepDigits(text);
        if digits == [] then None else Some(DigitValue(digits[0]))
  }

  /** `parse_rooms`: tries the descriptions in order and returns at the first that occurs. */
  method ParseRooms(text: string) returns (r: Option<int>)
    ensures r == RoomsOf(text)
  {
    if text == "" {
      return None;
    }
    var lowered := Lower(text);
    var i := 0;
    while i < |RoomMappings|
      invariant 0 <= i <= |RoomMappings|
      invariant FirstMappedRooms(lowered, RoomMappings, 0) == FirstMappedRooms(lowered, RoomMappings, i)
    {
      if Contains(lowered, Lower(RoomMappings[i].0)) {
        return Some(RoomMappings[i].1);
      }
      i := i + 1;
    }
    var numbers := KeepDigits(text);
    if numbers == [] {
      return None;
    }
    return Some(DigitValue(numbers[0]));
  }

  /** Every description has a non-digit among its first two characters. */
  lemma RoomKeysNotNumeric()
    ensures forall k :: 0 <= k < |RoomMappings| ==>
      |RoomMappings[k].0| >= 2 && (!IsDigit(RoomMappings[k].0[0]) || !IsDigit(RoomMappings[k].0[1]))
  {
  }

  /** Every character of a contained string occurs in the containing one. */
  lemma {:induction false} ContainsNeedsChar(s: string, p: string, j: nat)
    requires Contains(s, p) && j < |p|
    ensures p[j] in s
    decreases |s|
  {
    if !StartsWith(s, p) {
      ContainsNeedsChar(s[1..], p, j);
    } else {
      assert s[j] == p[j];
    }
  }

  lemma {:induction false} FirstMappedRoomsNone(lowered: string, table: seq<(string, int)>, i: nat)
    requires i <= |table|
    requires forall k :: i <= k < |table| ==> !Contains(lowered, Lower(table[k].0))
    ensures FirstMappedRooms(lowered, table, i) == None
    decreases |table| - i
  {
    if i < |table| {
      FirstMappedRoomsNone(lowered, table, i + 1);
    }
  }

  /** A text of digits alone matches no description and reads as its first digit: "10" is one room. */
  lemma RoomsOfDigits(text: string)
    requires AllDigits(text)
    ensures RoomsOf(text) == Some(DigitValue(text[0]))
  {
    var lowered := Lower(text);
    assert lowered == text;
    RoomKeysNotNumeric();
    forall k | 0 <= k < |RoomMappings| ensures !Contains(lowered, Lower(RoomMappings[k].0)) {
      var key := Lower(RoomMappings[k].0);
      var j := if !IsDigit(RoomMappings[k].0[0]) then 0 else 1;
      assert !IsDigit(key[j]);
      if Contains(lowered, key) {
        ContainsNeedsChar(lowered, key, j);
      }
    }
    FirstMappedRoomsNone(lowered, RoomMappings, 0);
  }

  // ---------------------------------------------------------------------------
  // Normalisation

  /** The abbreviations `_normalize_address` substitutes, in order. */
  const AddressAbbreviations: seq<(string, string)> := [
    ("rue", "r"), ("avenue", "av"), ("boulevard", "bd"), ("place", "pl"), ("square", "sq"),
    ("impasse", "imp"), ("passage", "pass"), ("allée", "all"), ("quai", "q")]

  /** The place names `_normalize_address` removes as whole words. */
  const PlaceNames: seq<string> := ["paris", "lyon", "marseille", "france"]

  /** The estate-agency words `_normalize_description` blanks out, in order. */
  const Jargon: seq<string> := [
    "appartement", "logement", "location", "louer", "disponible",
    "immédiatement", "libre", "contact", "visite", "dossier"]

  /** No table entry is empty, as `str.replace` with an empty pattern would insert everywhere. */
  lemma TablesHaveNoEmptyEntry()
    ensures forall k :: 0 <= k < |AddressAbbreviations| ==> AddressAbbreviations[k].0 != []
    ensures forall k :: 0 <= k < |Jargon| ==> Jargon[k] != []
  {
  }

  /** `s.replace(old, new)` for each pair of `table`, in order. */
  function ReplaceEach(s: string, table: seq<(string, string)>): string
    requires forall k :: 0 <= k < |table| ==> table[k].0 != []
    decreases |table|
  {
    if table == [] then s
    else
      var last := table[|table| - 1];
      ReplaceAll(ReplaceEach(s, table[..|table| - 1]), last.0, last.1)
  }

  /** `s.replace(word, ' ')` for each word of `words`, in order. */
  function BlankEach(s: string, words: seq<string>): string
    requires forall k :: 0 <= k < |words| ==> words[k] != []
    decreases |words|
  {
    if words == [] then s
    else ReplaceAll(BlankEach(s, words[..|words| - 1]), words[|words| - 1], " ")
  }

  /** `\b` at position `k` of `s`: a word character on exactly one side. */
  predicate WordBoundary(s: string, k: nat)
    requires k <= |s|
  {
    (k > 0 && IsWordChar(s[k - 1])) != (k < |s| && IsWordChar(s[k]))
  }

  /** The length of the word of `words` that `\b(w1|w2|…)\b` matches at position `i`, if any. */
  function WordMatchAt(s: string, i: nat, words: seq<string>): (r: Option<nat>)
    requires i <= |s|
    requires forall k :: 0 <= k < |words| ==> words[k] != []
    ensures r.Some? ==> 0 < r.value && i + r.value <= |s|
    decreases |words|
  {
    if words == [] then None
    else
      var w := words[0];
      if WordBoundary(s, i) && StartsWith(s[i..], w) && WordBoundary(s, i + |w|) then Some(|w|)
      else WordMatchAt(s, i, words[1..])
  }

  /** `re.sub(r'\b(w1|w2|…)\b', '', s)` on the part of `s` from `i`, boundaries read in `s`. */
  function RemoveWordsFrom(s: string, i: nat, words: seq<string>): string
    requires i <= |s|
    requires forall k :: 0 <= k < |words| ==> words[k] != []
    decreases |s| - i
  {
    if i == |s| then []
    else
      match WordMatchAt(s, i, words)
      case Some(n) => RemoveWordsFrom(s, i + n, words)
      case None => [s[i]] + RemoveWordsFrom(s, i + 1, words)
  }

  /** `\b\d{5}\b` matches at position `i`. */
  predicate PostalCodeAt(s: string, i: nat)
    requires i <= |s|
  {
    i + 5 <= |s| && WordBoundary(s, i) && (forall j :: i <= j < i + 5 ==> IsDigit(s[j])) && WordBoundary(s, i + 5)
  }

  /** `re.sub(r'\b\d{5}\b', '', s)` on the part of `s` from `i`. */
  function RemovePostalCodesFrom(s: string, i: nat): string
    requires i <= |s|
    decreases |s| - i
  {
    if i == |s| then []
    else if PostalCodeAt(s, i) then RemovePostalCodesFrom(s, i + 5)
    else [s[i]] + RemovePostalCodesFrom(s, i + 1)
  }

  /** `re.sub(r'[^\w\s]', ' ', s)`. */
  function BlankPunctuation(s: string): (r: string)
    ensures |r| == |s|
    ensures forall i :: 0 <= i < |r| ==> IsWordChar(r[i]) || IsSpace(r[i])
  {
    seq(|s|, i requires 0 <= i < |s| => if IsWordChar(s[i]) || IsSpace(s[i]) then s[i] else ' ')
  }

  /** `re.sub(r'\s+', ' ', s)`: each run of whitespace becomes one space. */
  function CollapseSpaces(s: string): (r: string)
    ensures forall i :: 0 <= i < |r| - 1 ==> !(r[i] == ' ' && r[i + 1] == ' ')
    ensures s != [] ==> r != [] && (r[0] == ' ' <==> IsSpace(s[0]))
    ensures (forall i :: 0 <= i < |s| ==> IsWordChar(s[i]) || IsSpace(s[i])) ==>
      forall i :: 0 <= i < |r| ==> IsWordChar(r[i]) || r[i] == ' '
    decreases |s|
  {
    if |s| == 0 then []
    else if IsSpace(s[0]) then [' '] + CollapseSpaces(s[LeadingSpaces(s)..])
    else [s[0]] + CollapseSpaces(s[1..])
  }

  /** Word characters and single spaces, with no space at either end: what both normalisers return. */
  predicate SingleSpaced(r: string) {
    (forall i :: 0 <= i < |r| ==> IsWordChar(r[i]) || r[i] == ' ')
    && (forall i :: 0 <= i < |r| - 1 ==> !(r[i] == ' ' && r[i + 1] == ' '))
    && (r != [] ==> r[0] != ' ' && r[|r| - 1] != ' ')
  }

  /** Stripping a string of word characters and single spaces leaves no space at its ends. */
  lemma StripSingleSpaced(c: string)
    requires forall i :: 0 <= i < |c| ==> IsWordChar(c[i]) || c[i] == ' '
    requires forall i :: 0 <= i < |c| - 1 ==> !(c[i] == ' ' && c[i + 1] == ' ')
    ensures SingleSpaced(Strip(c))
  {
    var a := LeadingSpaces(c);
    if a < |c| {
      var t := c[a..StripEnd(c)];
      assert Strip(c) == t;
      assert forall i :: 0 <= i < |t| ==> t[i] == c[a + i];
    }
  }

  /** The last two steps of both normalisers: punctuation to spaces, then whitespace collapsed and stripped. */
  function Clean(s: string): (r: string)
    ensures SingleSpaced(r)
  {
    var c := CollapseSpaces(BlankPunctuation(s));
    StripSingleSpaced(c);
    Strip(c)
  }

  /** `_normalize_address`, as a value. */
  function NormalizedAddress(address: string): (r: string)
    ensures address == "" ==> r == ""
    ensures SingleSpaced(r)
  {
    if address == "" then ""
    else
      TablesHaveNoEmptyEntry();
      var replaced := ReplaceEach(Strip(Lower(address)), AddressAbbreviations);
      var noPlaces := RemoveWordsFrom(replaced, 0, PlaceNames);
      Clean(RemovePostalCodesFrom(noPlaces, 0))
  }

  /** `_normalize_address`: lowercase and strip, substitute the abbreviations one after another, then the regular expressions. */
  method NormalizeAddress(address: string) returns (r: string)
    ensures r == NormalizedAddress(address)
  {
    if address == "" {
      return "";
    }
    TablesHaveNoEmptyEntry();
    var normalized := Strip(Lower(address));
    ghost var start := normalized;
    var i := 0;
    while i < |AddressAbbreviations|
      invariant 0 <= i <= |AddressAbbreviations|
      invariant normalized == ReplaceEach(start, AddressAbbreviations[..i])
    {
      assert AddressAbbreviations[..i + 1][..i] == AddressAbbreviations[..i];
      normalized := ReplaceAll(normalized, AddressAbbreviations[i].0, AddressAbbreviations[i].1);
      i := i + 1;
    }
    assert AddressAbbreviations[..i] == AddressAbbreviations;
    normalized := RemoveWordsFrom(normalized, 0, PlaceNames);
    normalized := RemovePostalCodesFrom(normalized, 0);
    r := Clean(normalized);
  }

  /** `_normalize_description`, as a value. */
  function NormalizedDescription(description: string): (r: string)
    ensures description == "" ==> r == ""
    ensures SingleSpaced(r)
  {
    if description == "" then ""
    else
      TablesHaveNoEmptyEntry();
      Clean(BlankEach(Strip(Lower(description)), Jargon))
  }

  /** `_normalize_description`: lowercase and strip, blank out each jargon word in turn, then clean up. */
  method NormalizeDescription(description: string) returns (r: string)
    ensures r == NormalizedDescription(description)
  {
    if description == "" {
      return "";
    }
    TablesHaveNoEmptyEntry();
    var normalized := Strip(Lower(description));
    ghost var start := normalized;
    var i := 0;
    while i < |Jargon|
      invariant 0 <= i <= |Jargon|
      invariant normalized == BlankEach(start, Jargon[..i])
    {
      assert Jargon[..i + 1][..i] == Jargon[..i];
      normalized := ReplaceAll(normalized, Jargon[i], " ");
      i := i + 1;
    }
    assert Jargon[..i] == Jargon;
    r := Clean(normalized);
  }

  // ---------------------------------------------------------------------------
  // Similarity

  function ToSet(xs: seq<string>): set<string> {
    set x | x in xs
  }

  /** The bonus for shared numbers (0.1) and shared words (0.1 each, at most 0.3) of two normalised addresses. */
  function AddressBonus(n1: string, n2: string): (r: real)
    ensures 0.0 <= r <= 0.4
  {
    var nums1, nums2 := ToSet(DigitRuns(n1)), ToSet(DigitRuns(n2));
    var numberBonus := if nums1 != {} && nums2 != {} && nums1 * nums2 != {} then 0.1 else 0.0;
    var common := ToSet(Words(n1)) * ToSet(Words(n2));
    var wordBonus := if common != {} then Min(0.3, |common| as real * 0.1) else 0.0;
    numberBonus + wordBonus
  }

  lemma AddressBonusSymmetric(n1: string, n2: string)
    ensures AddressBonus(n1, n2) == AddressBonus(n2, n1)
  {
    assert ToSet(DigitRuns(n1)) * ToSet(DigitRuns(n2)) == ToSet(DigitRuns(n2)) * ToSet(DigitRuns(n1));
    assert ToSet(Words(n1)) * ToSet(Words(n2)) == ToSet(Words(n2)) * ToSet(Words(n1));
  }

  /**
   * `_calculate_address_similarity`: the fuzzy ratio of the normalised
   * addresses plus the bonus, capped at 1.
   */
  function AddressScore(a1: string, a2: string, fuzzy: Fuzzy): (r: real)
    ensures 0.0 <= r <= 1.0
    ensures a1 == "" || a2 == "" ==> r == 0.0
    ensures a1 != "" && a2 != "" ==>
      r >= Min(1.0, fuzzy.ratio(NormalizedAddress(a1), NormalizedAddress(a2)) as real / 100.0)
    ensures a1 != "" && a2 != "" ==>
      r == Min(1.0, fuzzy.ratio(NormalizedAddress(a1), NormalizedAddress(a2)) as real / 100.0
                    + AddressBonus(NormalizedAddress(a1), NormalizedAddress(a2)))
    ensures a1 != "" && a2 != "" ==>
      r <= fuzzy.ratio(NormalizedAddress(a1), NormalizedAddress(a2)) as real / 100.0 + 0.4
  {
    if a1 == "" || a2 == "" then 0.0
    else
      var n1, n2 := NormalizedAddress(a1), NormalizedAddress(a2);
      Min(1.0, fuzzy.ratio(n1, n2) as real / 100.0 + AddressBonus(n1, n2))
  }

  /** With a symmetric ratio the address score does not depend on the order of the addresses. */
  lemma AddressScoreSymmetric(a1: string, a2: string, fuzzy: Fuzzy)
    requires fuzzy.ratio(NormalizedAddress(a1), NormalizedAddress(a2)) == fuzzy.ratio(NormalizedAddress(a2), NormalizedAddress(a1))
    ensures AddressScore(a1, a2, fuzzy) == AddressScore(a2, a1, fuzzy)
  {
    AddressBonusSymmetric(NormalizedAddress(a1), NormalizedAddress(a2));
  }

  /** An address whose normalised form the ratio scores 100 against itself has score 1 against itself. */
  lemma AddressScoreOfItself(a: string, fuzzy: Fuzzy)
    requires a != ""
    requires fuzzy.ratio(NormalizedAddress(a), NormalizedAddress(a)) == 100
    ensures AddressScore(a, a, fuzzy) == 1.0
  {
  }

  /** `_calculate_description_similarity`: the token-sort ratio of the normalised descriptions, as a fraction. */
  function DescriptionScore(d1: string, d2: string, fuzzy: Fuzzy): (r: real)
    ensures 0.0 <= r <= 1.0
    ensures d1 == "" || d2 == "" ==> r == 0.0
  {
    if d1 == "" || d2 == "" then 0.0
    else fuzzy.tokenSortRatio(NormalizedDescription(d1), NormalizedDescription(d2)) as real / 100.0
  }

  /** Python truthiness of an optional number: present and non-zero. */
  predicate Known(x: Option<real>) { x.Some? && x.value != 0.0 }

  predicate KnownInt(x: Option<int>) { x.Some? && x.value != 0 }

  /**
   * `_exact_specs_match`: price within the threshold, the same room count and
   * an area within 10% of the stored one, each checked only when both sides
   * know (and are non-zero in) that figure.
   */
  function ExactSpecsMatch(data: ListingData, existing: Property, priceThreshold: int): (r: bool)
    ensures ParsePrice(data.price).None? && RoomsOf(data.rooms).None? && ParseArea(data.area).None? ==> r
    ensures r <==>
      && !(Known(ParsePrice(data.price)) && Known(existing.price)
           && Abs(ParsePrice(data.price).value - existing.price.value) > priceThreshold as real)
      && !(KnownInt(RoomsOf(data.rooms)) && KnownInt(existing.rooms) && RoomsOf(data.rooms) != existing.rooms)
      && !(Known(ParseArea(data.area)) && Known(existing.area)
           && Abs(ParseArea(data.area).value - existing.area.value) > existing.area.value * 0.1)
  {
    var newPrice, newRooms, newArea := ParsePrice(data.price), RoomsOf(data.rooms), ParseArea(data.area);
    if Known(newPrice) && Known(existing.price) && Abs(newPrice.value - existing.price.value) > priceThreshold as real then false
    else if KnownInt(newRooms) && KnownInt(existing.rooms) && newRooms.value != existing.rooms.value then false
    else if Known(newArea) && Known(existing.area) && Abs(newArea.value - existing.area.value) > existing.area.value * 0.1 then false
    else true
  }

  /** A listing whose figures parse to exactly the stored ones matches them, whatever the (non-negative) threshold. */
  lemma SameFiguresMatch(data: ListingData, existing: Property, priceThreshold: int)
    requires priceThreshold >= 0
    requires ParsePrice(data.price) == existing.price && RoomsOf(data.rooms) == existing.rooms
    requires ParseArea(data.area) == existing.area
    ensures ExactSpecsMatch(data, existing, priceThreshold)
  {
  }

  /** `description or title`, for a listing and for a stored row. */
  function DescriptionOrTitle(description: string, title: string): string {
    if description != "" then description else title
  }

  /**
   * `_is_same_property`: a close address; or a fairly close one (over 0.6)
   * with a close description; or a somewhat close one (over 0.4) with
   * matching figures.
   */
  function IsSameProperty(data: ListingData, existing: Property, det: Detector): (r: bool)
    ensures AddressScore(data.address, existing.address, det.fuzzy) > det.addressThreshold ==> r
    ensures (AddressScore(data.address, existing.address, det.fuzzy) <= 0.4
      && AddressScore(data.address, existing.address, det.fuzzy) <= det.addressThreshold) ==> !r
    ensures data.address == "" || existing.address == "" ==> (r <==> det.addressThreshold < 0.0)
    ensures var s := AddressScore(data.address, existing.address, det.fuzzy);
      0.4 < s <= 0.6 && s <= det.addressThreshold ==> (r <==> ExactSpecsMatch(data, existing, det.priceThreshold))
    ensures var s := AddressScore(data.address, existing.address, det.fuzzy);
      0.6 < s <= det.addressThreshold ==>
        (r <==> DescriptionScore(DescriptionOrTitle(data.description, data.title),
                                 DescriptionOrTitle(existing.description, existing.title), det.fuzzy) > det.descriptionThreshold
                || ExactSpecsMatch(data, existing, det.priceThreshold))
  {
    var address := AddressScore(data.address, existing.address, det.fuzzy);
    if address > det.addressThreshold then true
    else if address > 0.6
      && DescriptionScore(DescriptionOrTitle(data.description, data.title),
                          DescriptionOrTitle(existing.description, existing.title), det.fuzzy) > det.descriptionThreshold
    then true
    else address > 0.4 && ExactSpecsMatch(data, existing, det.priceThreshold)
  }

  /** A listing always counts as the same property as a stored row with the same address (under a threshold below 1). */
  lemma SameAddressIsSameProperty(data: ListingData, existing: Property, det: Detector)
    requires existing.address == data.address != ""
    requires det.fuzzy.ratio(NormalizedAddress(data.address), NormalizedAddress(data.address)) == 100
    requires det.addressThreshold < 1.0
    ensures IsSameProperty(data, existing, det)
  {
    AddressScoreOfItself(data.address, det.fuzzy);
  }

  // ---------------------------------------------------------------------------
  // Database look-ups

  /**
   * The row filter of both queries: a city containing the searched one
   * (SQLite `LIKE '%city%'`, case-insensitive on ASCII), a price within
   * `width` of the listing's and still available.
   */
  predicate InRange(p: Property, price: real, city: string, width: real) {
    Contains(LowerAscii(p.city), LowerAscii(city))
    && p.price.Some? && price - width <= p.price.value <= price + width
    && p.stillAvailable == Some(true)
  }

  /** The rows `InRange` selects, in table order. */
  function Candidates(rows: seq<Property>, price: real, city: string, width: real): (cs: seq<Property>)
    ensures |cs| <= |rows|
    ensures forall p :: p in cs <==> p in rows && InRange(p, price, city, width)
    decreases |rows|
  {
    if rows == [] then []
    else
      var rest := Candidates(rows[1..], price, city, width);
      assert forall p :: p in rows <==> p == rows[0] || p in rows[1..];
      if InRange(rows[0], price, city, width) then [rows[0]] + rest else rest
  }

  /** The city a listing is searched under: `data.get('city', '').strip().lower()`. */
  function SearchCity(data: ListingData): string {
    Lower(Strip(data.city))
  }

  /** The listing has a price and a city, the two things both queries need (`if not price or not city`). */
  predicate Searchable(data: ListingData) {
    Known(ParsePrice(data.price)) && SearchCity(data) != ""
  }

  function ListingPrice(data: ListingData): real
    requires Searchable(data)
  {
    ParsePrice(data.price).value
  }

  /** The price range `is_duplicate` searches: the threshold either side. */
  function DuplicateWidth(det: Detector): real {
    det.priceThreshold as real
  }

  /** The price range `find_similar_properties` searches: twice the threshold either side. */
  function SimilarWidth(det: Detector): real {
    (det.priceThreshold * 2) as real
  }

  /** Some stored row in range is the same property as the listing (the listing must have a price and a city). */
  predicate HasDuplicate(data: ListingData, rows: seq<Property>, det: Detector) {
    Searchable(data)
    && exists k :: 0 <= k < |rows| && InRange(rows[k], ListingPrice(data), SearchCity(data), DuplicateWidth(det))
                   && IsSameProperty(data, rows[k], det)
  }

  /** A row in range satisfies `same` exactly when some row the query returns does. */
  lemma ExistsAmongCandidates(rows: seq<Property>, price: real, city: string, width: real, same: Property -> bool)
    ensures (exists k :: 0 <= k < |rows| && InRange(rows[k], price, city, width) && same(rows[k]))
        <==> (exists j :: 0 <= j < |Candidates(rows, price, city, width)| && same(Candidates(rows, price, city, width)[j]))
  {
    RangeInCandidates(rows, price, city, width, same);
    CandidatesInRange(rows, price, city, width, same);
  }

  lemma RangeInCandidates(rows: seq<Property>, price: real, city: string, width: real, same: Property -> bool)
    ensures (exists k :: 0 <= k < |rows| && InRange(rows[k], price, city, width) && same(rows[k]))
      ==> (exists j :: 0 <= j < |Candidates(rows, price, city, width)| && same(Candidates(rows, price, city, width)[j]))
  {
    var cs := Candidates(rows, price, city, width);
    if exists k :: 0 <= k < |rows| && InRange(rows[k], price, city, width) && same(rows[k]) {
      var k :| 0 <= k < |rows| && InRange(rows[k], price, city, width) && same(rows[k]);
      var p := rows[k];
      assert p in rows;
      assert p in cs;
      var j :| 0 <= j < |cs| && cs[j] == p;
      assert same(cs[j]);
    }
  }

  lemma CandidatesInRange(rows: seq<Property>, price: real, city: string, width: real, same: Property -> bool)
    ensures (exists j :: 0 <= j < |Candidates(rows, price, city, width)| && same(Candidates(rows, price, city, width)[j]))
      ==> (exists k :: 0 <= k < |rows| && InRange(rows[k], price, city, width) && same(rows[k]))
  {
    var cs := Candidates(rows, price, city, width);
    if exists j :: 0 <= j < |cs| && same(cs[j]) {
      var j :| 0 <= j < |cs| && same(cs[j]);
      var p := cs[j];
      assert p in cs;
      assert p in rows && InRange(p, price, city, width);
      var k :| 0 <= k < |rows| && rows[k] == p;
      assert InRange(rows[k], price, city, width) && same(rows[k]);
    }
  }

  /** The loop of `is_duplicate`: compare the rows one by one and stop at the first that `same` accepts. */
  method AnyMatch(cs: seq<Property>, same: Property -> bool) returns (found: bool)
    ensures found <==> exists j :: 0 <= j < |cs| && same(cs[j])
  {
    var i := 0;
    while i < |cs|
      invariant 0 <= i <= |cs|
      invariant forall k :: 0 <= k < i ==> !same(cs[k])
    {
      if same(cs[i]) {
        return true;
      }
      i := i + 1;
    }
    return false;
  }

  /** `is_duplicate`: query the rows in range, then compare them one by one, stopping at the first match. */
  method IsDuplicate(data: ListingData, rows: seq<Property>, det: Detector) returns (dup: bool)
    ensures dup <==> HasDuplicate(data, rows, det)
  {
    if !Searchable(data) {
      return false;
    }
    var same := (p: Property) => IsSameProperty(data, p, det);
    var candidates := Candidates(rows, ListingPrice(data), SearchCity(data), DuplicateWidth(det));
    ExistsAmongCandidates(rows, ListingPrice(data), SearchCity(data), DuplicateWidth(det), same);
    dup := AnyMatch(candidates, same);
  }

  /** A listing without a city is never a duplicate, whatever is stored. */
  lemma NoCityNoDuplicate(data: ListingData, rows: seq<Property>, det: Detector)
    requires SearchCity(data) == ""
    ensures !HasDuplicate(data, rows, det)
  {
  }

  /** A duplicate always rests on a stored row whose address scores over 0.4, when the address threshold is at least 0.4. */
  lemma DuplicateNeedsCloseAddress(data: ListingData, rows: seq<Property>, det: Detector)
    requires det.addressThreshold >= 0.4
    requires HasDuplicate(data, rows, det)
    ensures exists k :: 0 <= k < |rows| && AddressScore(data.address, rows[k].address, det.fuzzy) > 0.4
  {
  }

  /**
   * `find_similar_properties`: at most `limit` rows in the doubled price
   * range, in table order; nothing for a listing without a price or a city.
   */
  function FindSimilarProperties(data: ListingData, rows: seq<Property>, det: Detector, limit: nat := 5): (r: seq<Property>)
    ensures |r| <= limit
    ensures !Searchable(data) ==> r == []
    ensures Searchable(data) ==>
      forall p :: p in r ==> p in rows && InRange(p, ListingPrice(data), SearchCity(data), SimilarWidth(det))
    ensures (Searchable(data) && |Candidates(rows, ListingPrice(data), SearchCity(data), SimilarWidth(det))| <= limit) ==>
      forall p :: p in rows && InRange(p, ListingPrice(data), SearchCity(data), SimilarWidth(det)) ==> p in r
    ensures Searchable(data) ==>
      var cs := Candidates(rows, ListingPrice(data), SearchCity(data), SimilarWidth(det));
      r == cs[..if limit <= |cs| then limit else |cs|]
  {
    if !Searchable(data) then []
    else
      var cs := Candidates(rows, ListingPrice(data), SearchCity(data), SimilarWidth(det));
      if |cs| <= limit then cs
      else
        assert forall p :: p in cs[..limit] ==> p in cs;
        cs[..limit]
  }

  /** Every row `is_duplicate` compares against is one `find_similar_properties` may return. */
  lemma DuplicateRangeWithinSimilarRange(p: Property, price: real, city: string, det: Detector)
    requires det.priceThreshold >= 0
    requires InRange(p, price, city, DuplicateWidth(det))
    ensures InRange(p, price, city, SimilarWidth(det))
  {
  }
}
