// Identifier and check-digit generation, and the types shared by the
// drawing components (src/shared.ts).

module Shared {

  datatype Option<T> = None | Some(value: T)

  /** An offset in page coordinates; DOM coordinates are abstracted to integers. */
  datatype Point = Point(x: int, y: int)

  function Add(p: Point, q: Point): Point { Point(p.x + q.x, p.y + q.y) }

  function Sub(p: Point, q: Point): Point { Point(p.x - q.x, p.y - q.y) }

  /**
   * The pointer's offset from an element's top-left corner, in page
   * coordinates: the element's viewport bounds plus the scroll position give
   * its page position, and the offset is what the pointer adds to it.
   */
  function GrabOffset(page: Point, bounds: Point, scroll: Point): (offset: Point)
    ensures Add(Add(bounds, scroll), offset) == page
  {
    Point(page.x - (bounds.x + scroll.x), page.y - (bounds.y + scroll.y))
  }

  /**
   * A rendered DOM element that can be dragged. Only the inline
   * `style.left` / `style.top` that a drag writes are modelled, in pixels.
   */
  class Element {
    var left: int
    var top: int

    constructor (left: int, top: int)
      ensures this.left == left && this.top == top
    {
      this.left := left;
      this.top := top;
    }
  }

  /** What a pointer-down on a draggable element reports: the element and the grab offset. */
  datatype ElementClickData = ElementClickData(element: Element, offset: Point)

  // ---------------------------------------------------------------------------
  // Decimal digits

  type Digit = d: int | 0 <= d <= 9

  predicate IsDigitChar(c: char) { '0' <= c <= '9' }

  predicate AllDigits(s: string) { forall i :: 0 <= i < |s| ==> IsDigitChar(s[i]) }

  function DigitValue(c: char): Digit
    requires IsDigitChar(c)
  {
    c as int - '0' as int
  }

  /** The one-character decimal rendering of a digit, `${d}`. */
  function DigitChar(d: Digit): (c: char)
    ensures IsDigitChar(c) && DigitValue(c) == d
  {
    ('0' as int + d) as char
  }

  // ---------------------------------------------------------------------------
  // The arithmetic of eanCheckDigit

  /** A JavaScript number, as far as the check-digit loop needs one. */
  datatype JsNumber = Finite(value: int) | NaN

  function Plus(a: JsNumber, b: JsNumber): JsNumber
  {
    if a.Finite? && b.Finite? then Finite(a.value + b.value) else NaN
  }

  function Times(a: JsNumber, b: JsNumber): JsNumber
  {
    if a.Finite? && b.Finite? then Finite(a.value * b.value) else NaN
  }

  /** `parseInt(c, 10)` on a one-character string: its digit, or NaN. */
  function ParseDigit(c: char): (n: JsNumber)
    ensures n.Finite? <==> IsDigitChar(c)
  {
    if IsDigitChar(c) then Finite(DigitValue(c)) else NaN
  }

  /** Weight of index `i` in a text of length `len`: 3 at odd distance from the end, else 1. */
  function Weight(len: int, i: int): (w: int)
    requires i < len
    ensures w == 1 || w == 3
  {
    if (len - i) % 2 == 1 then 3 else 1
  }

  /** The value of `sum` after the loop of eanCheckDigit has visited the first `k` characters. */
  function PrefixSum(text: string, k: nat): (n: JsNumber)
    requires k <= |text|
    ensures n.Finite? ==> n.value >= 0
  {
    if k == 0 then Finite(0)
    else Plus(PrefixSum(text, k - 1), Times(Finite(Weight(|text|, k - 1)), ParseDigit(text[k - 1])))
  }

  /**
   * The GS1 weighted sum, stated independently of the loop: the rightmost
   * digit weighs `w` and the weights alternate between 3 and 1 leftwards.
   */
  function Gs1Sum(s: string, w: int): int
    requires AllDigits(s)
    decreases |s|
  {
    if s == [] then 0 else w * DigitValue(s[|s| - 1]) + Gs1Sum(s[..|s| - 1], 4 - w)
  }

  /** The weight the loop gives the last of the first `k` characters. */
  function LastWeight(len: int, k: int): int
  {
    if (len - k) % 2 == 0 then 3 else 1
  }

  /**
   * The loop's left-to-right sum with weights taken from the distance to the
   * end of the whole text is NaN exactly when a non-digit was met, and
   * otherwise equals the GS1 right-to-left sum of the prefix.
   */
  lemma {:induction false} PrefixSumIsGs1Sum(text: string, k: nat)
    requires k <= |text|
    ensures PrefixSum(text, k).Finite? <==> AllDigits(text[..k])
    ensures AllDigits(text[..k]) ==> PrefixSum(text, k).value == Gs1Sum(text[..k], LastWeight(|text|, k))
  {
    if k > 0 {
      PrefixSumIsGs1Sum(text, k - 1);
      var p := text[..k];
      assert p[..k - 1] == text[..k - 1];
      assert p[k - 1] == text[k - 1];
      if AllDigits(p) {
        assert AllDigits(text[..k - 1]);
        assert Weight(|text|, k - 1) == LastWeight(|text|, k);
        assert k > 1 ==> 4 - LastWeight(|text|, k) == LastWeight(|text|, k - 1);
      } else {
        var j :| 0 <= j < k && !IsDigitChar(p[j]);
        if j < k - 1 {
          assert !IsDigitChar(text[..k - 1][j]);
        }
      }
    }
  }

  /** `Math.ceil(a / b)` for a non-negative integer `a` and positive `b`. */
  function CeilDiv(a: nat, b: int): (q: nat)
    requires b > 0
    ensures b * (q - 1) < a <= b * q
  {
    (a + b - 1) / b
  }

  /**
   * `Math.ceil(sum / 10) * 10 - sum`: the digit that brings `sum` up to the
   * next multiple of ten; it is 0 exactly when `sum` already is one, and it
   * equals the textbook `(10 - sum mod 10) mod 10`.
   */
  function CheckValue(sum: nat): (c: Digit)
    ensures (sum + c) % 10 == 0
    ensures c == 0 <==> sum % 10 == 0
    ensures c == (10 - sum % 10) % 10
  {
    CeilDiv(sum, 10) * 10 - sum
  }

  /**
   * What `eanCheckDigit(text)` returns: one decimal digit that completes the
   * GS1 sum of the text to a multiple of ten, or the string "NaN" when the
   * text holds a character that is not a decimal digit.
   */
  function EanCheck(text: string): (r: string)
    ensures AllDigits(text) ==> |r| == 1 && IsDigitChar(r[0])
    ensures AllDigits(text) ==> (Gs1Sum(text, 3) + DigitValue(r[0])) % 10 == 0
    ensures !AllDigits(text) ==> r == "NaN"
  {
    PrefixSumIsGs1Sum(text, |text|);
    assert text[..|text|] == text;
    match PrefixSum(text, |text|)
    case NaN => "NaN"
    case Finite(sum) =>
      assert (Gs1Sum(text, 3) + CheckValue(sum)) % 10 == 0;
      [DigitChar(CheckValue(sum))]
  }

  /** A complete GS1 code (payload and check digit): its GS1 sum, the check digit weighing 1, is a multiple of ten. */
  predicate EanValid(code: string)
  {
    |code| >= 1 && AllDigits(code) && Gs1Sum(code, 1) % 10 == 0
  }

  /**
   * Appending a digit to a digit payload makes a valid code exactly when
   * that digit is the payload's check digit: the check digit round-trips,
   * and no other digit does.
   */
  lemma CheckDigitIsTheOnlyValidDigit(text: string, c: char)
    requires AllDigits(text) && IsDigitChar(c)
    ensures EanValid(text + [c]) <==> EanCheck(text) == [c]
  {
    var code := text + [c];
    assert code[..|code| - 1] == text;
    assert Gs1Sum(code, 1) == DigitValue(c) + Gs1Sum(text, 3);
    var r := EanCheck(text);
    if DigitValue(c) != DigitValue(r[0]) {
      assert c != r[0];
    }
  }

  /** The EAN-13 example of GS1: 400638133393 has check digit 1. */
  lemma Ean13Example()
    ensures EanCheck("400638133393") == "1"
  {
    var s := "400638133393";
    assert |s| == 12;
    assert PrefixSum(s, 1) == Finite(4) by {
      assert s[0] == '4' && Weight(12, 0) == 1;
    }
    assert PrefixSum(s, 2) == Finite(4) by {
      assert s[1] == '0' && Weight(12, 1) == 3;
    }
    assert PrefixSum(s, 3) == Finite(4) by {
      assert s[2] == '0' && Weight(12, 2) == 1;
    }
    assert PrefixSum(s, 4) == Finite(22) by {
      assert s[3] == '6' && Weight(12, 3) == 3;
    }
    assert PrefixSum(s, 5) == Finite(25) by {
      assert s[4] == '3' && Weight(12, 4) == 1;
    }
    assert PrefixSum(s, 6) == Finite(49) by {
      assert s[5] == '8' && Weight(12, 5) == 3;
    }
    assert PrefixSum(s, 7) == Finite(50) by {
      assert s[6] == '1' && Weight(12, 6) == 1;
    }
    assert PrefixSum(s, 8) == Finite(59) by {
      assert s[7] == '3' && Weight(12, 7) == 3;
    }
    assert PrefixSum(s, 9) == Finite(62) by {
      assert s[8] == '3' && Weight(12, 8) == 1;
    }
    assert PrefixSum(s, 10) == Finite(71) by {
      assert s[9] == '3' && Weight(12, 9) == 3;
    }
    assert PrefixSum(s, 11) == Finite(80) by {
      assert s[10] == '9' && Weight(12, 10) == 1;
    }
    assert PrefixSum(s, 12) == Finite(89) by {
      assert s[11] == '3' && Weight(12, 11) == 3;
    }
    assert CheckValue(89) == 1;
    assert DigitChar(1) == '1';
  }

  /** The all-ones EAN-13 payload 411111111111 has check digit 3. */
  lemma AllOnesExample()
    ensures EanCheck("411111111111") == "3"
  {
    var s := "411111111111";
    assert |s| == 12;
    assert PrefixSum(s, 1) == Finite(4) by {
      assert s[0] == '4' && Weight(12, 0) == 1;
    }
    assert PrefixSum(s, 2) == Finite(7) by {
      assert s[1] == '1' && Weight(12, 1) == 3;
    }
    assert PrefixSum(s, 3) == Finite(8) by {
      assert s[2] == '1' && Weight(12, 2) == 1;
    }
    assert PrefixSum(s, 4) == Finite(11) by {
      assert s[3] == '1' && Weight(12, 3) == 3;
    }
    assert PrefixSum(s, 5) == Finite(12) by {
      assert s[4] == '1' && Weight(12, 4) == 1;
    }
    assert PrefixSum(s, 6) == Finite(15) by {
      assert s[5] == '1' && Weight(12, 5) == 3;
    }
    assert PrefixSum(s, 7) == Finite(16) by {
      assert s[6] == '1' && Weight(12, 6) == 1;
    }
    assert PrefixSum(s, 8) == Finite(19) by {
      assert s[7] == '1' && Weight(12, 7) == 3;
    }
    assert PrefixSum(s, 9) == Finite(20) by {
      assert s[8] == '1' && Weight(12, 8) == 1;
    }
    assert PrefixSum(s, 10) == Finite(23) by {
      assert s[9] == '1' && Weight(12, 9) == 3;
    }
    assert PrefixSum(s, 11) == Finite(24) by {
      assert s[10] == '1' && Weight(12, 10) == 1;
    }
    assert PrefixSum(s, 12) == Finite(27) by {
      assert s[11] == '1' && Weight(12, 11) == 3;
    }
    assert CheckValue(27) == 3;
    assert DigitChar(3) == '3';
  }

  // ---------------------------------------------------------------------------
  // The operations of src/shared.ts

  /** eanCheckDigit: sums the weighted digits in one pass, left to right. */
  method EanCheckDigit(text: string) returns (r: string)
    ensures r == EanCheck(text)
    ensures AllDigits(text) ==> |r| == 1 && EanValid(text + r)
    ensures !AllDigits(text) ==> r == "NaN"
  {
    var len := |text|;
    var sum := Finite(0);
    for i := 0 to len
      invariant sum == PrefixSum(text, i)
    {
      var ch := ParseDigit(text[i]);
      var n := ch;
      var weight := if (len - i) % 2 == 1 then 3 else 1;
      sum := Plus(sum, Times(Finite(weight), n));
    }
    match sum {
      case NaN =>
        r := "NaN";
      case Finite(s) =>
        var check := CeilDiv(s, 10) * 10 - s;
        r := [DigitChar(check)];
        if AllDigits(text) {
          CheckDigitIsTheOnlyValidDigit(text, r[0]);
        }
    }
  }

  /** generateRandomNumber: one `random(0, 9)` per character; `draws` are the values it returns. */
  method GenerateRandomNumber(n: nat, draws: seq<Digit>) returns (snr: string)
    requires |draws| == n
    ensures |snr| == n && AllDigits(snr)
    ensures forall i :: 0 <= i < n ==> DigitValue(snr[i]) == draws[i]
  {
    snr := "";
    for i := 0 to n
      invariant |snr| == i && AllDigits(snr)
      invariant forall j :: 0 <= j < i ==> DigitValue(snr[j]) == draws[j]
    {
      snr := snr + [DigitChar(draws[i])];
    }
  }

  /** generateEanCheckDigit: the text followed by its check digit. */
  method GenerateEanCheckDigit(text: string) returns (code: string)
    ensures code == text + EanCheck(text)
    ensures AllDigits(text) ==> |code| == |text| + 1 && EanValid(code)
  {
    var check := EanCheckDigit(text);
    code := text + check;
  }

  /** generateEAN13: twelve random digits and their check digit. */
  method GenerateEan13(draws: seq<Digit>) returns (code: string)
    requires |draws| == 12
    ensures |code| == 13 && AllDigits(code) && EanValid(code)
    ensures code == code[..12] + EanCheck(code[..12])
    ensures forall i :: 0 <= i < 12 ==> DigitValue(code[i]) == draws[i]
  {
    var payload := GenerateRandomNumber(12, draws);
    code := GenerateEanCheckDigit(payload);
    assert code[..12] == payload;
  }

  /** generateUPC: eleven random digits and their check digit (UPC-A). */
  method GenerateUpc(draws: seq<Digit>) returns (code: string)
    requires |draws| == 11
    ensures |code| == 12 && AllDigits(code) && EanValid(code)
    ensures code == code[..11] + EanCheck(code[..11])
    ensures forall i :: 0 <= i < 11 ==> DigitValue(code[i]) == draws[i]
  {
    var payload := GenerateRandomNumber(11, draws);
    code := GenerateEanCheckDigit(payload);
    assert code[..11] == payload;
  }

  /** The default type allocation code of generateIMEI. */
  const DefaultTac: string := "35671211"

  /**
   * The payload generateIMEI hands to the Luhn library: the TAC followed by
   * six random digits. With the default TAC it is 14 decimal digits.
   */
  method GenerateImeiPayload(tac: string, draws: seq<Digit>) returns (payload: string)
    requires |draws| == 6
    ensures |payload| == |tac| + 6 && payload[..|tac|] == tac
    ensures AllDigits(payload[|tac|..])
    ensures AllDigits(payload) <==> AllDigits(tac)
    ensures tac == DefaultTac ==> |payload| == 14 && AllDigits(payload)
  {
    var serial := GenerateRandomNumber(6, draws);
    payload := tac + serial;
    assert payload[..|tac|] == tac && payload[|tac|..] == serial;
    if AllDigits(payload) {
      assert forall i :: 0 <= i < |tac| ==> tac[i] == payload[i];
    }
  }

  /** The payload generateICCID hands to the Luhn library: "89" followed by seventeen random digits. */
  method GenerateIccidPayload(draws: seq<Digit>) returns (payload: string)
    requires |draws| == 17
    ensures |payload| == 19 && payload[..2] == "89" && AllDigits(payload)
  {
    var serial := GenerateRandomNumber(17, draws);
    payload := "89" + serial;
    assert payload[..2] == "89";
  }
}
