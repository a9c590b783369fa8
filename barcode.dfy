// The barcode element (src/Barcode.tsx): the symbologies offered, the
// check-digit flag handed to the renderer, and the grab offset reported on
// pointer-down. The renderer itself and the SVG sizing are not modelled.

module Barcode {
  import opened Shared

  /** The symbologies of `BarcodeTypes`. */
  datatype BarcodeType = Code128 | Gs1128 | Codabar | Code39 | Ean8 | Ean13 | Fim | Itf | UpcA

  /** `BarcodeTypes`, in the order the format picker lists them. */
  const BarcodeTypes: seq<BarcodeType> := [Code128, Gs1128, Codabar, Code39, Ean8, Ean13, Fim, Itf, UpcA]

  /** The name the renderer knows each symbology by. */
  function Name(t: BarcodeType): string
  {
    match t
    case Code128 => "Code 128"
    case Gs1128 => "GS1 128"
    case Codabar => "Codabar"
    case Code39 => "Code 39"
    case Ean8 => "EAN-8"
    case Ean13 => "EAN-13"
    case Fim => "FIM"
    case Itf => "ITF"
    case UpcA => "UPC-A"
  }

  /**
   * The full length (payload and check digit) of the fixed-length
   * symbologies that end in a GS1 check digit, and None for the others.
   */
  function ChecksumLength(t: BarcodeType): Option<nat>
  {
    match t
    case UpcA => Some(12)
    case Ean13 => Some(13)
    case Ean8 => Some(8)
    case _ => None
  }

  /**
   * The `hasChecksum` flag: the data already carries its check digit exactly
   * when a symbology is chosen, it is one of the GS1 fixed-length ones, and
   * the data has that symbology's full length.
   */
  function HasChecksum(t: Option<BarcodeType>, data: string): (r: bool)
    ensures r <==> t.Some? && ChecksumLength(t.value) == Some(|data|)
  {
    (t == Some(UpcA) && |data| == 12) ||
    (t == Some(Ean13) && |data| == 13) ||
    (t == Some(Ean8) && |data| == 8)
  }

  /**
   * `handleMouseDown`: with no callback or no mounted element nothing is
   * reported; otherwise the element and the pointer's offset from the
   * element's top-left corner in page coordinates (its viewport bounds plus
   * the scroll position).
   */
  function HandleMouseDown(hasCallback: bool, mounted: Option<Point>, target: Element, page: Point, scroll: Point)
    : (r: Option<ElementClickData>)
    ensures r.Some? <==> hasCallback && mounted.Some?
    ensures r.Some? ==> r.value.element == target
    ensures r.Some? ==> Add(Add(mounted.value, scroll), r.value.offset) == page
  {
    if !hasCallback || mounted.None? then None
    else
      Some(ElementClickData(target, GrabOffset(page, mounted.value, scroll)))
  }

  /** Every symbology is listed once, under a distinct name. */
  lemma BarcodeTypesListsEachOnce()
    ensures forall t :: t in BarcodeTypes
    ensures forall i, j :: 0 <= i < j < |BarcodeTypes| ==> Name(BarcodeTypes[i]) != Name(BarcodeTypes[j])
  {
    forall t: BarcodeType ensures t in BarcodeTypes {
      var i := match t
        case Code128 => 0 case Gs1128 => 1 case Codabar => 2 case Code39 => 3 case Ean8 => 4
        case Ean13 => 5 case Fim => 6 case Itf => 7 case UpcA => 8;
      assert BarcodeTypes[i] == t;
    }
  }

  /**
   * Data of EAN-13's or UPC-A's full length is flagged as already carrying
   * its check digit; no other listed symbology than those and EAN-8 ever is.
   */
  lemma FullLengthGs1DataIsFlagged(code: string)
    ensures |code| == 13 ==> HasChecksum(Some(Ean13), code)
    ensures |code| == 12 ==> HasChecksum(Some(UpcA), code)
    ensures forall t :: t in BarcodeTypes && t != UpcA && t != Ean13 && t != Ean8 ==> !HasChecksum(Some(t), code)
  {
  }
}
