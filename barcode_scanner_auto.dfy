/**
 * The QR-and-barcode scanner: OpenCV's QR detector first, then the barcodes
 * pyzbar finds, de-duplicated against the last accepted code and labelled
 * by length, with manual entry as the fallback.
 */
module AutoScanner {
  import opened Common
  import opened Text
  import opened Scanning

  /**
   * The first barcode whose data is not empty, in decoder order. A barcode
   * whose bytes do not decode as UTF-8 met before it ends the search with
   * None (the decode raises and the decoder gives up).
   */
  function FirstDecoded(barcodes: seq<Option<string>>): (r: Option<string>)
    ensures r.Some? ==> r.value != "" && r in barcodes
  {
    if barcodes == [] then None
    else match barcodes[0]
      case None => None
      case Some(data) => if data != "" then Some(data) else FirstDecoded(barcodes[1..])
  }

  /** The first barcode that is not an empty string decides the result. */
  lemma {:induction false} FirstDecodedAt(barcodes: seq<Option<string>>, i: nat)
    requires i < |barcodes| && barcodes[i] != Some("")
    requires forall j :: 0 <= j < i ==> barcodes[j] == Some("")
    ensures FirstDecoded(barcodes) == barcodes[i]
  {
    if i > 0 {
      FirstDecodedAt(barcodes[1..], i - 1);
    }
  }

  /** Barcodes that all carry empty data give None. */
  lemma {:induction false} FirstDecodedAllEmpty(barcodes: seq<Option<string>>)
    requires forall j :: 0 <= j < |barcodes| ==> barcodes[j] == Some("")
    ensures FirstDecoded(barcodes) == None
  {
    if barcodes != [] {
      FirstDecodedAllEmpty(barcodes[1..]);
    }
  }

  /**
   * What `decode_qr_barcode` gives for a frame: non-empty QR text verbatim
   * (not trimmed), otherwise the first non-empty barcode; None when a
   * library raised.
   */
  function Decoded(frame: Frame): (r: Option<string>)
    ensures r.Some? ==> r.value != ""
    ensures Truthy(frame.qr) ==> r == frame.qr
    ensures r.Some? && r != frame.qr ==> frame.qr == Some("") && frame.barcodes.Some? && r in frame.barcodes.value
  {
    match frame.qr
    case None => None
    case Some(data) =>
      if data != "" then Some(data)
      else match frame.barcodes
        case None => None
        case Some(bs) => FirstDecoded(bs)
  }

  /** QR text wins over any barcode, surrounding spaces included. */
  lemma QrVerbatim(barcodes: Option<seq<Option<string>>>)
    ensures Decoded(Frame(Some(" 7501234567890 "), barcodes)) == Some(" 7501234567890 ")
  {
  }

  /** `decode_qr_barcode`, with its loop over the barcodes. */
  method DecodeQrBarcode(frame: Frame) returns (r: Option<string>)
    ensures r == Decoded(frame)
  {
    if frame.qr.None? {
      return None;
    }
    var qrData := frame.qr.value;
    if qrData != "" {
      return Some(qrData);
    }
    if frame.barcodes.None? {
      return None;
    }
    var barcodes := frame.barcodes.value;
    var i := 0;
    while i < |barcodes|
      invariant 0 <= i <= |barcodes|
      invariant FirstDecoded(barcodes[i..]) == FirstDecoded(barcodes)
    {
      assert barcodes[i..][1..] == barcodes[i + 1..];
      if barcodes[i].None? {
        return None;
      }
      var data := barcodes[i].value;
      if data != "" {
        return Some(data);
      }
      i := i + 1;
    }
    return None;
  }

  /** The label the scanner shows beside an accepted code. */
  datatype CodeKind = QrCode | Barcode

  /** Codes longer than 20 characters are taken for QR codes, the rest for barcodes. */
  function Classify(code: string): (k: CodeKind)
    ensures k == QrCode <==> |code| > 20
  {
    if |code| > 20 then QrCode else Barcode
  }

  /** A 13-digit EAN code is labelled a barcode. */
  lemma EanIsBarcode()
    ensures Classify("7501234567890") == Barcode
  {
  }

  /** What one `scan_barcode_auto` call does to the slot; no camera input changes nothing. */
  function AutoStep(slot: Option<string>, camera: Option<Frame>): (s: Step)
    ensures camera.None? ==> s == Step(None, slot)
    ensures s.code.Some? ==> camera.Some? && s.code == Decoded(camera.value) && s.code != slot && s.slot == s.code
    ensures camera.Some? && Truthy(Decoded(camera.value)) && Decoded(camera.value) != slot ==> s.code.Some?
    ensures s.code.None? ==> s.slot == slot
  {
    match camera
    case None => Step(None, slot)
    case Some(frame) => Accept(slot, Decoded(frame))
  }

  class AutoBarcodeScanner {
    var lastBarcode: Option<string>

    constructor ()
      ensures lastBarcode == None
    {
      lastBarcode := None;
    }

    /**
     * A decoded code is returned and remembered only when it differs from
     * the last one; `kind` is the label shown for it.
     */
    method ScanBarcodeAuto(camera: Option<Frame>) returns (code: Option<string>, kind: Option<CodeKind>)
      modifies this
      ensures Step(code, lastBarcode) == AutoStep(old(lastBarcode), camera)
      ensures camera.None? ==> code == None && lastBarcode == old(lastBarcode)
      ensures kind == if code.Some? then Some(Classify(code.value)) else None
    {
      kind := None;
      if camera.None? {
        return None, None;
      }
      var decoded := DecodeQrBarcode(camera.value);
      if Truthy(decoded) {
        if decoded != lastBarcode {
          lastBarcode := decoded;
          kind := Some(Classify(decoded.value));
          return decoded, kind;
        }
      }
      return None, None;
    }

    /**
     * The automatic result when it is truthy (the manual inputs are then not
     * consulted), otherwise the manual entry; the manual branch leaves the
     * slot as the automatic scan left it.
     */
    method ScanWithFallback(camera: Option<Frame>, text: string, pressed: bool) returns (code: Option<string>)
      modifies this
      ensures var auto := AutoStep(old(lastBarcode), camera);
        lastBarcode == auto.slot &&
        code == if Truthy(auto.code) then auto.code else ManualEntry(text, pressed)
    {
      var auto, _ := ScanBarcodeAuto(camera);
      if Truthy(auto) {
        return auto;
      }
      if pressed {
        if text != "" && Strip(text) != "" {
          return Some(Strip(text));
        }
      }
      return None;
    }

    /** Forgets the last code, so the same code is accepted again. */
    method ResetScanner()
      modifies this
      ensures lastBarcode == None
    {
      lastBarcode := None;
    }
  }
}
