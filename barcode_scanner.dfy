/**
 * The QR-only scanner: OpenCV's QR detector on the camera frame, its text
 * trimmed, de-duplicated against the last accepted code, with manual entry
 * as the fallback.
 */
module QrScanner {
  import opened Common
  import opened Text
  import opened Scanning

  /**
   * `decode_qr_code`: the detector's text, trimmed, when it is not blank;
   * None when it is blank or the detector raised.
   */
  function DecodeQrCode(frame: Frame): (r: Option<string>)
    ensures r.Some? <==> frame.qr.Some? && exists k :: 0 <= k < |frame.qr.value| && !IsSpace(frame.qr.value[k])
    ensures r.Some? ==> r.value == Strip(frame.qr.value)
    ensures r.Some? ==> r.value != "" && !IsSpace(r.value[0]) && !IsSpace(r.value[|r.value| - 1])
  {
    match frame.qr
    case None => None
    case Some(data) => if data != "" && Strip(data) != "" then Some(Strip(data)) else None
  }

  /** Surrounding whitespace in the detector's text never reaches the caller. */
  lemma DecodeTrims(left: string, code: string, right: string, barcodes: Option<seq<Option<string>>>)
    requires AllSpace(left) && AllSpace(right)
    requires code != [] && !IsSpace(code[0]) && !IsSpace(code[|code| - 1])
    ensures DecodeQrCode(Frame(Some(left + code + right), barcodes)) == Some(code)
  {
    StripPadded(left, code, right);
  }

  /** What one `scan_barcode_auto` call does to the slot; no camera input changes nothing. */
  function AutoStep(slot: Option<string>, camera: Option<Frame>): (s: Step)
    ensures camera.None? ==> s == Step(None, slot)
    ensures s.code.Some? ==> camera.Some? && s.code == DecodeQrCode(camera.value) && s.code != slot && s.slot == s.code
    ensures camera.Some? && Truthy(DecodeQrCode(camera.value)) && DecodeQrCode(camera.value) != slot ==> s.code.Some?
    ensures s.code.None? ==> s.slot == slot
  {
    match camera
    case None => Step(None, slot)
    case Some(frame) => Accept(slot, DecodeQrCode(frame))
  }

  class BarcodeScanner {
    var lastBarcode: Option<string>

    constructor ()
      ensures lastBarcode == None
    {
      lastBarcode := None;
    }

    /** A decoded code is returned and remembered only when it differs from the last one. */
    method ScanBarcodeAuto(camera: Option<Frame>) returns (code: Option<string>)
      modifies this
      ensures Step(code, lastBarcode) == AutoStep(old(lastBarcode), camera)
      ensures camera.None? ==> code == None && lastBarcode == old(lastBarcode)
    {
      if camera.None? {
        return None;
      }
      var decoded := DecodeQrCode(camera.value);
      if Truthy(decoded) {
        if decoded != lastBarcode {
          lastBarcode := decoded;
          return decoded;
        }
      }
      return None;
    }

    /**
     * The automatic result when it is truthy (the manual inputs are then not
     * consulted), otherwise the manual entry; the manual branch leaves the
     * slot as the automatic scan left it.
     */
    method ScanWithFallback(camera: Option<Frame>, text: string, pressed: bool) returns (code: Option<string>)
      modifies this
      ensures var auto := AutoStep(old(lastBarcode), camera);
        lastBarcode == auto.slot &&
        code == if Truthy(auto.code) then auto.code else ManualEntry(text, pressed)
    {
      var auto := ScanBarcodeAuto(camera);
      if Truthy(auto) {
        return auto;
      }
      if pressed {
        if text != "" && Strip(text) != "" {
          return Some(Strip(text));
        }
      }
      return None;
    }

    /** Forgets the last code, so the same code is accepted again. */
    method ResetScanner()
      modifies this
      ensures lastBarcode == None
    {
      lastBarcode := None;
    }
  }
}
