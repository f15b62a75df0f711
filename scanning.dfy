/**
 * What the two camera scanners share: the camera frame as the image
 * libraries report it, the one-slot de-duplication of `scan_barcode_auto`,
 * and the manual-entry fallback of `scan_with_fallback`.
 */
module Scanning {
  import opened Common
  import opened Text

  /**
   * One camera frame as the decoders see it. `qr` is the text OpenCV's QR
   * detector returned ("" when it found nothing), or None when converting or
   * detecting raised. `barcodes` is the data of each barcode pyzbar found, in
   * its order, or None when pyzbar raised; an element is None when that
   * barcode's bytes are not valid UTF-8 (decoding them raises).
   */
  datatype Frame = Frame(qr: Option<string>, barcodes: Option<seq<Option<string>>>)

  /** What one automatic scan returns and what it leaves in `last_barcode`. */
  datatype Step = Step(code: Option<string>, slot: Option<string>)

  /**
   * The de-duplication slot: a decoded code is accepted only when it is
   * truthy and differs from the last accepted one; accepting it overwrites
   * the slot, and anything else leaves the slot alone.
   */
  function Accept(slot: Option<string>, decoded: Option<string>): (s: Step)
    ensures s.code.Some? <==> Truthy(decoded) && decoded != slot
    ensures s.code.Some? ==> s.code == decoded && s.slot == decoded
    ensures s.code.None? ==> s.slot == slot
  {
    if Truthy(decoded) then
      if decoded != slot then Step(decoded, decoded) else Step(None, slot)
    else Step(None, slot)
  }

  /** A code just accepted is refused when it is decoded again right away. */
  lemma RepeatRefused(slot: Option<string>, code: string)
    requires code != "" && Some(code) != slot
    ensures Accept(slot, Some(code)).code == Some(code)
    ensures Accept(Accept(slot, Some(code)).slot, Some(code)).code == None
  {
  }

  /** After a reset (an empty slot) any non-empty code is accepted. */
  lemma ResetAcceptsAgain(code: string)
    requires code != ""
    ensures Accept(None, Some(code)) == Step(Some(code), Some(code))
  {
  }

  /** The codes accepted by a series of automatic scans, and the slot left at the end. */
  datatype Run = Run(codes: seq<string>, slot: Option<string>)

  function RunScans(slot: Option<string>, decoded: seq<Option<string>>): Run
    decreases |decoded|
  {
    if decoded == [] then Run([], slot)
    else
      var s := Accept(slot, decoded[0]);
      var rest := RunScans(s.slot, decoded[1..]);
      if s.code.Some? then Run([s.code.value] + rest.codes, rest.slot) else rest
  }

  /**
   * Over any series of scans, no code is accepted twice in a row (nor is
   * the one already in the slot accepted first), and the slot ends holding
   * the last code accepted.
   */
  lemma {:induction false} RunNeverRepeats(slot: Option<string>, decoded: seq<Option<string>>)
    ensures var r := RunScans(slot, decoded);
      && (forall k :: 0 <= k < |r.codes| - 1 ==> r.codes[k] != r.codes[k + 1])
      && (r.codes != [] ==> Some(r.codes[0]) != slot)
      && r.slot == (if r.codes == [] then slot else Some(r.codes[|r.codes| - 1]))
    decreases |decoded|
  {
    if decoded != [] {
      var s := Accept(slot, decoded[0]);
      RunNeverRepeats(s.slot, decoded[1..]);
    }
  }

  /**
   * The manual fallback: the trimmed text, when the button was pressed and
   * the text is not blank; None otherwise.
   */
  function ManualEntry(text: string, pressed: bool): (r: Option<string>)
    ensures r.Some? <==> pressed && exists k :: 0 <= k < |text| && !IsSpace(text[k])
    ensures r.Some? ==> r.value == Strip(text) && r.value != ""
  {
    if pressed && text != "" && Strip(text) != "" then Some(Strip(text)) else None
  }
}
