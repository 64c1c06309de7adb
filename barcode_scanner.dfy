/**
 * ui/BarcodeScanner.kt without the camera: the copy of the part-number rule
 * applied to decoded barcodes, and the gate in the image analyser that lets
 * at most one barcode through per scanner.
 */
module BarcodeScanner {
  import opened Wrappers
  import opened Text
  import LookupViewModel

  /** `processScannedValue`: the same prefix rule as `processPartNumber`, written out again. */
  function ProcessScannedValue(value: string): string {
    if StartsWith(value, "PP") then value[1..]
    else if StartsWith(value, "P") && |value| > 1 then
      match value[1]
      case '4' => value[1..]
      case '0' => value
      case _ => value
    else value
  }

  /** The two copies of the rule agree on every input. */
  lemma SameRuleAsViewModel(value: string)
    ensures ProcessScannedValue(value) == LookupViewModel.ProcessPartNumber(value)
  {
  }

  /**
   * A scanned barcode is normalised by the scanner and again by the lookup,
   * so up to two leading characters go: "PP4123" is looked up as "4123".
   */
  lemma {:induction false} ScannedKey(raw: string)
    ensures var key := LookupViewModel.ProcessPartNumber(ProcessScannedValue(raw));
      |raw| - 2 <= |key| <= |raw| && key == raw[|raw| - |key|..]
    ensures LookupViewModel.ProcessPartNumber(ProcessScannedValue("PP4123")) == "4123"
  {
    SameRuleAsViewModel(raw);
    assert StartsWith("PP4123", "PP");
    assert StartsWith("P4123", "P4");
    var once := ProcessScannedValue(raw);
    var key := LookupViewModel.ProcessPartNumber(once);
    assert once == raw[|raw| - |once|..];
    assert key == once[|once| - |key|..];
    assert raw[|raw| - |once|..][|once| - |key|..] == raw[|raw| - |key|..];
  }

  /**
   * The analyser's state. `isInitialDelay` is cleared once, two seconds after
   * the scanner appears; `isScanning` is set on the first accepted barcode
   * and never cleared in this file.
   */
  class ScannerGate {
    var isScanning: bool
    var lastScannedBarcode: Option<string>
    var lastScanTime: int
    var isInitialDelay: bool
    /** The values handed to `onBarcodeDetected`, oldest first. */
    ghost var detected: seq<string>

    ghost predicate Valid()
      reads this
    {
      && |detected| <= 1
      && (isScanning <==> |detected| == 1)
      && (isScanning ==> lastScannedBarcode.Some? && detected[0] == ProcessScannedValue(lastScannedBarcode.value))
      && (!isScanning ==> lastScannedBarcode.None?)
      && (isInitialDelay ==> detected == [])
    }

    constructor ()
      ensures Valid()
      ensures isInitialDelay && !isScanning && lastScannedBarcode.None? && lastScanTime == 0
      ensures detected == []
    {
      isScanning := false;
      lastScannedBarcode := None;
      lastScanTime := 0;
      isInitialDelay := true;
      detected := [];
    }

    /** The `LaunchedEffect` after its two-second delay. */
    method EndInitialDelay()
      requires Valid()
      modifies this`isInitialDelay
      ensures Valid() && !isInitialDelay
    {
      isInitialDelay := false;
    }

    /**
     * The analyser callback: a frame goes to the decoder only after the
     * initial delay, while nothing has been accepted, and when it has an image.
     */
    method SubmitsFrame(hasImage: bool) returns (submitted: bool)
      requires Valid()
      ensures submitted <==> !isInitialDelay && detected == [] && hasImage
    {
      submitted := !isInitialDelay && !isScanning && hasImage;
    }

    /**
     * The decoder's success listener. `barcodes` is its result, an absent raw
     * value being `None`; `inFrame` says that the first barcode has a bounding
     * box lying inside the on-screen frame. The first barcode is accepted when
     * nothing has been accepted yet, its raw value is present and differs from
     * the last accepted one, and it is in frame; accepting records the raw
     * value and the time and passes on the normalised value. The listener only
     * runs for a frame `SubmitsFrame` let through, which needs the initial
     * delay to be over, and the delay never starts again.
     */
    method OnBarcodes(barcodes: seq<Option<string>>, inFrame: bool, now: int) returns (result: Option<string>)
      requires Valid() && !isInitialDelay
      modifies this`isScanning, this`lastScannedBarcode, this`lastScanTime, this`detected
      ensures Valid()
      ensures result.Some? <==>
        && !old(isScanning) && |barcodes| > 0 && barcodes[0].Some?
        && barcodes[0] != old(lastScannedBarcode) && inFrame
      ensures result.Some? ==>
        && result.value == ProcessScannedValue(barcodes[0].value)
        && isScanning && lastScannedBarcode == barcodes[0] && lastScanTime == now
        && detected == old(detected) + [result.value]
      ensures result.None? ==>
        && isScanning == old(isScanning) && lastScannedBarcode == old(lastScannedBarcode)
        && lastScanTime == old(lastScanTime) && detected == old(detected)
      ensures old(isScanning) ==> result.None?
    {
      result := None;
      if |barcodes| > 0 && !isScanning {
        var rawValue := barcodes[0];
        if rawValue.Some? && rawValue != lastScannedBarcode {
          if inFrame {
            isScanning := true;
            lastScannedBarcode := rawValue;
            lastScanTime := now;
            var processedValue := ProcessScannedValue(rawValue.value);
            detected := detected + [processedValue];
            result := Some(processedValue);
          }
        }
      }
    }
  }
}
