/** The barcode utility: a validity test for decoded barcode strings and the
    placeholder scanner that stands in for a real decoder. */
module BarcodeScanner {
  import opened Runtime

  /** `\d` of a JavaScript regular expression: exactly the ASCII digits
      '0'..'9'. */
  predicate IsDigit(c: char) {
    '0' <= c <= '9'
  }

  /** The regular expression `/^\d+$/` applied to `s`: one digit, then
      either the end of the input or another match of the same pattern. */
  predicate MatchesDigitRun(s: string) {
    |s| > 0 && IsDigit(s[0]) && (|s| == 1 || MatchesDigitRun(s[1..]))
  }

  /** Every character of `s` is a digit. */
  ghost predicate AllDigits(s: string) {
    forall i :: 0 <= i < |s| ==> IsDigit(s[i])
  }

  /** `isBarcodeValid`: at least eight characters, all of them digits. */
  predicate IsBarcodeValid(barcode: string) {
    |barcode| >= 8 && MatchesDigitRun(barcode)
  }

  /** The regex matcher accepts exactly the non-empty all-digit strings. */
  lemma {:induction false} MatchesDigitRunIff(s: string)
    ensures MatchesDigitRun(s) <==> |s| > 0 && AllDigits(s)
  {
    if |s| > 1 {
      MatchesDigitRunIff(s[1..]);
      assert AllDigits(s) <==> IsDigit(s[0]) && AllDigits(s[1..]) by {
        forall i | 0 <= i < |s[1..]| ensures s[1..][i] == s[i + 1] { }
        if IsDigit(s[0]) && AllDigits(s[1..]) {
          forall i | 0 <= i < |s| ensures IsDigit(s[i]) {
            if i > 0 { assert s[i] == s[1..][i - 1]; }
          }
        }
      }
    }
  }

  /** Both directions of the validity rule. */
  lemma IsBarcodeValidIff(s: string)
    ensures IsBarcodeValid(s) <==> |s| >= 8 && AllDigits(s)
  {
    MatchesDigitRunIff(s);
  }

  /** Fewer than eight characters is never valid, whatever they are. */
  lemma ShortBarcodeInvalid(s: string)
    requires |s| < 8
    ensures !IsBarcodeValid(s)
  {
  }

  /** A single character outside '0'..'9', anywhere, makes the string invalid. */
  lemma NonDigitBarcodeInvalid(s: string, i: nat)
    requires i < |s| && !IsDigit(s[i])
    ensures !IsBarcodeValid(s)
  {
    IsBarcodeValidIff(s);
  }

  /** Every all-digit string of eight or more characters is valid. */
  lemma LongDigitStringValid(s: string)
    requires |s| >= 8 && AllDigits(s)
    ensures IsBarcodeValid(s)
  {
    IsBarcodeValidIff(s);
  }

  /** A valid barcode is never empty and starts with a digit. */
  lemma ValidBarcodeNonEmpty(s: string)
    requires IsBarcodeValid(s)
    ensures s != [] && IsDigit(s[0])
  {
  }

  /** The five barcodes the placeholder scanner chooses from. */
  const MockBarcodes: seq<string> := [
    "7891234567890",
    "7891234567891",
    "7891234567892",
    "7891234567893",
    "7891234567894"
  ]

  /** The twelve-digit stem shared by all five mock barcodes. */
  const MockStem: string := "789123456789"

  lemma MockBarcodesShape()
    ensures forall k :: 0 <= k < |MockBarcodes| ==>
      MockBarcodes[k] == MockStem + [('0' as int + k) as char]
  {
  }

  /** The five mock barcodes are pairwise distinct: they differ in the last digit. */
  lemma MockBarcodesDistinct()
    ensures forall i, j :: 0 <= i < j < |MockBarcodes| ==> MockBarcodes[i] != MockBarcodes[j]
  {
    MockBarcodesShape();
    forall i, j | 0 <= i < j < |MockBarcodes| ensures MockBarcodes[i] != MockBarcodes[j] {
      assert MockBarcodes[i][12] != MockBarcodes[j][12];
    }
  }

  /** Each mock barcode passes `isBarcodeValid`. */
  lemma MockBarcodesValid()
    ensures forall k :: 0 <= k < |MockBarcodes| ==> IsBarcodeValid(MockBarcodes[k])
  {
    MockBarcodesShape();
    assert AllDigits(MockStem) by {
      forall i | 0 <= i < |MockStem| ensures IsDigit(MockStem[i]) { }
    }
    forall k | 0 <= k < |MockBarcodes| ensures IsBarcodeValid(MockBarcodes[k]) {
      var b := MockBarcodes[k];
      forall i | 0 <= i < |b| ensures IsDigit(b[i]) {
        if i < |MockStem| { assert b[i] == MockStem[i]; }
      }
      LongDigitStringValid(b);
    }
  }

  /** `scanBarcodeFromImage`: the image is ignored and the promise resolves
      with the mock barcode at `Math.floor(random * 5)`, where `random` is the
      value of `Math.random()`. */
  function ScanBarcodeFromImage(random: real): (barcode: string)
    requires 0.0 <= random < 1.0
    ensures barcode in MockBarcodes
    ensures IsBarcodeValid(barcode)
  {
    MockBarcodesValid();
    MockBarcodes[RandomIndex(random, |MockBarcodes|)]
  }

  /** Every one of the five listed barcodes can come out of the scanner. */
  lemma EveryMockBarcodeReachable(k: nat)
    requires k < |MockBarcodes|
    ensures ScanBarcodeFromImage(k as real / 5.0) == MockBarcodes[k]
  {
    assert RandomIndex(k as real / 5.0, 5) == k;
  }
}
