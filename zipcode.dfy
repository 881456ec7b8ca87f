/**
 * ZIP code validation, shared word for word by `calculate-shipping` and
 * `get-address`: a missing or blank input is refused, the trimmed input is
 * reduced to its digits and dashes, and the result must be a US ZIP
 * (`NNNNN`) or ZIP+4 (`NNNNN-NNNN`).
 */
module Zip {
  import opened Wrappers
  import opened Text

  /** The characters `[\d-]` that cleaning keeps. */
  predicate IsZipChar(c: char) { IsDigit(c) || c == '-' }

  const ZipRequired := "ZIP code is required"
  const ZipInvalid := "Invalid ZIP code format. Please enter a 5-digit ZIP code."

  /** `zipCode.trim().replace(/[^\d-]/g, '')`. */
  function CleanZip(raw: string): (r: string)
    ensures |r| <= |raw|
    ensures forall i :: 0 <= i < |r| ==> IsZipChar(r[i])
  {
    Keep(Trim(raw), IsZipChar)
  }

  /** `/^\d{5}(-\d{4})?$/`. */
  predicate IsZipFormat(s: string)
  {
    || (|s| == 5 && AllDigits(s))
    || (|s| == 10 && AllDigits(s[..5]) && s[5] == '-' && AllDigits(s[6..]))
  }

  /**
   * The validation both handlers run before any lookup. `None` is a missing or
   * falsy `zipCode`; the accepted value is the cleaned ZIP.
   */
  function ValidateZip(zip: Option<string>): (r: Result<string, string>)
    ensures r == Err(ZipRequired) <==> zip.None? || AllSpace(zip.value)
    ensures r == Err(ZipInvalid) <==> zip.Some? && !AllSpace(zip.value) && !IsZipFormat(CleanZip(zip.value))
    ensures r.Ok? <==> zip.Some? && !AllSpace(zip.value) && IsZipFormat(CleanZip(zip.value))
    ensures r.Ok? ==> r.value == CleanZip(zip.value)
  {
    if zip.None? || Trim(zip.value) == [] then Err(ZipRequired)
    else
      var clean := CleanZip(zip.value);
      if IsZipFormat(clean) then Ok(clean) else Err(ZipInvalid)
  }

  /** Cleaning an already cleaned ZIP changes nothing. */
  lemma CleanZipIdempotent(raw: string)
    ensures CleanZip(CleanZip(raw)) == CleanZip(raw)
  {
    var c := CleanZip(raw);
    TrimNoSpace(c);
    KeepAllKept(c, IsZipChar);
  }

  /** Every accepted ZIP is five digits, or five digits, a dash and four digits, and nothing else. */
  lemma AcceptedZipShape(zip: Option<string>)
    requires ValidateZip(zip).Ok?
    ensures var z := ValidateZip(zip).value;
      (|z| == 5 || |z| == 10) && forall i :: 0 <= i < |z| ==> (IsDigit(z[i]) <==> i != 5)
  {
    var z := ValidateZip(zip).value;
    assert IsZipFormat(z);
    if |z| == 10 {
      forall i | 0 <= i < |z| ensures IsDigit(z[i]) <==> i != 5 {
        if i < 5 { assert z[..5][i] == z[i]; }
        else if i > 5 { assert z[6..][i - 6] == z[i]; }
      }
    }
  }

  /** A well-formed ZIP, with any whitespace around it, is accepted as itself. */
  lemma PaddedZipAccepted(pre: string, z: string, post: string)
    requires AllSpace(pre) && AllSpace(post)
    requires IsZipFormat(z)
    ensures ValidateZip(Some(pre + z + post)) == Ok(z)
  {
    assert forall i :: 0 <= i < |z| ==> IsZipChar(z[i]) by {
      forall i | 0 <= i < |z| ensures IsZipChar(z[i]) {
        if |z| == 10 && i < 5 { assert z[..5][i] == z[i]; }
        else if |z| == 10 && i > 5 { assert z[6..][i - 6] == z[i]; }
      }
    }
    TrimPadded(pre, z, post);
    KeepAllKept(z, IsZipChar);
    assert (pre + z + post)[|pre|] == z[0];
  }

  /** Letters are stripped, not rejected outright: "ABCDE" cleans to "" and fails the format check. */
  lemma LettersRejected()
    ensures CleanZip("ABCDE") == ""
    ensures ValidateZip(Some("ABCDE")) == Err(ZipInvalid)
  {
    var s := "ABCDE";
    TrimNoSpace(s);
    assert s[1..][1..][1..][1..][1..] == [];
    assert !AllSpace(s) by { assert !IsJsSpace(s[0]); }
  }
}
