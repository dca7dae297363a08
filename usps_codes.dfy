/** The pure parts of the USPS integration (trait-usps.php): the event-code
    table that normalises USPS tracking events into five states, the ZIP
    code truncation of the return address, and the piece of the multipart
    label response that holds the label. */
module UspsCodes {
  import opened Php

  // The case labels of `translate_usps_tracking_status`, bucket by bucket,
  // in the order the `switch` lists them.
  const DELIVERED_CODES: seq<string> := ["01", "41", "43", "63"]
  const FAILURE_CODES: seq<string> := [
    "02", "53", "54", "55", "56", "04", "05", "09", "21", "22", "23", "24", "25", "26", "27", "28", "29",
    "11", "12", "", "30", "31", "32", "33", "44", "46", "51", "57", "71", "72", "DX", "LX", "MU", "MX",
    "OX", "TX", "VC", "VH", "VJ", "VS", "VX", "WX", "64"]
  const PRE_TRANSIT_CODES: seq<string> := ["GC", "MA", "GX", "89"]
  const IN_TRANSIT_CODES: seq<string> := [
    "03", "14", "VF", "52", "VP", "06", "07", "08", "10", "15", "16", "17", "34", "35", "36", "38", "39",
    "40", "42", "45", "58", "59", "60", "A1", "AD", "AE", "AX", "B1", "B5", "DE", "E1", "EF", "L1", "LD",
    "MR", "NT", "OA", "OD", "OF", "PC", "RB", "RC", "SF", "T1", "TM", "UA", "VR", "WN", "61", "62", "80",
    "81", "82", "83", "84", "85", "86", "87"]

  /** Some case label of the list matches under the `switch`'s loose `==`
      (also what a non-strict `in_array` computes). */
  predicate InLoose(code: string, labels: seq<string>) {
    labels != [] && (LooseEq(code, labels[0]) || InLoose(code, labels[1..]))
  }

  lemma {:induction false} InLooseMember(code: string, labels: seq<string>)
    requires code in labels
    ensures InLoose(code, labels)
  {
    if labels[0] != code {
      InLooseMember(code, labels[1..]);
    }
  }

  /** The five normalised states. */
  predicate IsUspsState(s: string) {
    s in {"delivered", "failure", "pre_transit", "in_transit", "unknown"}
  }

  /** `translate_usps_tracking_status`: the first bucket with a matching case
      label, "unknown" when none matches. */
  function TranslateUsps(code: string): (s: string)
    ensures IsUspsState(s)
    ensures s == "unknown" <==> !InLoose(code, DELIVERED_CODES) && !InLoose(code, FAILURE_CODES)
                                 && !InLoose(code, PRE_TRANSIT_CODES) && !InLoose(code, IN_TRANSIT_CODES)
  {
    if InLoose(code, DELIVERED_CODES) then "delivered"
    else if InLoose(code, FAILURE_CODES) then "failure"
    else if InLoose(code, PRE_TRANSIT_CODES) then "pre_transit"
    else if InLoose(code, IN_TRANSIT_CODES) then "in_transit"
    else "unknown"
  }

  lemma {:induction false} InLooseLeadingZero(s: string, labels: seq<string>)
    requires IsDigits(s)
    ensures InLoose("0" + s, labels) <==> InLoose(s, labels)
  {
    if labels != [] {
      LooseEqLeadingZero(s, labels[0]);
      InLooseLeadingZero(s, labels[1..]);
    }
  }

  /** Numeric event codes are compared by value, so a code padded with
      leading zeros ("001") is translated like the code itself ("01"). */
  lemma TranslateLeadingZero(s: string)
    requires IsDigits(s)
    ensures TranslateUsps("0" + s) == TranslateUsps(s)
  {
    InLooseLeadingZero(s, DELIVERED_CODES);
    InLooseLeadingZero(s, FAILURE_CODES);
    InLooseLeadingZero(s, PRE_TRANSIT_CODES);
    InLooseLeadingZero(s, IN_TRANSIT_CODES);
  }

  /** The documented codes land in their buckets. */
  lemma DeliveredCodes()
    ensures TranslateUsps("01") == "delivered" && TranslateUsps("41") == "delivered"
    ensures TranslateUsps("43") == "delivered" && TranslateUsps("63") == "delivered"
  {
    InLooseMember("01", DELIVERED_CODES);
    InLooseMember("41", DELIVERED_CODES);
    InLooseMember("43", DELIVERED_CODES);
    InLooseMember("63", DELIVERED_CODES);
  }

  /** A text code (not a numeral) never loosely equals a numeral label, so it
      matches exactly the labels equal to it. */
  lemma {:induction false} InLooseText(code: string, labels: seq<string>)
    requires !IsDigits(code)
    ensures InLoose(code, labels) <==> code in labels
  {
    if labels != [] {
      InLooseText(code, labels[1..]);
      assert labels == [labels[0]] + labels[1..];
    }
  }

  lemma {:induction false} InLooseDigits(code: string, labels: seq<string>)
    requires IsDigits(code)
    ensures InLoose(code, labels) <==> exists i :: 0 <= i < |labels| && IsDigits(labels[i]) && DigitsValue(labels[i]) == DigitsValue(code)
  {
    if labels != [] {
      InLooseDigits(code, labels[1..]);
      assert forall i :: 1 <= i < |labels| ==> labels[i] == labels[1..][i - 1];
      if InLoose(code, labels[1..]) {
        var j :| 0 <= j < |labels[1..]| && IsDigits(labels[1..][j]) && DigitsValue(labels[1..][j]) == DigitsValue(code);
        assert IsDigits(labels[j + 1]);
      }
    }
  }

  /** A code that is not a numeral is looked up by exact text: it falls in
      the bucket that lists it, and is "unknown" when no bucket does. */
  lemma TranslateText(code: string)
    requires !IsDigits(code)
    ensures TranslateUsps(code) ==
              if code in DELIVERED_CODES then "delivered"
              else if code in FAILURE_CODES then "failure"
              else if code in PRE_TRANSIT_CODES then "pre_transit"
              else if code in IN_TRANSIT_CODES then "in_transit"
              else "unknown"
  {
    InLooseText(code, DELIVERED_CODES);
    InLooseText(code, FAILURE_CODES);
    InLooseText(code, PRE_TRANSIT_CODES);
    InLooseText(code, IN_TRANSIT_CODES);
  }

  // ---------------------------------------------------------------------
  // ZIP code of the return address (`usps_set_to_address`)

  /** A ZIP code whose trimmed form is longer than five characters is cut to
      the first five trimmed characters; otherwise it is kept as it was,
      untrimmed. */
  function TruncateZip(zip: string): (r: string)
    ensures |Trim(zip)| > 5 ==> |r| == 5 && r == Trim(zip)[..5]
    ensures |Trim(zip)| <= 5 ==> r == zip
  {
    if |Trim(zip)| > 5 then Trim(zip)[..5] else zip
  }

  /** Truncating twice is truncating once. */
  lemma TruncateZipIdempotent(zip: string)
    ensures TruncateZip(TruncateZip(zip)) == TruncateZip(zip)
  {
    var r := TruncateZip(zip);
    assert |Trim(r)| <= |r|;
  }

  /** A ZIP+4 code keeps its five-digit ZIP. */
  lemma ZipPlusFour(zip5: string, plus4: string)
    requires |zip5| == 5 && IsDigits(zip5) && IsDigits(plus4)
    ensures TruncateZip(zip5 + "-" + plus4) == zip5
  {
    var z := zip5 + "-" + plus4;
    assert !IsTrimmed(z[0]) && !IsTrimmed(z[|z| - 1]) by {
      assert z[0] == zip5[0] && z[|z| - 1] == plus4[|plus4| - 1];
    }
    assert z[..5] == zip5;
  }

  // ---------------------------------------------------------------------
  // Label part of the multipart response

  /** The label text: the second part, trimmed, up to the first "--". */
  function LabelPart(part: string): string {
    BeforeFirst(Trim(part), "--")
  }

  /** No two consecutive dashes. */
  predicate NoDoubleDash(r: string) {
    forall i :: 0 <= i < |r| - 1 ==> !(r[i] == '-' && r[i + 1] == '-')
  }

  lemma {:induction false} BeforeFirstFree(s: string)
    ensures NoDoubleDash(BeforeFirst(s, "--"))
    decreases |s|
  {
    if |s| >= 2 && s[..2] != "--" {
      BeforeFirstFree(s[1..]);
      var r := BeforeFirst(s, "--");
      var rest := BeforeFirst(s[1..], "--");
      assert r == [s[0]] + rest;
      assert |rest| > 0 ==> rest[0] == s[1];
      forall i | 0 <= i < |r| - 1 ensures !(r[i] == '-' && r[i + 1] == '-') {
        if i == 0 {
          assert r[0] == s[0] && r[1] == s[1];
          assert s[..2] == [s[0], s[1]];
        } else {
          assert r[i] == rest[i - 1] && r[i + 1] == rest[i];
        }
      }
    }
  }

  /** The extracted label is a prefix of the trimmed part that holds no "--",
      and it is followed by "--" unless it is the whole part. */
  lemma LabelPartSpec(part: string)
    ensures var r := LabelPart(part);
            r == Trim(part)[..|r|]
            && NoDoubleDash(r)
            && (r == Trim(part) || Trim(part)[|r|..|r| + 2] == "--")
  {
    BeforeFirstFree(Trim(part));
  }
}
