/**
 * The two custom checks on the `codes` query parameter of the fund-comparison endpoint. Each takes
 * the raw comma-separated string and either accepts it or reports the first rule it breaks.
 */
module Validators {
  import opened Text

  // ----- validateComparisonRequest -----

  /** The outcome of the strict check, in the order its rules are tried. */
  datatype ComparisonVerdict =
    | Accepted
    | TooFewCodes
    | TooManyCodes
    | BlankCode
    | BadCharacters
    | DuplicateCode

  /** The error message for each rejection. */
  function ComparisonMessage(v: ComparisonVerdict): string
  {
    match v
    case Accepted => ""
    case TooFewCodes => "En az 2 fon karşılaştırılmalıdır"
    case TooManyCodes => "En fazla 5 fon karşılaştırılabilir"
    case BlankCode => "Geçersiz fon kodu formatı"
    case BadCharacters => "Fon kodları sadece büyük harf ve rakam içerebilir"
    case DuplicateCode => "Aynı fon birden fazla kez belirtilemez"
  }

  /** Each piece of a split, trimmed. */
  function TrimAll(parts: seq<string>): (r: seq<string>)
    ensures |r| == |parts|
    ensures forall i :: 0 <= i < |parts| ==> r[i] == Trim(parts[i])
  {
    seq(|parts|, i requires 0 <= i < |parts| => Trim(parts[i]))
  }

  /** The codes the strict check looks at: the comma-separated pieces, each trimmed. */
  function RequestedCodes(value: string): (codes: seq<string>)
    ensures |codes| >= 1
  {
    TrimAll(Split(value, ','))
  }

  /** A character of `[A-Z0-9]`. */
  predicate IsCodeChar(c: char)
  {
    ('A' <= c <= 'Z') || ('0' <= c <= '9')
  }

  /** A match of `^[A-Z0-9]+$`. */
  predicate IsCode(code: string)
  {
    |code| >= 1 && forall i :: 0 <= i < |code| ==> IsCodeChar(code[i])
  }

  /** The set of distinct strings in `codes`. */
  function Distinct(codes: seq<string>): set<string>
  {
    set i | 0 <= i < |codes| :: codes[i]
  }

  /** No string occurs twice. */
  predicate NoRepeats(codes: seq<string>)
  {
    forall i, j :: 0 <= i < j < |codes| ==> codes[i] != codes[j]
  }

  /** Lines 164-184: the strict check on the trimmed codes. */
  function ValidateComparisonRequest(value: string): (v: ComparisonVerdict)
  {
    CheckCodes(RequestedCodes(value))
  }

  /** Lines 167-183: the five rules, tried in order, on the trimmed codes. */
  function CheckCodes(codes: seq<string>): (v: ComparisonVerdict)
  {
    if |codes| < 2 then TooFewCodes
    else if |codes| > 5 then TooManyCodes
    else if exists i :: 0 <= i < |codes| && codes[i] == "" then BlankCode
    else if exists i :: 0 <= i < |codes| && !IsCode(codes[i]) then BadCharacters
    else if |Distinct(codes)| != |codes| then DuplicateCode
    else Accepted
  }

  /** Removing the last element of a sequence removes at most that element from its set of values. */
  lemma DistinctOfInit(codes: seq<string>)
    requires |codes| >= 1
    ensures Distinct(codes) == Distinct(codes[..|codes| - 1]) + {codes[|codes| - 1]}
  {
    var init := codes[..|codes| - 1];
    forall x | x in Distinct(codes)
      ensures x in Distinct(init) + {codes[|codes| - 1]}
    {
      var i :| 0 <= i < |codes| && codes[i] == x;
      if i < |codes| - 1 {
        assert init[i] == x;
      }
    }
    forall x | x in Distinct(init)
      ensures x in Distinct(codes)
    {
      var i :| 0 <= i < |init| && init[i] == x;
      assert codes[i] == x;
    }
  }

  /** The set of a sequence is as large as the sequence exactly when no string occurs twice. */
  lemma {:induction false} DistinctSize(codes: seq<string>)
    ensures |Distinct(codes)| <= |codes|
    ensures |Distinct(codes)| == |codes| <==> NoRepeats(codes)
  {
    if codes != [] {
      var n := |codes| - 1;
      var init := codes[..n];
      var last := codes[n];
      DistinctSize(init);
      DistinctOfInit(codes);
      if last in Distinct(init) {
        assert Distinct(codes) == Distinct(init);
        var i :| 0 <= i < n && init[i] == last;
        assert codes[i] == codes[n];
      } else {
        assert |Distinct(codes)| == |Distinct(init)| + 1;
        if NoRepeats(init) {
          forall i, j | 0 <= i < j < |codes|
            ensures codes[i] != codes[j]
          {
            if j < n {
              assert codes[i] == init[i] && codes[j] == init[j];
            } else {
              assert codes[i] == init[i];
            }
          }
        } else {
          var i, j :| 0 <= i < j < n && init[i] == init[j];
          assert codes[i] == codes[j];
        }
        if NoRepeats(codes) {
          forall i, j | 0 <= i < j < n
            ensures init[i] != init[j]
          {
            assert codes[i] == init[i] && codes[j] == init[j];
          }
        }
      }
    }
  }

  /**
   * The strict check accepts exactly when there are two to five trimmed codes, each a non-empty run
   * of capital letters and digits, no two the same.
   */
  lemma ComparisonAccepted(value: string)
    ensures var codes := RequestedCodes(value);
            ValidateComparisonRequest(value) == Accepted
            <==> 2 <= |codes| <= 5 && (forall i :: 0 <= i < |codes| ==> IsCode(codes[i])) && NoRepeats(codes)
  {
    DistinctSize(RequestedCodes(value));
  }

  /** A rejection names the first rule broken: every earlier rule holds for the codes. */
  lemma FirstBrokenRule(codes: seq<string>)
    ensures CheckCodes(codes) == TooFewCodes <==> |codes| < 2
    ensures CheckCodes(codes) == TooManyCodes <==> |codes| > 5
    ensures CheckCodes(codes) == BlankCode <==>
              2 <= |codes| <= 5 && exists i :: 0 <= i < |codes| && codes[i] == ""
    ensures CheckCodes(codes) == BadCharacters <==>
              && 2 <= |codes| <= 5 && (forall i :: 0 <= i < |codes| ==> codes[i] != "")
              && exists i :: 0 <= i < |codes| && !IsCode(codes[i])
    ensures CheckCodes(codes) == DuplicateCode <==>
              2 <= |codes| <= 5 && (forall i :: 0 <= i < |codes| ==> IsCode(codes[i])) && !NoRepeats(codes)
  {
    DistinctSize(codes);
  }

  /** Each code the strict check sees has no surrounding spaces, and the codes rejoined give back the input minus those spaces. */
  lemma RequestedCodesAreTrimmed(value: string)
    ensures var codes := RequestedCodes(value);
            var parts := Split(value, ',');
            && |codes| == |parts|
            && forall i :: 0 <= i < |codes| ==>
                 codes[i] == Trim(parts[i]) && (codes[i] == [] || (!IsSpace(codes[i][0]) && !IsSpace(codes[i][|codes[i]| - 1])))
  {
  }

  /** The two codes "AK1" and " AK1" are the same code once trimmed, so the strict check reports a duplicate. */
  lemma PaddedDuplicateRejected(value: string)
    requires value == "AK1, AK1"
    ensures ValidateComparisonRequest(value) == DuplicateCode
  {
    PaddedSplit(value);
    var codes := RequestedCodes(value);
    assert codes == ["AK1", "AK1"];
    RepeatedCode(codes);
  }

  lemma PaddedSplit(value: string)
    requires value == "AK1, AK1"
    ensures RequestedCodes(value) == ["AK1", "AK1"]
  {
    assert value == "AK1" + [','] + " AK1";
    SplitAtSeparator("AK1", ',', " AK1");
    SplitWithoutSeparator(" AK1", ',');
    assert Split(value, ',') == ["AK1", " AK1"];
    assert LeadingSpaces(" AK1") == 1 by {
      assert " AK1"[1..] == "AK1";
      assert LeadingSpaces("AK1") == 0;
    }
    assert " AK1"[1..] == "AK1";
    TrimUnpadded("AK1");
  }

  lemma RepeatedCode(codes: seq<string>)
    requires codes == ["AK1", "AK1"]
    ensures CheckCodes(codes) == DuplicateCode
  {
    assert forall i :: 0 <= i < |codes| ==> codes[i] == "AK1";
    assert IsCode("AK1");
    DistinctSize(codes);
    assert codes[0] == codes[1];
  }

  // ----- compareFundsValidation -----

  /** The outcome of the lenient check. */
  datatype CountVerdict = CountAccepted | WrongCount | BlankPart

  function CountMessage(v: CountVerdict): string
  {
    match v
    case CountAccepted => ""
    case WrongCount => "En az 2, en fazla 5 fon karşılaştırılabilir"
    case BlankPart => "Geçersiz fon kodu formatı"
  }

  /** Lines 77-86: the lenient check counts the untrimmed pieces and rejects blank ones only. */
  function CompareFundsValidation(value: string): (v: CountVerdict)
  {
    var codes := Split(value, ',');
    if |codes| < 2 || |codes| > 5 then WrongCount
    else if exists i :: 0 <= i < |codes| && Trim(codes[i]) == "" then BlankPart
    else CountAccepted
  }

  /**
   * The lenient check accepts exactly two to five pieces none of which is all spaces; it looks at
   * neither the characters nor repetitions.
   */
  lemma CompareFundsAccepted(value: string)
    ensures var parts := Split(value, ',');
            CompareFundsValidation(value) == CountAccepted
            <==> 2 <= |parts| <= 5 && forall i :: 0 <= i < |parts| ==> !AllSpace(parts[i])
  {
  }

  /** Whatever the strict check accepts, the lenient one accepts too. */
  lemma StrictImpliesLenient(value: string)
    requires ValidateComparisonRequest(value) == Accepted
    ensures CompareFundsValidation(value) == CountAccepted
  {
    var parts := Split(value, ',');
    var codes := RequestedCodes(value);
    forall i | 0 <= i < |parts|
      ensures Trim(parts[i]) != ""
    {
      assert codes[i] == Trim(parts[i]);
    }
  }

  /** The lenient check lets through what the strict one rejects: lower-case codes, and the same code twice. */
  lemma LenientIsWeaker(value: string)
    requires value == "ak1,ak1"
    ensures CompareFundsValidation(value) == CountAccepted
    ensures ValidateComparisonRequest(value) == BadCharacters
  {
    assert value == "ak1" + [','] + "ak1";
    SplitAtSeparator("ak1", ',', "ak1");
    SplitWithoutSeparator("ak1", ',');
    assert Split(value, ',') == ["ak1", "ak1"];
    TrimUnpadded("ak1");
    var codes := RequestedCodes(value);
    assert codes == ["ak1", "ak1"];
    LowerCaseCode(codes);
  }

  lemma LowerCaseCode(codes: seq<string>)
    requires codes == ["ak1", "ak1"]
    ensures CheckCodes(codes) == BadCharacters
  {
    assert forall i :: 0 <= i < |codes| ==> codes[i] == "ak1";
    assert !IsCode(codes[0]) by {
      assert !IsCodeChar("ak1"[0]);
    }
  }
}
