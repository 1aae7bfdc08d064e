/**
 * The decisions of the fund endpoints: the default ordering of the fund list and of a fund's price
 * history, and the response of the comparison endpoint, which looks the requested codes up and
 * reports the ones it did not find. The fund table is an input; a lookup by codes keeps, in table
 * order, the funds whose code is among them.
 */
module FundController {
  import opened Basics
  import opened Text
  import opened Validators
  import opened CompanyController

  // ----- Default orderings -----

  /** Lines 11-12: the fund list is ordered by `sort`, title by default, in the upper-cased `order`, ascending by default. */
  function ListFundsOrder(q: Query): (r: (string, string))
    ensures !Given(q, "sort") ==> r.0 == "title"
    ensures Given(q, "sort") ==> r.0 == q["sort"]
    ensures !Given(q, "order") ==> r.1 == "ASC"
    ensures Given(q, "order") ==> r.1 == ToUpper(q["order"])
  {
    (ValueOr(q, "sort", "title"), ToUpper(ValueOr(q, "order", "ASC")))
  }

  /** Lines 61-62: a price history is ordered by `sort`, date by default, in the upper-cased `order`, descending by default. */
  function HistoricalOrder(q: Query): (r: (string, string))
    ensures !Given(q, "sort") ==> r.0 == "date"
    ensures Given(q, "sort") ==> r.0 == q["sort"]
    ensures !Given(q, "order") ==> r.1 == "DESC"
    ensures Given(q, "order") ==> r.1 == ToUpper(q["order"])
  {
    (ValueOr(q, "sort", "date"), ToUpper(ValueOr(q, "order", "DESC")))
  }

  /** An order parameter spelled in lower case reaches the database in upper case. */
  lemma LowerCaseOrderAccepted(q: Query)
    requires "order" in q && q["order"] == "desc"
    ensures ListFundsOrder(q).1 == "DESC" && HistoricalOrder(q).1 == "DESC"
  {
    assert ToUpper(q["order"]) == "DESC";
  }

  // ----- compareFunds -----

  /** The code of each fund, in order. */
  function CodesOf(funds: seq<FundRow>): (codes: seq<string>)
    ensures |codes| == |funds|
    ensures forall i :: 0 <= i < |funds| ==> codes[i] == funds[i].code
  {
    seq(|funds|, i requires 0 <= i < |funds| => funds[i].code)
  }

  /** No two funds of the table share a code: the code is the table's primary key. */
  predicate UniqueCodes(funds: seq<FundRow>)
  {
    NoRepeats(CodesOf(funds))
  }

  /** Lines 94-110: the funds of the table whose code is one of `codes`, in table order. */
  function Lookup(table: seq<FundRow>, codes: seq<string>): (found: seq<FundRow>)
    ensures |found| <= |table|
    ensures forall f :: f in found <==> f in table && f.code in codes
  {
    if table == [] then []
    else
      assert table == [table[0]] + table[1..];
      (if table[0].code in codes then [table[0]] else []) + Lookup(table[1..], codes)
  }

  /** Lines 118-119: the requested codes that no found fund carries, in request order. */
  function Missing(codes: seq<string>, found: seq<FundRow>): (missing: seq<string>)
    ensures |missing| <= |codes|
    ensures forall c :: c in missing <==> c in codes && c !in CodesOf(found)
  {
    if codes == [] then []
    else
      assert codes == [codes[0]] + codes[1..];
      (if codes[0] in CodesOf(found) then [] else [codes[0]]) + Missing(codes[1..], found)
  }

  /** A single requested code is listed, once, exactly when no found fund carries it. */
  lemma MissingSingle(c: string, found: seq<FundRow>)
    ensures Missing([c], found) == if c in CodesOf(found) then [] else [c]
  {
    assert [c][1..] == [];
  }

  /**
   * The missing list of a concatenated request is the two lists one after the other: together with
   * `MissingSingle`, the missing codes are the request filtered in order, repeats kept.
   */
  lemma {:induction false} MissingAppend(a: seq<string>, b: seq<string>, found: seq<FundRow>)
    ensures Missing(a + b, found) == Missing(a, found) + Missing(b, found)
  {
    if a == [] {
      assert a + b == b;
    } else {
      assert (a + b)[0] == a[0];
      assert (a + b)[1..] == a[1..] + b;
      MissingAppend(a[1..], b, found);
    }
  }

  /** The response of the comparison endpoint. */
  datatype CompareResponse =
    | CodesRequired                      // 400, 'Karşılaştırılacak fon kodları gerekli'
    | NoFundsFound                       // 404, 'Belirtilen fonlar bulunamadı'
    | SomeMissing(missing: seq<string>)  // 404, 'Bazı fonlar bulunamadı'
    | Compared(funds: seq<FundRow>)

  /** Lines 94-127: the response once the codes are known. */
  function CompareCodes(codes: seq<string>, table: seq<FundRow>): (r: CompareResponse)
    ensures r != CodesRequired
    ensures r.NoFundsFound? <==> forall f :: f in table ==> f.code !in codes
    ensures r.SomeMissing? ==> forall c :: c in r.missing <==> c in codes && c !in CodesOf(Lookup(table, codes))
    ensures r.Compared? ==> forall f :: f in r.funds <==> f in table && f.code in codes
  {
    var found := Lookup(table, codes);
    if |found| == 0 then
      assert forall f :: f in table && f.code in codes ==> f in found;
      NoFundsFound
    else
      assert found[0] in found;
      if |found| != |codes| then SomeMissing(Missing(codes, found))
      else Compared(found)
  }

  /** Lines 85-131: 400 without codes; otherwise the raw comma-separated pieces are looked up as they are. */
  function CompareFunds(codes: Option<string>, table: seq<FundRow>): (r: CompareResponse)
    ensures r.CodesRequired? <==> codes.None? || codes.value == ""
  {
    if codes.None? || codes.value == "" then CodesRequired
    else CompareCodes(Split(codes.value, ','), table)
  }

  /** A lookup in a table with unique codes finds each code at most once. */
  lemma {:induction false} LookupUnique(table: seq<FundRow>, codes: seq<string>)
    requires UniqueCodes(table)
    ensures UniqueCodes(Lookup(table, codes))
  {
    if table != [] {
      var rest := table[1..];
      assert UniqueCodes(rest) by {
        forall i, j | 0 <= i < j < |rest|
          ensures CodesOf(rest)[i] != CodesOf(rest)[j]
        {
          assert CodesOf(table)[i + 1] != CodesOf(table)[j + 1];
        }
      }
      LookupUnique(rest, codes);
      var tail := Lookup(rest, codes);
      if table[0].code in codes {
        var found := [table[0]] + tail;
        assert Lookup(table, codes) == found;
        forall i | 0 <= i < |tail|
          ensures tail[i].code != table[0].code
        {
          assert tail[i] in rest;
          var m :| 0 <= m < |rest| && rest[m] == tail[i];
          assert CodesOf(table)[0] != CodesOf(table)[m + 1];
        }
        forall i, j | 0 <= i < j < |found|
          ensures CodesOf(found)[i] != CodesOf(found)[j]
        {
          if i > 0 {
            assert CodesOf(tail)[i - 1] != CodesOf(tail)[j - 1];
          }
        }
      } else {
        assert Lookup(table, codes) == tail;
      }
    }
  }

  /** The codes of the found funds are the requested codes that the table has. */
  lemma FoundCodes(table: seq<FundRow>, codes: seq<string>)
    ensures Distinct(CodesOf(Lookup(table, codes))) == Distinct(codes) * Distinct(CodesOf(table))
  {
    var found := Lookup(table, codes);
    forall c | c in Distinct(CodesOf(found))
      ensures c in Distinct(codes) * Distinct(CodesOf(table))
    {
      var i :| 0 <= i < |found| && CodesOf(found)[i] == c;
      assert found[i] in found;
      var k :| 0 <= k < |codes| && codes[k] == c;
      var m :| 0 <= m < |table| && table[m] == found[i];
      assert CodesOf(table)[m] == c;
    }
    forall c | c in Distinct(codes) * Distinct(CodesOf(table))
      ensures c in Distinct(CodesOf(found))
    {
      var m :| 0 <= m < |table| && CodesOf(table)[m] == c;
      var k :| 0 <= k < |codes| && codes[k] == c;
      assert table[m] in table;
      assert table[m] in found;
      var i :| 0 <= i < |found| && found[i] == table[m];
      assert CodesOf(found)[i] == c;
    }
  }

  /** A subset has the size of the whole set only when it is the whole set. */
  lemma SubsetSize<T>(part: set<T>, whole: set<T>)
    requires part <= whole
    ensures |part| <= |whole|
    ensures |part| == |whole| <==> part == whole
  {
    var rest := whole - part;
    assert whole == part + rest;
    assert part * rest == {};
    if part != whole {
      var x :| x in whole && x !in part;
      assert x in rest;
    }
  }

  /**
   * When the table's codes are unique and the requested codes are distinct, the comparison succeeds
   * exactly when every requested code is in the table, and otherwise names every missing code.
   */
  lemma CompareOutcome(codes: seq<string>, table: seq<FundRow>)
    requires UniqueCodes(table) && NoRepeats(codes) && codes != []
    ensures CompareCodes(codes, table).Compared? <==> forall c :: c in codes ==> c in CodesOf(table)
    ensures CompareCodes(codes, table).SomeMissing? ==>
              CompareCodes(codes, table).missing != [] &&
              forall c :: c in CompareCodes(codes, table).missing <==> c in codes && c !in CodesOf(table)
  {
    var found := Lookup(table, codes);
    LookupUnique(table, codes);
    FoundCodes(table, codes);
    DistinctSize(codes);
    DistinctSize(CodesOf(found));
    var requested := Distinct(codes);
    var known := Distinct(CodesOf(table));
    DistinctMembers(codes);
    DistinctMembers(CodesOf(table));
    DistinctMembers(CodesOf(found));
    SubsetSize(requested * known, requested);
    assert |found| == |requested * known|;
    assert (forall c :: c in codes ==> c in CodesOf(table)) <==> requested * known == requested;
    var r := CompareCodes(codes, table);
    if r.SomeMissing? {
      var c :| c in requested && c !in known;
      assert c in r.missing;
    }
  }

  /** A string is in the set of a sequence exactly when it occurs in the sequence. */
  lemma DistinctMembers(s: seq<string>)
    ensures forall c :: c in Distinct(s) <==> c in s
  {
    forall c | c in s
      ensures c in Distinct(s)
    {
      var i :| 0 <= i < |s| && s[i] == c;
    }
  }

  /** "AK1, IYB2" splits into "AK1" and " IYB2", which trim to "AK1" and "IYB2". */
  lemma PaddedPair(value: string)
    requires value == "AK1, IYB2"
    ensures Split(value, ',') == ["AK1", " IYB2"]
    ensures RequestedCodes(value) == ["AK1", "IYB2"]
  {
    assert value == "AK1" + [','] + " IYB2";
    SplitAtSeparator("AK1", ',', " IYB2");
    SplitWithoutSeparator(" IYB2", ',');
    TrimPair(Split(value, ','));
  }

  lemma TrimPair(parts: seq<string>)
    requires parts == ["AK1", " IYB2"]
    ensures TrimAll(parts) == ["AK1", "IYB2"]
  {
    TrimUnpadded(parts[0]);
    TrimOneSpace(parts[1], "IYB2");
    var r := TrimAll(parts);
    assert r[0] == "AK1" && r[1] == "IYB2";
  }

  lemma TrimOneSpace(padded: string, code: string)
    requires code == "IYB2" && padded == [' '] + code
    ensures Trim(padded) == code
  {
    TrimLeadingSpace(' ', code);
    TrimUnpadded(code);
  }

  /** Two different well-formed codes pass the strict rules. */
  lemma PairAccepted(codes: seq<string>)
    requires codes == ["AK1", "IYB2"]
    ensures CheckCodes(codes) == Accepted
  {
    assert IsCode(codes[0]) && IsCode(codes[1]);
    assert codes[0] != codes[1] by {
      assert codes[0][0] != codes[1][0];
    }
    FirstBrokenRule(codes);
  }

  /** Looking up "AK1" and " IYB2" in a table of AK1 and IYB2 finds AK1 alone and misses " IYB2". */
  lemma PaddedLookup(parts: seq<string>, table: seq<FundRow>)
    requires parts == ["AK1", " IYB2"]
    requires |table| == 2 && table[0].code == "AK1" && table[1].code == "IYB2"
    ensures CompareCodes(parts, table) == SomeMissing([" IYB2"])
  {
    var found := Lookup(table, parts);
    assert table[1].code != parts[1] by {
      assert |table[1].code| != |parts[1]|;
    }
    assert table[1].code != parts[0] by {
      assert table[1].code[0] != parts[0][0];
    }
    assert Lookup(table[1..], parts) == [];
    assert table[1] !in found;
    assert table == [table[0]] + [table[1]];
    assert table[0] in found;
    assert found == [table[0]];
    assert CodesOf(found) == ["AK1"];
    assert parts[1] !in CodesOf(found);
    assert Missing(parts, found) == [" IYB2"] by {
      assert parts == [parts[0]] + [parts[1]];
      assert Missing(parts[1..], found) == [" IYB2"];
    }
  }

  /**
   * The codes "AK1, IYB2" pass the strict check, which trims them, but the endpoint looks up " IYB2"
   * with its space, so a table holding both funds still reports it missing.
   */
  lemma PaddedCodeReportedMissing(value: string, table: seq<FundRow>)
    requires value == "AK1, IYB2"
    requires |table| == 2 && table[0].code == "AK1" && table[1].code == "IYB2"
    ensures ValidateComparisonRequest(value) == Accepted
    ensures CompareFunds(Some(value), table) == SomeMissing([" IYB2"])
  {
    PaddedPair(value);
    PairAccepted(RequestedCodes(value));
    PaddedLookup(Split(value, ','), table);
  }

  /** The comparison as evidently intended: it looks up the same trimmed codes the strict check accepted. */
  function IntendedCompareFunds(codes: Option<string>, table: seq<FundRow>): (r: CompareResponse)
    ensures r.CodesRequired? <==> codes.None? || codes.value == ""
  {
    if codes.None? || codes.value == "" then CodesRequired
    else CompareCodes(RequestedCodes(codes.value), table)
  }

  /**
   * After the strict check, the intended comparison succeeds exactly when the table holds every
   * code the check accepted, and otherwise names the ones it lacks.
   */
  lemma IntendedComparesAcceptedCodes(value: string, table: seq<FundRow>)
    requires ValidateComparisonRequest(value) == Accepted && UniqueCodes(table)
    ensures var codes := RequestedCodes(value);
            var r := IntendedCompareFunds(Some(value), table);
            && (r.Compared? <==> forall c :: c in codes ==> c in CodesOf(table))
            && (r.SomeMissing? ==> r.missing != [] && forall c :: c in r.missing <==> c in codes && c !in CodesOf(table))
  {
    ComparisonAccepted(value);
    var codes := RequestedCodes(value);
    assert value != "";
    CompareOutcome(codes, table);
  }

  /** The intended comparison finds " IYB2" as IYB2. */
  lemma PaddedCodeFoundWhenTrimmed(value: string, table: seq<FundRow>)
    requires value == "AK1, IYB2"
    requires |table| == 2 && table[0].code == "AK1" && table[1].code == "IYB2"
    ensures IntendedCompareFunds(Some(value), table) == Compared(table)
  {
    PaddedPair(value);
    TrimmedLookup(RequestedCodes(value), table);
  }

  /** Looking up "AK1" and "IYB2" in a table of AK1 and IYB2 finds both. */
  lemma TrimmedLookup(codes: seq<string>, table: seq<FundRow>)
    requires codes == ["AK1", "IYB2"]
    requires |table| == 2 && table[0].code == "AK1" && table[1].code == "IYB2"
    ensures CompareCodes(codes, table) == Compared(table)
  {
    var found := Lookup(table, codes);
    assert table == [table[0]] + [table[1]];
    assert table[0].code in codes && table[1].code in codes;
    assert Lookup(table[1..], codes) == [table[1]];
    assert found == table;
  }
}
