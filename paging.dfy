/**
 * The paging-parameter coercion of the codes controller: the raw `text`,
 * page-number and page-size request strings become the parameter map that
 * the code DAO receives.  Malformed numbers are dropped from the map rather
 * than reported as errors.
 */
module Paging {
  import opened Optional

  /** The keys of the DAO parameter map. */
  const TEXT_SEARCH := "text"
  const OFFSET := "offset"
  const FETCH_SIZE := "fetchSize"

  /** A value of the DAO parameter map: the filter text or a number. */
  datatype ParamValue = TextValue(text: string) | IntValue(n: int)

  type Params = map<string, ParamValue>

  predicate IsDigit(c: char) {
    '0' <= c <= '9'
  }

  predicate AllDigits(s: string) {
    forall i :: 0 <= i < |s| ==> IsDigit(s[i])
  }

  /**
   * The strict integer-literal check: the string is present, non-empty and
   * made of decimal digits only (no sign, no decimal point, no blanks).
   */
  predicate IsInteger(s: Option<string>)
    ensures IsInteger(s) ==> s.Some? && '-' !in s.value && '+' !in s.value && '.' !in s.value && ' ' !in s.value
  {
    s.Some? && |s.value| > 0 && AllDigits(s.value)
  }

  function DigitValue(c: char): nat
    requires IsDigit(c)
  {
    c as int - '0' as int
  }

  function DigitChar(d: nat): char
    requires d < 10
  {
    ('0' as int + d) as char
  }

  /** The number a digit string denotes. */
  function ParseDigits(s: string): nat
    requires AllDigits(s)
  {
    if s == [] then 0 else 10 * ParseDigits(s[..|s| - 1]) + DigitValue(s[|s| - 1])
  }

  /** The number an accepted integer literal denotes. */
  function ParseInteger(s: Option<string>): nat
    requires IsInteger(s)
  {
    ParseDigits(s.value)
  }

  /** The decimal spelling of a natural number, without leading zeros. */
  function Show(n: nat): (r: string)
    ensures |r| > 0 && AllDigits(r)
    ensures |r| > 1 ==> r[0] != '0'
  {
    if n < 10 then [DigitChar(n)] else Show(n / 10) + [DigitChar(n % 10)]
  }

  /** Reading back the spelling of a number gives that number. */
  lemma {:induction false} ParseShow(n: nat)
    ensures IsInteger(Some(Show(n)))
    ensures ParseInteger(Some(Show(n))) == n
  {
    var s := Show(n);
    if n >= 10 {
      ParseShow(n / 10);
      assert s[..|s| - 1] == Show(n / 10);
      assert DigitValue(s[|s| - 1]) == n % 10;
    } else {
      assert s == [DigitChar(n)];
      assert s[..|s| - 1] == [];
      assert ParseDigits(s[..|s| - 1]) == 0;
      assert DigitValue(s[0]) == n;
      assert ParseDigits(s) == n;
    }
  }

  /** Whether a filter text is passed on: a null or empty text is not. */
  predicate HasText(text: Option<string>) {
    text.Some? && text.value != ""
  }

  /**
   * The parameter map the DAO receives for the raw text, page number and
   * page size: the text when it is non-empty, `fetchSize` when the page size
   * is an integer literal, and the 0-based `offset` = (page - 1) * size when
   * both the page number and the page size are integer literals.
   */
  function ParamMap(text: Option<string>, pageNumber: Option<string>, pageSize: Option<string>): (m: Params)
    ensures m.Keys <= {TEXT_SEARCH, OFFSET, FETCH_SIZE}
    ensures OFFSET in m ==> FETCH_SIZE in m
  {
    (if HasText(text) then map[TEXT_SEARCH := TextValue(text.value)] else map[])
    + (if IsInteger(pageSize) then map[FETCH_SIZE := IntValue(ParseInteger(pageSize))] else map[])
    + (if IsInteger(pageNumber) && IsInteger(pageSize)
       then map[OFFSET := IntValue((ParseInteger(pageNumber) - 1) * ParseInteger(pageSize))]
       else map[])
  }

  /** The map is built by conditional puts into an initially empty map. */
  method BuildParams(text: Option<string>, pageNumber: Option<string>, pageSize: Option<string>)
    returns (parms: Params)
    ensures parms == ParamMap(text, pageNumber, pageSize)
  {
    parms := map[];
    if HasText(text) {
      parms := parms[TEXT_SEARCH := TextValue(text.value)];
    }
    if IsInteger(pageSize) {
      var size := ParseInteger(pageSize);
      parms := parms[FETCH_SIZE := IntValue(size)];
      if IsInteger(pageNumber) {
        var page: int := ParseInteger(pageNumber);
        parms := parms[OFFSET := IntValue((page - 1) * size)];
      }
    }
  }

  /**
   * Entry by entry: which keys the map holds, and what each entry is.  The
   * text is passed verbatim; the page size alone decides `fetchSize`, so
   * an unusable page number still leaves it in place; no other key appears.
   */
  lemma ParamMapEntries(text: Option<string>, pageNumber: Option<string>, pageSize: Option<string>)
    ensures var m := ParamMap(text, pageNumber, pageSize);
      && m.Keys <= {TEXT_SEARCH, OFFSET, FETCH_SIZE}
      && (TEXT_SEARCH in m <==> HasText(text))
      && (HasText(text) ==> m[TEXT_SEARCH] == TextValue(text.value))
      && (FETCH_SIZE in m <==> IsInteger(pageSize))
      && (IsInteger(pageSize) ==> m[FETCH_SIZE] == IntValue(ParseInteger(pageSize)))
      && (OFFSET in m <==> IsInteger(pageNumber) && IsInteger(pageSize))
      && (OFFSET in m && ParseInteger(pageNumber) >= 1 ==>
            m[OFFSET] == IntValue((ParseInteger(pageNumber) - 1) * ParseInteger(pageSize)))
  {
  }

  /** An empty text is treated exactly like a null text. */
  lemma EmptyTextIsAbsent(pageNumber: Option<string>, pageSize: Option<string>)
    ensures ParamMap(Some(""), pageNumber, pageSize) == ParamMap(None, pageNumber, pageSize)
    ensures TEXT_SEARCH !in ParamMap(None, pageNumber, pageSize)
  {
  }

  /**
   * For every page p >= 1 and page size s >= 1 written in decimal, the DAO
   * is asked for s records starting at (p - 1) * s.
   */
  lemma PageWindow(text: Option<string>, p: nat, s: nat)
    requires p >= 1 && s >= 1
    ensures var m := ParamMap(text, Some(Show(p)), Some(Show(s)));
      && m[FETCH_SIZE] == IntValue(s)
      && m[OFFSET] == IntValue((p - 1) * s)
  {
    ParseShow(p);
    ParseShow(s);
    ParamMapEntries(text, Some(Show(p)), Some(Show(s)));
  }

  /** A string with a leading minus sign is never an integer literal. */
  lemma SignedRejected(s: string)
    requires |s| > 0 && s[0] == '-'
    ensures !IsInteger(Some(s))
  {
    assert !IsDigit(s[0]);
  }

  /** The literal cases of the controller's integer check. */
  lemma IsIntegerCases()
    ensures !IsInteger(None)
    ensures !IsInteger(Some("a b c2"))
    ensures !IsInteger(Some("12.34"))
    ensures IsInteger(Some("1234"))
  {
    assert !IsDigit("a b c2"[0]);
    assert !IsDigit("12.34"[2]);
  }

  /** The happy path: page 1 of size 5 starts at 0. */
  lemma FirstPageCase()
    ensures ParamMap(Some("US"), Some("1"), Some("5"))
         == map[TEXT_SEARCH := TextValue("US"), OFFSET := IntValue(0), FETCH_SIZE := IntValue(5)]
  {
  }

  /** Null and empty inputs give an empty map. */
  lemma NullAndEmptyCases()
    ensures ParamMap(None, None, None) == map[]
    ensures ParamMap(Some(""), Some(""), Some("")) == map[]
  {
  }

  /** Non-numeric and negative paging strings are dropped; the text is kept. */
  lemma MalformedNumberCases()
    ensures ParamMap(Some("xx x"), Some("y4"), Some("z2")) == map[TEXT_SEARCH := TextValue("xx x")]
    ensures ParamMap(Some("xx x"), Some("-4"), Some("-2")) == map[TEXT_SEARCH := TextValue("xx x")]
  {
    assert !IsDigit("y4"[0]) && !IsDigit("z2"[0]);
    assert !IsDigit("-4"[0]) && !IsDigit("-2"[0]);
  }

  /** An unusable page number still leaves the page size in place. */
  lemma SizeWithoutPageCase()
    ensures ParamMap(Some("xx x"), Some("X"), Some("2"))
         == map[TEXT_SEARCH := TextValue("xx x"), FETCH_SIZE := IntValue(2)]
  {
    assert !IsDigit("X"[0]);
  }

  /** Page 4 of size 15 starts at 45. */
  lemma LaterPageCase()
    ensures ParamMap(Some("xx x"), Some("4"), Some("15"))
         == map[TEXT_SEARCH := TextValue("xx x"), OFFSET := IntValue(45), FETCH_SIZE := IntValue(15)]
  {
    assert ParseDigits("15") == 15 by {
      assert "15"[..1] == "1";
    }
  }
}
