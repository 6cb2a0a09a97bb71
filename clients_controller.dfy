/**
 * `GET /api/admin/clients`: how `getClients` turns the query string into a page request and a
 * filter, and what it answers. The database is a collaborator that runs a `findMany`/`count`
 * pair for the request, or fails. A query parameter is `None` when it is absent.
 */
module ClientsController {
  import opened Wrappers
  import opened Text

  const DEFAULT_PAGE: int := 1
  const DEFAULT_LIMIT: int := 10

  // ---------------------------------------------------------------------------------------------
  // parseInt (section 19.2.5 of ECMA-262), with no radix argument.

  predicate HexDigit(c: char) {
    IsDigit(c) || 'a' <= c <= 'f' || 'A' <= c <= 'F'
  }

  /** A digit of base 10 or base 16. */
  predicate RadixDigit(c: char, hex: bool) {
    if hex then HexDigit(c) else IsDigit(c)
  }

  function DigitValue(c: char): nat
    requires HexDigit(c)
  {
    if IsDigit(c) then c as int - '0' as int
    else if 'a' <= c <= 'f' then c as int - 'a' as int + 10
    else c as int - 'A' as int + 10
  }

  /** The value of a run of digits, most significant first. */
  function RadixValue(s: string, hex: bool): nat
    requires forall i :: 0 <= i < |s| ==> RadixDigit(s[i], hex)
    decreases |s|
  {
    if |s| == 0 then 0
    else
      assert RadixDigit(s[|s| - 1], hex);
      RadixValue(s[..|s| - 1], hex) * (if hex then 16 else 10) + DigitValue(s[|s| - 1])
  }

  /** The length of the longest prefix of `s` made of digits. */
  function DigitRun(s: string, hex: bool): (n: nat)
    ensures n <= |s|
    ensures forall i :: 0 <= i < n ==> RadixDigit(s[i], hex)
    ensures n < |s| ==> !RadixDigit(s[n], hex)
    decreases |s|
  {
    if |s| > 0 && RadixDigit(s[0], hex) then 1 + DigitRun(s[1..], hex) else 0
  }

  /** What follows an optional sign: a `0x`/`0X` prefix switches to base 16. */
  predicate HexPrefixed(s: string) {
    |s| >= 2 && s[0] == '0' && (s[1] == 'x' || s[1] == 'X')
  }

  /** The digits after the sign: the longest run, in base 16 after `0x`/`0X`, else in base 10. */
  function ParseDigits(u: string): Option<int> {
    var hex := HexPrefixed(u);
    var body := if hex then u[2..] else u;
    var n := DigitRun(body, hex);
    if n == 0 then None else Some(RadixValue(body[..n], hex))
  }

  /**
   * `parseInt(s)`: `None` is `NaN`. Leading white space and one sign are skipped, then the
   * longest run of digits is read. `-0` is reported as `0`: both are falsy.
   */
  function ParseInt(s: Option<string>): Option<int> {
    if s.None? then None
    else
      var t := TrimStart(s.value);
      if |t| > 0 && t[0] == '-' then
        match ParseDigits(t[1..])
        case None => None
        case Some(v) => Some(-v)
      else if |t| > 0 && t[0] == '+' then ParseDigits(t[1..])
      else ParseDigits(t)
  }

  /**
   * `parseInt(s) || fallback`: the parsed number when it is truthy, else the fallback. A
   * non-zero fallback therefore never yields 0, and negative numbers are kept.
   */
  function IntParam(s: Option<string>, fallback: int): (r: int)
    ensures r == fallback || ParseInt(s) == Some(r)
    ensures ParseInt(s).Some? && ParseInt(s).value != 0 ==> r == ParseInt(s).value
    ensures ParseInt(s).None? || ParseInt(s) == Some(0) ==> r == fallback
    ensures fallback != 0 ==> r != 0
  {
    match ParseInt(s)
    case None => fallback
    case Some(v) => if v == 0 then fallback else v
  }

  /** A plain run of decimal digits reads as its value. */
  lemma ParseDecimal(digits: string)
    requires |digits| > 0 && AllDigits(digits)
    ensures ParseInt(Some(digits)) == Some(DecimalValue(digits))
  {
    Unsigned(digits);
    PlainDecimal(digits);
  }

  /** Text that starts with a digit has no white space or sign to skip. */
  lemma Unsigned(s: string)
    requires |s| > 0 && IsDigit(s[0])
    ensures ParseInt(Some(s)) == ParseDigits(s)
  {
    assert !IsJsSpace(s[0]);
    assert TrimStart(s) == s;
  }

  /** The base-10 reading of a run of digits, which is also `Text.DigitsValue`. */
  function DecimalValue(digits: string): (v: nat)
    requires AllDigits(digits)
    ensures v == DigitsValue(digits) && v == RadixValue(digits, false)
    decreases |digits|
  {
    if |digits| == 0 then 0
    else DecimalValue(digits[..|digits| - 1]) * 10 + DigitValue(digits[|digits| - 1])
  }

  /**
   * Digits followed by anything that does not start with a digit read as those digits, unless
   * they are `0x`/`0X` followed by more: that is a hexadecimal number.
   */
  lemma DecimalPrefix(digits: string, rest: string)
    requires |digits| > 0 && AllDigits(digits) && (|rest| > 0 ==> !IsDigit(rest[0]))
    requires !HexPrefixed(digits + rest)
    ensures ParseInt(Some(digits + rest)) == Some(DecimalValue(digits))
  {
    assert (digits + rest)[0] == digits[0];
    Unsigned(digits + rest);
    DecimalRun(digits, rest);
  }

  /** Unsigned digits, then a non-digit, read as those digits when no `0x` prefix is present. */
  lemma DecimalRun(digits: string, rest: string)
    requires |digits| > 0 && AllDigits(digits) && (|rest| > 0 ==> !IsDigit(rest[0]))
    requires !HexPrefixed(digits + rest)
    ensures ParseDigits(digits + rest) == Some(DecimalValue(digits))
  {
    var s := digits + rest;
    RunOfDigits(digits, rest);
    assert s[..|digits|] == digits;
  }

  lemma {:induction false} RunOfDigits(digits: string, rest: string)
    requires AllDigits(digits) && (|rest| > 0 ==> !IsDigit(rest[0]))
    ensures DigitRun(digits + rest, false) == |digits|
    decreases |digits|
  {
    if |digits| > 0 {
      assert (digits + rest)[1..] == digits[1..] + rest;
      RunOfDigits(digits[1..], rest);
    } else {
      assert digits + rest == rest;
    }
  }

  /** A minus sign in front of digits is kept: nothing clamps a negative page or limit. */
  lemma NegativeKept(digits: string)
    requires |digits| > 0 && AllDigits(digits) && DecimalValue(digits) > 0
    ensures IntParam(Some("-" + digits), DEFAULT_PAGE) == -(DecimalValue(digits) as int)
  {
    var s := "-" + digits;
    var v := DecimalValue(digits);
    assert s[1..] == digits;
    PlainDecimal(digits);
    Negated(s, v, DEFAULT_PAGE);
  }

  /** A run of decimal digits alone reads as its value: a digit never follows a leading `0` as `x`. */
  lemma PlainDecimal(digits: string)
    requires |digits| > 0 && AllDigits(digits)
    ensures ParseDigits(digits) == Some(DecimalValue(digits))
  {
    assert !HexPrefixed(digits) by {
      if |digits| >= 2 {
        assert IsDigit(digits[1]);
      }
    }
    assert digits + "" == digits;
    RunOfDigits(digits, "");
    assert digits[..|digits|] == digits;
  }

  /** A minus sign in front of digits that read as `v` gives `-v`, which falls back only when zero. */
  lemma Negated(s: string, v: nat, fallback: int)
    requires |s| > 0 && s[0] == '-' && ParseDigits(s[1..]) == Some(v)
    ensures ParseInt(Some(s)) == Some(-(v as int))
    ensures IntParam(Some(s), fallback) == if v == 0 then fallback else -(v as int)
  {
    assert !IsJsSpace(s[0]);
    assert TrimStart(s) == s;
  }

  /** An absent, empty or non-numeric parameter, or one that reads as zero, falls back. */
  lemma FallbackCases(digits: string, fallback: int)
    requires AllDigits(digits) && |digits| > 0 && DecimalValue(digits) == 0
    ensures IntParam(None, fallback) == fallback
    ensures IntParam(Some(""), fallback) == fallback
    ensures IntParam(Some("abc"), fallback) == fallback
    ensures IntParam(Some(digits), fallback) == fallback
  {
    NotANumber("");
    NotANumber("abc");
    ParseDecimal(digits);
  }

  /** Text whose first character is neither white space, a sign nor a digit is `NaN`. */
  lemma NotANumber(s: string)
    requires |s| > 0 ==> !IsJsSpace(s[0]) && !IsDigit(s[0]) && s[0] != '-' && s[0] != '+'
    ensures ParseInt(Some(s)) == None
  {
    assert TrimStart(s) == s;
    assert !HexPrefixed(s);
    assert DigitRun(s, false) == 0;
  }

  // ---------------------------------------------------------------------------------------------
  // The request the controller builds.

  /** `where`: the name/slug `OR` filter and the `isActive` condition, each possibly absent. */
  datatype Where = Where(search: Option<string>, isActive: Option<bool>)

  datatype FindRequest = FindRequest(where: Where, skip: int, take: int)

  datatype Query = Query(page: Option<string>, limit: Option<string>, search: Option<string>,
                         isActive: Option<string>)

  datatype Meta = Meta(total: nat, page: int, limit: int)

  /** The selected columns of one client row. */
  datatype Row = Row(id: nat, slug: string, name: string, isActive: bool, timezone: string, createdAt: int)

  datatype Response = Listed(data: seq<Row>, meta: Meta) | InternalError

  /** `'true'` and `'false'` select; anything else leaves the filter out. */
  function IsActiveParam(q: Option<string>): (r: Option<bool>)
    ensures r == Some(true) <==> q == Some("true")
    ensures r == Some(false) <==> q == Some("false")
  {
    if q == Some("true") then Some(true) else if q == Some("false") then Some(false) else None
  }

  function Request(q: Query): FindRequest {
    var page := IntParam(q.page, DEFAULT_PAGE);
    var limit := IntParam(q.limit, DEFAULT_LIMIT);
    FindRequest(Where(if Given(q.search) then q.search else None, IsActiveParam(q.isActive)),
                (page - 1) * limit, limit)
  }

  /** `getClients`: `db` runs the `findMany`/`count` transaction, or fails. */
  function GetClients(q: Query, db: FindRequest -> Option<(seq<Row>, nat)>): (r: Response)
    ensures db(Request(q)).None? <==> r == InternalError
    ensures r.Listed? ==>
      && r.data == db(Request(q)).value.0 && r.meta.total == db(Request(q)).value.1
      && r.meta.limit == Request(q).take
      && Request(q).skip == (r.meta.page - 1) * r.meta.limit
      && r.meta.page == IntParam(q.page, DEFAULT_PAGE)
  {
    match db(Request(q))
    case None => InternalError
    case Some((rows, total)) => Listed(rows, Meta(total, IntParam(q.page, DEFAULT_PAGE), IntParam(q.limit, DEFAULT_LIMIT)))
  }

  /**
   * The request reads `limit` rows starting after the previous pages: page `p + 1` starts where
   * page `p` ends; the search filter is present exactly when the search text is non-empty.
   */
  lemma RequestShape(q: Query)
    ensures var r := Request(q); var page := IntParam(q.page, DEFAULT_PAGE); var limit := IntParam(q.limit, DEFAULT_LIMIT);
      && r.take == limit && r.skip == (page - 1) * limit
      && (r.where.search.Some? <==> Given(q.search))
      && (r.where.search.Some? ==> r.where.search == q.search)
      && r.where.isActive == IsActiveParam(q.isActive)
  {
    var page, limit := IntParam(q.page, DEFAULT_PAGE), IntParam(q.limit, DEFAULT_LIMIT);
    assert Request(q) == FindRequest(Where(if Given(q.search) then q.search else None, IsActiveParam(q.isActive)),
                                     (page - 1) * limit, limit);
  }
}
