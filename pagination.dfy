/** Page parameters parsed from a query string, page metadata and the skip/take window of a
    page (src/lib/pagination.ts). */
module Pagination {
  import opened Results
  import opened Text

  const DefaultPageSize: nat := 20
  const MaxPageSize: nat := 100

  /** The raw `page` and `pageSize` query values; either may be missing. */
  datatype PageQuery = PageQuery(page: Option<string>, pageSize: Option<string>)

  datatype PaginationParams = PaginationParams(page: int, pageSize: int)

  datatype PaginationMeta = PaginationMeta(
    page: int, pageSize: int, totalCount: nat, totalPages: nat, hasNextPage: bool, hasPrevPage: bool)

  datatype SkipTake = SkipTake(skip: int, take: int)

  /** `parseInt(s, 10)`: leading white space, an optional sign, then the longest run of digits;
      `None` stands for NaN, the result when no digit follows. */
  function ParseInt(s: string): (r: Option<int>)
    ensures r.None? <==> LeadingDigits(Unsigned(TrimStart(s))) == []
  {
    var t := TrimStart(s);
    var digits := LeadingDigits(Unsigned(t));
    if digits == [] then None
    else if |t| > 0 && t[0] == '-' then Some(-(DigitsValue(digits) as int))
    else Some(DigitsValue(digits))
  }

  /** The text after an optional leading sign. */
  function Unsigned(t: string): string {
    if |t| > 0 && (t[0] == '-' || t[0] == '+') then t[1..] else t
  }

  /** A number's own decimal text parses back to that number. */
  lemma ParseDecimal(n: nat)
    ensures ParseInt(Decimal(n)) == Some(n)
  {
    DecimalRoundTrip(n);
    ParseDigits(Decimal(n), n);
  }

  /** `parseInt(raw || String(fallback), 10) || fallback`: a missing or empty value, a value that
      is not a number, and zero all give the fallback. */
  function IntOr(raw: Option<string>, fallback: nat): (r: int)
    ensures r == fallback || (r != 0 && ParsedValue(raw) == Some(r))
  {
    ParseDecimal(fallback);
    var text := if raw.None? || raw.value == "" then Decimal(fallback) else raw.value;
    var n := ParseInt(text);
    if n.None? || n.value == 0 then fallback else n.value
  }

  /** When does a raw query value stand for a number: present, non-empty and starting with digits. */
  function ParsedValue(raw: Option<string>): Option<int> {
    if raw.None? || raw.value == "" then None else ParseInt(raw.value)
  }

  lemma IntOrCases(raw: Option<string>, fallback: nat)
    requires fallback >= 1
    ensures ParsedValue(raw).None? ==> IntOr(raw, fallback) == fallback
    ensures ParsedValue(raw) == Some(0) ==> IntOr(raw, fallback) == fallback
    ensures ParsedValue(raw).Some? && ParsedValue(raw).value != 0 ==> IntOr(raw, fallback) == ParsedValue(raw).value
  {
    ParseDecimal(fallback);
  }

  /** `parsePaginationParams`. */
  function ParsePaginationParams(q: PageQuery): (p: PaginationParams)
    ensures p.page >= 1
    ensures 1 <= p.pageSize <= MaxPageSize
  {
    var page := Max(1, IntOr(q.page, 1));
    var pageSize := Min(Max(1, IntOr(q.pageSize, DefaultPageSize)), MaxPageSize);
    PaginationParams(page, pageSize)
  }

  function Max(a: int, b: int): int { if a < b then b else a }
  function Min(a: int, b: int): int { if a < b then a else b }

  /** A missing, empty, non-numeric, zero or negative page gives page 1; otherwise the number. */
  lemma PageParsing(q: PageQuery)
    ensures var v := ParsedValue(q.page);
      ParsePaginationParams(q).page == if v.Some? && v.value >= 1 then v.value else 1
  {
    IntOrCases(q.page, 1);
  }

  /** A missing, empty, non-numeric or zero page size gives 20; a negative one 1; one above 100
      is clamped to 100. */
  lemma PageSizeParsing(q: PageQuery)
    ensures var v := ParsedValue(q.pageSize);
      ParsePaginationParams(q).pageSize ==
        if v.None? || v.value == 0 then DefaultPageSize
        else if v.value < 1 then 1
        else if v.value > MaxPageSize then MaxPageSize
        else v.value
  {
    IntOrCases(q.pageSize, DefaultPageSize);
  }

  lemma ParseDefaults()
    ensures ParsePaginationParams(PageQuery(None, None)) == PaginationParams(1, 20)
  {
    IntOrCases(None, 1);
    IntOrCases(None, DefaultPageSize);
  }

  lemma ParseValid()
    ensures ParsePaginationParams(PageQuery(Some("3"), Some("50"))) == PaginationParams(3, 50)
  {
    ParseThree();
    ParseFifty();
    PageParsing(PageQuery(Some("3"), Some("50")));
    PageSizeParsing(PageQuery(Some("3"), Some("50")));
  }

  lemma ParseThree()
    ensures ParsedValue(Some("3")) == Some(3)
  {
    assert AllDigits("3") && DigitsValue("3") == 3 by {
      assert "3" == Decimal(3);
      DecimalRoundTrip(3);
    }
    ParseDigits("3", 3);
  }

  lemma ParseFifty()
    ensures ParsedValue(Some("50")) == Some(50)
  {
    assert AllDigits("50") && DigitsValue("50") == 50 by {
      assert "50" == Decimal(50);
      DecimalRoundTrip(50);
    }
    ParseDigits("50", 50);
  }

  /** A string of digits that does not start with white space or a sign parses to its value. */
  lemma ParseDigits(s: string, n: int)
    requires |s| >= 1 && AllDigits(s) && DigitsValue(s) == n
    ensures ParseInt(s) == Some(n)
  {
    DigitNotSpace(s[0]);
    TrimStartNoSpace(s);
    assert Unsigned(s) == s;
    LeadingDigitsAll(s);
    assert LeadingDigits(Unsigned(TrimStart(s))) == s;
  }

  /** "-5" parses as -5: the sign is read before the digits. */
  lemma ParseMinusFive()
    ensures ParseInt("-5") == Some(-5)
  {
    assert AllDigits("5") && DigitsValue("5") == 5 by {
      assert "5" == Decimal(5);
      DecimalRoundTrip(5);
    }
    assert "-5"[1..] == "5";
    ParseNegative("-5", 5);
  }

  /** A minus sign followed by digits parses to the negated value. */
  lemma ParseNegative(t: string, n: int)
    requires |t| >= 2 && t[0] == '-' && AllDigits(t[1..]) && DigitsValue(t[1..]) == n
    ensures ParseInt(t) == Some(-n)
  {
    TrimStartNoSpace(t);
    LeadingDigitsAll(t[1..]);
  }

  /** Text without leading digits is not a number. */
  lemma ParseNotANumber()
    ensures ParseInt("abc") == None
  {
    TrimStartNoSpace("abc");
    assert LeadingDigits("abc") == [];
  }

  lemma ParseZero()
    ensures ParsedValue(Some("0")) == Some(0)
  {
    assert AllDigits("0") && DigitsValue("0") == 0 by {
      assert "0" == Decimal(0);
      DecimalRoundTrip(0);
    }
    ParseDigits("0", 0);
  }

  /** "0" is falsy after parsing, so a zero page size falls back to the default. */
  lemma ParseZeroPageSize()
    ensures ParsePaginationParams(PageQuery(Some("0"), Some("0"))) == PaginationParams(1, 20)
  {
    ParseZero();
    PageParsing(PageQuery(Some("0"), Some("0")));
    PageSizeParsing(PageQuery(Some("0"), Some("0")));
  }

  /** `Math.ceil(a / b)` on non-negative integers: the fewest pages of `b` that hold `a` items. */
  function CeilDiv(a: nat, b: nat): (q: nat)
    requires b >= 1
    ensures q * b >= a
    ensures q == 0 || (q - 1) * b < a
  {
    var q := (a + b - 1) / b;
    assert q * b >= a && (q == 0 || (q - 1) * b < a) by { DivBounds(a + b - 1, b); }
    q
  }

  lemma DivBounds(n: nat, b: nat)
    requires b >= 1
    ensures (n / b) * b <= n < (n / b) * b + b
  {
  }

  /** `calculatePaginationMeta`: the page is clamped into 1 .. max(1, totalPages). */
  function CalculatePaginationMeta(totalCount: nat, params: PaginationParams): (m: PaginationMeta)
    requires params.pageSize >= 1
    ensures m.pageSize == params.pageSize && m.totalCount == totalCount
    ensures m.totalPages * params.pageSize >= totalCount
    ensures m.totalPages == 0 || (m.totalPages - 1) * params.pageSize < totalCount
    ensures m.page <= params.page && m.page <= Max(1, m.totalPages)
    ensures params.page >= 1 ==> m.page >= 1
    ensures m.page < params.page ==> m.page == Max(1, m.totalPages)
    ensures m.hasNextPage <==> m.page < m.totalPages
    ensures m.hasPrevPage <==> m.page > 1
  {
    var totalPages := CeilDiv(totalCount, params.pageSize);
    var page := Min(params.page, Max(1, totalPages));
    PaginationMeta(page, params.pageSize, totalCount, totalPages, page < totalPages, page > 1)
  }

  /** No items means no pages, and the page is 1 (for any requested page of at least 1). */
  lemma EmptyMeta(params: PaginationParams)
    requires params.pageSize >= 1 && params.page >= 1
    ensures var m := CalculatePaginationMeta(0, params);
      m.totalPages == 0 && m.page == 1 && !m.hasNextPage && !m.hasPrevPage
  {
  }

  /** `calculateSkipTake`. */
  function CalculateSkipTake(params: PaginationParams): (w: SkipTake)
    ensures w.take == params.pageSize
    ensures params.page >= 1 && params.pageSize >= 0 ==> w.skip >= 0
  {
    SkipTake((params.page - 1) * params.pageSize, params.pageSize)
  }

  /** Page p + 1 starts exactly where page p ends. */
  lemma PagesAdjacent(page: int, pageSize: int)
    ensures var w := CalculateSkipTake(PaginationParams(page, pageSize));
      CalculateSkipTake(PaginationParams(page + 1, pageSize)).skip == w.skip + w.take
  {
  }

  /** Every item index lies in the window of exactly one page, and that page is a real page. */
  lemma ItemOnOnePage(totalCount: nat, pageSize: int, i: nat)
    requires pageSize >= 1 && i < totalCount
    ensures var p := i / pageSize + 1; var w := CalculateSkipTake(PaginationParams(p, pageSize));
      && 1 <= p <= CalculatePaginationMeta(totalCount, PaginationParams(p, pageSize)).totalPages
      && w.skip <= i < w.skip + w.take
    ensures forall p :: 1 <= p && p != i / pageSize + 1 ==>
      var w := CalculateSkipTake(PaginationParams(p, pageSize)); !(w.skip <= i < w.skip + w.take)
  {
    var q := i / pageSize;
    DivBounds(i, pageSize);
    var tp := CeilDiv(totalCount, pageSize);
    assert q + 1 <= tp by {
      if tp <= q { MulMono(tp, q, pageSize); }
    }
    forall p | 1 <= p && p != q + 1
      ensures var w := CalculateSkipTake(PaginationParams(p, pageSize)); !(w.skip <= i < w.skip + w.take)
    {
      MulShift(p, pageSize);
      if p < q + 1 {
        MulMono(p, q, pageSize);
      } else {
        MulShift(q + 1, pageSize);
        MulMono(q + 1, p - 1, pageSize);
      }
    }
  }

  lemma MulShift(a: int, c: int)
    ensures (a - 1) * c == a * c - c
  {
  }

  lemma MulMono(a: int, b: int, c: nat)
    requires a <= b
    ensures a * c <= b * c
  {
  }

  /** The clamped page of a non-empty result always starts inside the data. */
  lemma ClampedPageHasItems(totalCount: nat, params: PaginationParams)
    requires params.pageSize >= 1 && params.page >= 1 && totalCount >= 1
    ensures var m := CalculatePaginationMeta(totalCount, params);
      0 <= CalculateSkipTake(PaginationParams(m.page, m.pageSize)).skip < totalCount
  {
    var m := CalculatePaginationMeta(totalCount, params);
    MulMono(m.page - 1, m.totalPages - 1, params.pageSize);
  }
}
