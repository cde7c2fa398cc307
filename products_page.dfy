/**
 * The URL state of the catalogue page, frontend/src/pages/ProductsPage.jsx:
 * how the query string is edited, what it defaults to, which request it
 * turns into, and the numeric page that travels through it as text.
 */
module ProductsPage {
  import opened Common

  /** The page's `URLSearchParams`, one value per key. */
  type Params = map<string, string>

  /** One `[key, value]` pair of the object handed to `updateParams`. */
  datatype Update = Update(key: string, value: string)

  const Limit: int := 12

  // ---------------------------------------------------------------------------
  // Numbers as text: `String(n)` and `parseInt(s)`
  // ---------------------------------------------------------------------------

  predicate IsDigit(c: char)
  {
    '0' <= c <= '9'
  }

  function DigitChar(d: int): (c: char)
    requires 0 <= d < 10
    ensures IsDigit(c) && c as int - '0' as int == d
  {
    ('0' as int + d) as char
  }

  /** Decimal digits of a natural number, without leading zeros. */
  function NatToString(n: nat): (s: string)
    ensures |s| >= 1 && forall i :: 0 <= i < |s| ==> IsDigit(s[i])
  {
    if n < 10 then [DigitChar(n)] else NatToString(n / 10) + [DigitChar(n % 10)]
  }

  /** `String(n)` for an integer. */
  function IntToString(n: int): string
  {
    if n < 0 then "-" + NatToString(-n) else NatToString(n)
  }

  /** The value of a run of decimal digits, most significant first. */
  function DigitsValue(s: string): int
  {
    if |s| == 0 then 0 else DigitsValue(s[..|s| - 1]) * 10 + (s[|s| - 1] as int - '0' as int)
  }

  /** The longest prefix made of digits. */
  function DigitPrefix(s: string): string
  {
    if |s| == 0 || !IsDigit(s[0]) then "" else [s[0]] + DigitPrefix(s[1..])
  }

  /** The digits that follow an optional sign. */
  function Unsigned(t: string): string
  {
    if t != [] && (t[0] == '-' || t[0] == '+') then t[1..] else t
  }

  /** The longest run of digits at the front, read as a number; None when there is none. */
  function ParseDigits(b: string): (r: Option<int>)
    ensures r.None? <==> b == [] || !IsDigit(b[0])
  {
    var digits := DigitPrefix(b);
    if digits == [] then None else Some(DigitsValue(digits))
  }

  /** `parseInt` once the leading blanks are skipped: an optional sign, then the digits. */
  function ParseSigned(t: string): Option<int>
  {
    if t != [] && t[0] == '-' then
      var v := ParseDigits(t[1..]);
      if v.Some? then Some(-v.value) else None
    else if t != [] && t[0] == '+' then ParseDigits(t[1..])
    else ParseDigits(t)
  }

  /**
   * `parseInt(s)` in base 10: leading blanks, an optional sign, then the
   * longest run of digits; anything after it is ignored. None is NaN.
   */
  function ParseInt(s: string): Option<int>
  {
    ParseSigned(SkipSpaces(s))
  }

  /** `parseInt` is NaN exactly when no digit follows the blanks and the optional sign. */
  lemma ParseIntNaN(s: string)
    ensures ParseInt(s).None? <==> var body := Unsigned(SkipSpaces(s)); body == [] || !IsDigit(body[0])
  {
  }

  /** The default page number parses. */
  lemma ParseOne()
    ensures ParseInt("1") == Some(1)
  {
    ParseNonNegative(1);
    assert NatToString(1) == "1";
  }

  lemma {:induction false} DigitPrefixOfDigits(s: string)
    requires forall i :: 0 <= i < |s| ==> IsDigit(s[i])
    ensures DigitPrefix(s) == s
  {
    if |s| > 0 {
      DigitPrefixOfDigits(s[1..]);
      assert [s[0]] + s[1..] == s;
    }
  }

  lemma {:induction false} DigitsValueOfNatToString(n: nat)
    ensures DigitsValue(NatToString(n)) == n
  {
    var s := NatToString(n);
    if n >= 10 {
      DigitsValueOfNatToString(n / 10);
      assert s[..|s| - 1] == NatToString(n / 10);
    }
  }

  /** A run of digits reads back as its value. */
  lemma ParseDigitsOfDigits(digits: string)
    requires |digits| >= 1 && forall i :: 0 <= i < |digits| ==> IsDigit(digits[i])
    ensures ParseDigits(digits) == Some(DigitsValue(digits))
  {
    DigitPrefixOfDigits(digits);
  }

  /** A run of digits with nothing before it parses to its value. */
  lemma ParseIntOfDigits(digits: string)
    requires |digits| >= 1 && forall i :: 0 <= i < |digits| ==> IsDigit(digits[i])
    ensures ParseInt(digits) == Some(DigitsValue(digits))
  {
    assert IsDigit(digits[0]);
    assert SkipSpaces(digits) == digits;
    ParseDigitsOfDigits(digits);
  }

  lemma ParseNonNegative(m: nat)
    ensures ParseInt(NatToString(m)) == Some(m)
  {
    ParseIntOfDigits(NatToString(m));
    DigitsValueOfNatToString(m);
  }

  /** A minus sign followed by a run of digits parses to the negated value. */
  lemma ParseIntOfNegatedDigits(t: string, digits: string)
    requires |digits| >= 1 && forall i :: 0 <= i < |digits| ==> IsDigit(digits[i])
    requires |t| >= 1 && t[0] == '-' && t[1..] == digits
    ensures ParseInt(t) == Some(-DigitsValue(digits))
  {
    assert SkipSpaces(t) == t;
    ParseDigitsOfDigits(digits);
  }

  lemma ParseMinusDigits(digits: string)
    requires |digits| >= 1 && forall i :: 0 <= i < |digits| ==> IsDigit(digits[i])
    ensures ParseInt("-" + digits) == Some(-DigitsValue(digits))
  {
    assert ("-" + digits)[1..] == digits;
    ParseIntOfNegatedDigits("-" + digits, digits);
  }

  lemma ParseNegative(m: nat)
    requires m > 0
    ensures ParseInt("-" + NatToString(m)) == Some(-(m as int))
  {
    ParseMinusDigits(NatToString(m));
    DigitsValueOfNatToString(m);
  }

  /** `parseInt(String(n))` gives back n: a page number survives the query string. */
  lemma ParseIntOfIntToString(n: int)
    ensures ParseInt(IntToString(n)) == Some(n)
  {
    if n < 0 {
      ParseNegative(-n);
    } else {
      ParseNonNegative(n);
    }
  }

  // ---------------------------------------------------------------------------
  // Editing the query string
  // ---------------------------------------------------------------------------

  /** The value the updates give to key k: the last pair naming it, if any. */
  function ValueFor(updates: seq<Update>, k: string): Option<string>
  {
    if |updates| == 0 then None
    else if updates[|updates| - 1].key == k then Some(updates[|updates| - 1].value)
    else ValueFor(updates[..|updates| - 1], k)
  }

  /**
   * `updateParams(updates)`: a non-empty value sets its key, an empty one
   * deletes it, keys the updates do not name keep their values, and the page
   * goes back to "1" unless the updates carry a non-empty page.
   */
  method UpdateParams(current: Params, updates: seq<Update>) returns (next: Params)
    ensures forall k :: k != "page" && ValueFor(updates, k).None? ==>
              (k in next <==> k in current) && (k in current ==> next[k] == current[k])
    ensures forall k :: k != "page" && Truthy(ValueFor(updates, k)) ==>
              k in next && next[k] == ValueFor(updates, k).value
    ensures forall k :: ValueFor(updates, k) == Some("") ==> k != "page" ==> k !in next
    ensures "page" in next
    ensures next["page"] == if Truthy(ValueFor(updates, "page")) then ValueFor(updates, "page").value else "1"
  {
    next := current;
    var i := 0;
    while i < |updates|
      invariant 0 <= i <= |updates|
      invariant forall k :: ValueFor(updates[..i], k).None? ==>
                  (k in next <==> k in current) && (k in current ==> next[k] == current[k])
      invariant forall k :: Truthy(ValueFor(updates[..i], k)) ==>
                  k in next && next[k] == ValueFor(updates[..i], k).value
      invariant forall k :: ValueFor(updates[..i], k) == Some("") ==> k !in next
    {
      var u := updates[i];
      assert updates[..i + 1][..i] == updates[..i];
      if u.value != "" {
        next := next[u.key := u.value];
      } else {
        next := next - {u.key};
      }
      i := i + 1;
    }
    assert updates[..i] == updates;
    var page := ValueFor(updates, "page");
    if !Truthy(page) {
      next := next["page" := "1"];
    }
  }

  // ---------------------------------------------------------------------------
  // Reading the query string
  // ---------------------------------------------------------------------------

  /** `searchParams.get(k) || fallback`. */
  function GetOr(params: Params, k: string, fallback: string): (r: string)
    ensures k in params && params[k] != "" ==> r == params[k]
    ensures k !in params || params[k] == "" ==> r == fallback
  {
    if k in params && params[k] != "" then params[k] else fallback
  }

  /** What the page reads from its query string; the page number is still text here. */
  datatype View = View(pageText: string, search: string, category: string, sort: string,
                       minPrice: string, maxPrice: string)

  function ReadParams(params: Params): (v: View)
    ensures "page" in params && params["page"] != "" ==> v.pageText == params["page"]
    ensures "page" !in params || params["page"] == "" ==> v.pageText == "1"
    ensures ("sort" !in params || params["sort"] == "") ==> v.sort == "newest"
    ensures "sort" in params && params["sort"] != "" ==> v.sort == params["sort"]
    ensures v.sort != ""
    ensures "search" in params ==> v.search == params["search"]
    ensures "search" !in params ==> v.search == ""
    ensures "category" in params ==> v.category == params["category"]
    ensures "category" !in params ==> v.category == ""
    ensures "minPrice" in params ==> v.minPrice == params["minPrice"]
    ensures "minPrice" !in params ==> v.minPrice == ""
    ensures "maxPrice" in params ==> v.maxPrice == params["maxPrice"]
    ensures "maxPrice" !in params ==> v.maxPrice == ""
  {
    View(GetOr(params, "page", "1"), GetOr(params, "search", ""), GetOr(params, "category", ""),
         GetOr(params, "sort", "newest"), GetOr(params, "minPrice", ""), GetOr(params, "maxPrice", ""))
  }

  /** `parseInt(searchParams.get('page') || '1')`: None is NaN. */
  function Page(v: View): Option<int>
  {
    ParseInt(v.pageText)
  }

  /** A missing or empty page parameter reads as page 1. */
  lemma DefaultPageIsOne(params: Params)
    requires "page" !in params || params["page"] == ""
    ensures Page(ReadParams(params)) == Some(1)
  {
    ParseOne();
  }

  /**
   * The object `fetchProducts` sends. For the filters, None marks a key that
   * is left out; `page` is always sent, and there None is NaN, which axios
   * serialises as `page=NaN`.
   */
  datatype Request = Request(page: Option<int>, limit: int, search: Option<string>,
                             category: Option<string>, sort: Option<string>,
                             minPrice: Option<string>, maxPrice: Option<string>)

  /** `Some(s)` when s is non-empty, the way `if (s) params.k = s` adds a key. */
  function IfSet(s: string): (r: Option<string>)
    ensures r.Some? <==> s != ""
    ensures r.Some? ==> r.value == s
  {
    if s != "" then Some(s) else None
  }

  /** The request params: always page and a limit of 12, and each filter only when set. */
  function RequestParams(v: View): (r: Request)
    ensures r.page == Page(v) && r.limit == Limit
    ensures r.search == IfSet(v.search) && r.category == IfSet(v.category) && r.sort == IfSet(v.sort)
    ensures r.minPrice == IfSet(v.minPrice) && r.maxPrice == IfSet(v.maxPrice)
  {
    Request(Page(v), Limit, IfSet(v.search), IfSet(v.category), IfSet(v.sort),
            IfSet(v.minPrice), IfSet(v.maxPrice))
  }

  /** `hasFilters`: a search, a category or a price bound is set. */
  predicate HasFilters(v: View)
  {
    v.search != "" || v.category != "" || v.minPrice != "" || v.maxPrice != ""
  }

  /** The request read from the query string always carries a sort, and it carries a filter exactly when the page shows some. */
  lemma RequestCarriesFilters(params: Params)
    ensures var r := RequestParams(ReadParams(params));
            && r.sort.Some?
            && (HasFilters(ReadParams(params)) <==>
                  r.search.Some? || r.category.Some? || r.minPrice.Some? || r.maxPrice.Some?)
  {
  }

  /** Every non-empty filter in the query string is sent as given, and an absent or empty one is left out. */
  lemma QueryFiltersSent(params: Params)
    ensures var r := RequestParams(ReadParams(params));
            && (r.search.Some? <==> "search" in params && params["search"] != "")
            && ("search" in params && params["search"] != "" ==> r.search == Some(params["search"]))
            && (r.category.Some? <==> "category" in params && params["category"] != "")
            && ("category" in params && params["category"] != "" ==> r.category == Some(params["category"]))
            && (r.minPrice.Some? <==> "minPrice" in params && params["minPrice"] != "")
            && ("minPrice" in params && params["minPrice"] != "" ==> r.minPrice == Some(params["minPrice"]))
            && (r.maxPrice.Some? <==> "maxPrice" in params && params["maxPrice"] != "")
            && ("maxPrice" in params && params["maxPrice"] != "" ==> r.maxPrice == Some(params["maxPrice"]))
            && ("sort" in params && params["sort"] != "" ==> r.sort == Some(params["sort"]))
  {
  }

  /** A page number written into the query string is the page requested. */
  lemma QueryPageSent(params: Params, p: int)
    requires "page" in params && params["page"] == IntToString(p)
    ensures RequestParams(ReadParams(params)).page == Some(p)
  {
    ParseIntOfIntToString(p);
  }

  /** Neither the sort nor the page makes a filter. */
  lemma HasFiltersIgnoresSortAndPage(params: Params, sort: string, page: string)
    ensures HasFilters(ReadParams(params["sort" := sort]["page" := page])) == HasFilters(ReadParams(params))
  {
    var p := params["sort" := sort]["page" := page];
    assert GetOr(p, "search", "") == GetOr(params, "search", "");
    assert GetOr(p, "category", "") == GetOr(params, "category", "");
    assert GetOr(p, "minPrice", "") == GetOr(params, "minPrice", "");
    assert GetOr(p, "maxPrice", "") == GetOr(params, "maxPrice", "");
  }

  /** `clearFilters`: the query string becomes exactly `page=1`. */
  function ClearFilters(): (p: Params)
    ensures p.Keys == {"page"} && p["page"] == "1"
  {
    map["page" := "1"]
  }

  /** After clearing, the page reads as the first page, newest first, with no filter. */
  lemma ClearedReadsAsDefault()
    ensures ReadParams(ClearFilters()) == View("1", "", "", "newest", "", "")
    ensures Page(ReadParams(ClearFilters())) == Some(1)
    ensures !HasFilters(ReadParams(ClearFilters()))
  {
    ParseOne();
  }

  // ---------------------------------------------------------------------------
  // The controls that call `updateParams`
  // ---------------------------------------------------------------------------

  /** The value a category button sends: clicking the selected one unsets it. */
  function CategoryToggle(selected: string, clicked: string): string
  {
    if selected == clicked then "" else clicked
  }

  /**
   * A category button: clicking the selected category removes the filter,
   * clicking another selects it; either way the page goes back to 1 and the
   * other parameters stay.
   */
  method ClickCategory(params: Params, clicked: string) returns (next: Params)
    requires clicked != ""
    ensures ReadParams(params).category == clicked ==> ReadParams(next).category == ""
    ensures ReadParams(params).category != clicked ==> ReadParams(next).category == clicked
    ensures Page(ReadParams(next)) == Some(1)
    ensures forall k :: k in params && k != "category" && k != "page" ==> k in next && next[k] == params[k]
  {
    var selected := ReadParams(params).category;
    var updates := [Update("category", CategoryToggle(selected, clicked))];
    next := UpdateParams(params, updates);
    forall k | k != "category" ensures ValueFor(updates, k).None? {
      assert updates[..0] == [];
    }
    assert ValueFor(updates, "category") == Some(CategoryToggle(selected, clicked));
    assert next["page"] == "1";
    ParseOne();
  }

  /** A page button: `updateParams({ page: String(p) })` lands on page p. */
  method ChangePage(params: Params, p: int) returns (next: Params)
    ensures Page(ReadParams(next)) == Some(p)
    ensures forall k :: k in params && k != "page" ==> k in next && next[k] == params[k]
  {
    var updates := [Update("page", IntToString(p))];
    next := UpdateParams(params, updates);
    assert ValueFor(updates, "page") == Some(IntToString(p));
    forall k | k != "page" ensures ValueFor(updates, k).None? {
      assert updates[..0] == [];
    }
    ParseIntOfIntToString(p);
  }
}
