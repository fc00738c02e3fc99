/**
 * Pagination (src/components/Pagination.js): the page count, the four navigation buttons with the
 * pages they request, and the per-page choice, as the App wires them to updateFilters (src/app.js).
 */
module Pagination {
  import opened Common
  import opened Helpers
  import opened Filters
  import SubscribersHook
  import Rest

  /** `Math.max(1, Math.ceil(total / perPage))`: the fewest pages that hold `total` rows, and at least one. */
  function TotalPages(total: int, perPage: int): (n: int)
    requires perPage > 0
    ensures n >= 1
    ensures n * perPage >= total
    ensures total > 0 ==> (n - 1) * perPage < total
    ensures total <= perPage ==> n == 1
  {
    var q := CeilDiv(total, perPage);
    CeilDivAtMostOne(total, perPage, q);
    Max(1, q)
  }

  lemma CeilDivAtMostOne(total: int, perPage: int, q: int)
    requires perPage > 0 && q * perPage >= total && (q - 1) * perPage < total
    ensures total <= perPage ==> q <= 1
    ensures total > 0 ==> q >= 1
  {
    if q >= 2 {
      assert (q - 1) * perPage >= perPage;
    }
    if q <= 0 {
      assert q * perPage <= 0;
    }
  }

  datatype Button = First | Previous | Next | Last

  /** `page <= 1` for « and ‹; `page >= totalPages` for › and ». */
  predicate Disabled(b: Button, page: int, totalPages: int)
  {
    match b
    case First => page <= 1
    case Previous => page <= 1
    case Next => page >= totalPages
    case Last => page >= totalPages
  }

  /** The page each button passes to onPageChange. */
  function Target(b: Button, page: int, totalPages: int): int
  {
    match b
    case First => 1
    case Previous => page - 1
    case Next => page + 1
    case Last => totalPages
  }

  /** From a page in range, every enabled button requests a different page that is also in range. */
  lemma EnabledTargetsInRange(b: Button, page: int, totalPages: int)
    requires 1 <= page <= totalPages
    requires !Disabled(b, page, totalPages)
    ensures 1 <= Target(b, page, totalPages) <= totalPages
    ensures Target(b, page, totalPages) != page
  {
  }

  /** From a page in range, all four buttons are disabled exactly when there is a single page. */
  lemma AllDisabledIffSinglePage(page: int, totalPages: int)
    requires 1 <= page <= totalPages
    ensures (Disabled(First, page, totalPages) && Disabled(Previous, page, totalPages) &&
             Disabled(Next, page, totalPages) && Disabled(Last, page, totalPages)) <==> totalPages == 1
  {
  }

  /** A button click, `updateFilters({ page }, true)`: only the page changes, to the button's target. */
  function PageClick(b: Button, page: int, totalPages: int): Update
  {
    NoUpdate.(page := Some(Target(b, page, totalPages)))
  }

  lemma PageClickKeepsFilters(prev: Filters, b: Button, totalPages: int)
    ensures SubscribersHook.NextFilters(prev, PageClick(b, prev.page, totalPages)) ==
            prev.(page := Target(b, prev.page, totalPages))
  {
    SubscribersHook.PagingUpdateKeepsFilters(prev, PageClick(b, prev.page, totalPages));
  }

  // ---------------------------------------------------------------- per page

  const PerPageOptions: seq<string> := ["25", "50", "100", "200"]

  /**
   * `parseInt(s, 10)` on input with no leading white space: an optional sign, then the leading
   * decimal digits; None stands for NaN, when there are none.
   */
  function ParseInt(s: string): Option<int>
  {
    var negative := s != [] && s[0] == '-';
    var rest := if s != [] && (s[0] == '-' || s[0] == '+') then s[1..] else s;
    var ds := LeadingDigits(rest);
    if ds == [] then None else Some(if negative then -(DigitsValue(ds) as int) else DigitsValue(ds))
  }

  /** A run of digits parses to its decimal value; one with a tail parses its leading digits; one with none is NaN. */
  lemma ParseDigits(s: string)
    ensures s != [] && AllDigits(s) ==> ParseInt(s) == Some(DigitsValue(s))
    ensures s != [] && IsDigit(s[0]) ==> ParseInt(s) == Some(DigitsValue(LeadingDigits(s)))
    ensures s == [] || (!IsDigit(s[0]) && s[0] != '-' && s[0] != '+') ==> ParseInt(s) == None
  {
    if s != [] && AllDigits(s) {
      LeadingDigitsOfDigits(s);
    }
  }

  /** The select shows `String(perPage)` and reports `parseInt(val, 10)`: the two are inverse on page sizes. */
  lemma ParseShownPerPage(n: nat)
    ensures ParseInt(NatToDecimal(n)) == Some(n)
  {
    ParseDigits(NatToDecimal(n));
    DecimalRoundTrip(n);
  }

  /** `updateFilters({ per_page, page: 1 }, true)`. */
  function PerPageChange(val: string): Option<Update>
  {
    match ParseInt(val)
    case Some(n) => Some(NoUpdate.(perPage := Some(n), page := Some(1)))
    case None => None
  }

  /** Every choice parses to a size the server keeps as sent (its cap is 200), and moves to page 1 with the filters kept. */
  lemma PerPageChoices(prev: Filters, i: int)
    requires 0 <= i < |PerPageOptions|
    ensures var n := [25, 50, 100, 200][i];
            && PerPageOptions[i] == NatToDecimal(n)
            && PerPageChange(PerPageOptions[i]) == Some(NoUpdate.(perPage := Some(n), page := Some(1)))
            && Rest.PerPage(RStr(NatToDecimal(n))) == n
            && SubscribersHook.NextFilters(prev, PerPageChange(PerPageOptions[i]).value) == prev.(perPage := n, page := 1)
  {
    var n := [25, 50, 100, 200][i];
    assert NatToDecimal(n) == PerPageOptions[i] by {
      assert NatToDecimal(2) == "2" && NatToDecimal(5) == "5" && NatToDecimal(1) == "1";
      assert NatToDecimal(10) == "10" && NatToDecimal(20) == "20";
    }
    ParseShownPerPage(n);
    DecimalStrToInt(n);
    SubscribersHook.PagingUpdateKeepsFilters(prev, NoUpdate.(perPage := Some(n), page := Some(1)));
  }
}
