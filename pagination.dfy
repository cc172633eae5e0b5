/**
 * The page navigation of src/components/Pagination.tsx: previous and next
 * arrows, one link per page, and `createPageURL`, which copies the
 * current query and sets its `page` parameter.
 */
module Pagination {
  import opened Wrappers
  import opened SearchParams

  function Digit(d: nat): char
    requires d < 10
  {
    "0123456789"[d]
  }

  function DigitValue(c: char): nat {
    if '0' <= c <= '9' then (c as int - '0' as int) as nat else 0
  }

  /** The decimal numeral of a natural number, without leading zeros. */
  function NatToString(n: nat): (s: string)
    ensures |s| > 0
    decreases n
  {
    if n < 10 then [Digit(n)] else NatToString(n / 10) + [Digit(n % 10)]
  }

  /** `toString` of an integer page number. */
  function IntToString(n: int): string {
    if n < 0 then "-" + NatToString(-n) else NatToString(n)
  }

  /** Reads a numeral back. */
  function ParseNat(s: string): nat {
    if s == [] then 0 else ParseNat(s[..|s| - 1]) * 10 + DigitValue(s[|s| - 1])
  }

  function ParseInt(s: string): int {
    if |s| > 0 && s[0] == '-' then 0 - (ParseNat(s[1..]) as int) else ParseNat(s)
  }

  lemma {:induction false} NatRoundTrip(n: nat)
    ensures ParseNat(NatToString(n)) == n
    ensures NatToString(n)[0] != '-'
    decreases n
  {
    if n >= 10 {
      NatRoundTrip(n / 10);
      var a := NatToString(n / 10);
      assert (a + [Digit(n % 10)])[..|a|] == a;
    }
  }

  /** The page number in a link can be read back exactly. */
  lemma IntRoundTrip(n: int)
    ensures ParseInt(IntToString(n)) == n
  {
    if n < 0 {
      NatRoundTrip(-n);
      assert ("-" + NatToString(-n))[1..] == NatToString(-n);
    } else {
      NatRoundTrip(n);
    }
  }

  /** `createPageURL`: the current query with `page` set. */
  function CreatePageURL(params: Params, page: int): (url: string)
    ensures |url| > 2 && url[..2] == "/?"
  {
    "/?" + Serialize(Set(params, "page", IntToString(page)))
  }

  /** The link's query keeps every other parameter and carries exactly one `page`, the given one. */
  lemma CreatePageURLQuery(params: Params, page: int)
    ensures var q := Set(params, "page", IntToString(page));
      && CreatePageURL(params, page) == "/?" + Serialize(q)
      && WithKey(q, "page") == [("page", IntToString(page))]
      && Get(q, "page") == Some(IntToString(page))
      && ParseInt(IntToString(page)) == page
      && forall o :: o != "page" ==> WithKey(q, o) == WithKey(params, o)
  {
    SetProperties(params, "page", IntToString(page));
    IntRoundTrip(page);
  }

  datatype ArrowLink = ArrowLink(href: string, disabled: bool)
  datatype PageLink = PageLink(page: int, href: string, active: bool)

  /** The rendered navigation. */
  datatype View = View(prev: ArrowLink, pages: seq<PageLink>, next: ArrowLink)

  /** `Pagination`: nothing for at most one page, otherwise the arrows and pages 1..totalPages. */
  function Render(params: Params, totalPages: int, currentPage: int): (v: Option<View>)
    ensures v.None? <==> totalPages <= 1
    ensures v.Some? ==>
      && v.value.prev == ArrowLink(CreatePageURL(params, currentPage - 1), currentPage <= 1)
      && v.value.next == ArrowLink(CreatePageURL(params, currentPage + 1), currentPage >= totalPages)
      && |v.value.pages| == totalPages
      && forall i :: 0 <= i < totalPages ==>
           v.value.pages[i] == PageLink(i + 1, CreatePageURL(params, i + 1), currentPage == i + 1)
  {
    if totalPages <= 1 then None
    else
      Some(View(
        ArrowLink(CreatePageURL(params, currentPage - 1), currentPage <= 1),
        seq(totalPages, i requires 0 <= i < totalPages => PageLink(i + 1, CreatePageURL(params, i + 1), currentPage == i + 1)),
        ArrowLink(CreatePageURL(params, currentPage + 1), currentPage >= totalPages)))
  }

  /** The page links ascend by one from 1, and exactly the current page is active when it is in range. */
  lemma ActiveLink(params: Params, totalPages: int, currentPage: int)
    requires totalPages > 1
    ensures var pages := Render(params, totalPages, currentPage).value.pages;
      && (forall i :: 0 <= i < |pages| - 1 ==> pages[i + 1].page == pages[i].page + 1)
      && (1 <= currentPage <= totalPages ==> pages[currentPage - 1].active)
      && (forall i :: 0 <= i < |pages| && pages[i].active ==> i == currentPage - 1)
  {
  }
}
