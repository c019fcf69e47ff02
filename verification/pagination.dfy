/**
 * components/Pagination.tsx: the Prev/Next buttons and the "Page x of y" text,
 * as functions of the component's props.
 */
module Pagination {
  import opened Wrappers
  import Decimal

  datatype Props = Props(pageNo: int, totalPages: int, hasNext: bool, hasPrev: bool)

  datatype Button = Prev | Next

  /** The `disabled` attribute of a button. */
  predicate Disabled(p: Props, b: Button) {
    match b
    case Prev => !p.hasPrev
    case Next => !p.hasNext
  }

  /**
   * The page a click asks `onPageChange` for. A disabled button fires no click
   * handler, so it asks for nothing; there is no clamping to 1..totalPages.
   */
  function Click(p: Props, b: Button): (r: Option<int>)
    ensures r.None? <==> Disabled(p, b)
    ensures b == Prev && r.Some? ==> r.value + 1 == p.pageNo
    ensures b == Next && r.Some? ==> r.value - 1 == p.pageNo
  {
    if Disabled(p, b) then None
    else match b
      case Prev => Some(p.pageNo - 1)
      case Next => Some(p.pageNo + 1)
  }

  /** The page-info text. */
  function PageInfo(p: Props): string {
    "Page " + Decimal.IntToString(p.pageNo) + " of " + Decimal.IntToString(p.totalPages)
  }

  /** Index of the first occurrence of `c` in `s`. */
  function IndexOf(s: string, c: char): (r: Option<nat>)
    ensures r.Some? ==> r.value < |s| && s[r.value] == c && c !in s[..r.value]
    ensures r.None? ==> c !in s
  {
    if s == [] then None
    else if s[0] == c then Some(0)
    else match IndexOf(s[1..], c)
      case None => None
      case Some(k) => assert s[..k + 1] == [s[0]] + s[1..][..k]; Some(k + 1)
  }

  /** Reads the page number and the page count back out of a page-info text. */
  function ParsePageInfo(s: string): Option<(int, int)> {
    if |s| < 5 || s[..5] != "Page " then None
    else
      var rest := s[5..];
      match IndexOf(rest, ' ')
      case None => None
      case Some(k) =>
        if |rest| < k + 4 || rest[k..k + 4] != " of " then None
        else match (Decimal.ParseInt(rest[..k]), Decimal.ParseInt(rest[k + 4..]))
          case (Some(page), Some(count)) => Some((page, count))
          case _ => None
  }

  lemma IndexOfPrefix(a: string, b: string, c: char)
    requires c !in a && |b| > 0 && b[0] == c
    ensures IndexOf(a + b, c) == Some(|a|)
  {
    if a != [] {
      assert (a + b)[1..] == a[1..] + b;
      IndexOfPrefix(a[1..], b, c);
    }
  }

  /** The page-info text determines the page number and the page count it shows. */
  lemma PageInfoRoundTrip(p: Props)
    ensures ParsePageInfo(PageInfo(p)) == Some((p.pageNo, p.totalPages))
  {
    var a, b := Decimal.IntToString(p.pageNo), Decimal.IntToString(p.totalPages);
    var s := PageInfo(p);
    var rest := s[5..];
    assert rest == a + (" of " + b);
    Decimal.IntToStringHasNoSpace(p.pageNo);
    IndexOfPrefix(a, " of " + b, ' ');
    assert rest[..|a|] == a;
    assert rest[|a|..|a| + 4] == " of ";
    assert rest[|a| + 4..] == b;
    Decimal.IntRoundTrip(p.pageNo);
    Decimal.IntRoundTrip(p.totalPages);
  }

  /** Prev on page 1 still asks for page 0 when the server says there is a previous page. */
  lemma PrevFromFirstPage(totalPages: int, hasNext: bool)
    ensures Click(Props(1, totalPages, hasNext, true), Prev) == Some(0)
  {
  }
}
