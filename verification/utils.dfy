/** The two pure helpers of app/lib/utils.ts that the dashboard pages use:
    the page-number strip under the invoice table (`generatePagination`) and
    the thousand-step labels of the revenue chart (`generateYAxis`). */
module Utils {
  import opened Outcomes

  // ---------------------------------------------------------------------------
  // Page-number strip
  // ---------------------------------------------------------------------------

  /** One cell of the strip: a numbered page link or the `'...'` marker. */
  datatype PageItem = Page(n: int) | Ellipsis

  /** Strips of at most this many pages are shown in full. */
  const FullStripLimit := 7

  /** The strip abbreviates the page list 1..totalPages, stated cell by cell:
      it opens on page 1 and closes on the last page, neighbouring pages are
      consecutive, no two markers touch, and each marker sits between two
      pages and hides at least one page. `StripIsIncreasing` derives the order
      and range of the pages from these local rules. */
  predicate WellFormedStrip(r: seq<PageItem>, totalPages: int) {
    && (|r| > 0 ==> r[0] == Page(1) && r[|r| - 1] == Page(totalPages))
    && (forall i :: 0 <= i < |r| - 1 && r[i].Page? && r[i + 1].Page? ==> r[i + 1].n == r[i].n + 1)
    && (forall i :: 0 <= i < |r| - 1 ==> r[i].Page? || r[i + 1].Page?)
    && (forall i :: 0 < i < |r| - 1 && r[i].Ellipsis? ==>
          r[i - 1].Page? && r[i + 1].Page? && r[i + 1].n - r[i - 1].n >= 2)
  }

  /** The pages of the strip are strictly increasing and lie in 1..totalPages. */
  predicate IncreasingInRange(r: seq<PageItem>, totalPages: int) {
    && (forall i, j :: 0 <= i < j < |r| && r[i].Page? && r[j].Page? ==> r[i].n < r[j].n)
    && (forall i :: 0 <= i < |r| && r[i].Page? ==> 1 <= r[i].n <= totalPages)
  }

  lemma {:induction false} LaterPagesAreLarger(r: seq<PageItem>, totalPages: int, i: int, j: int)
    requires WellFormedStrip(r, totalPages)
    requires 0 <= i < j < |r| && r[i].Page? && r[j].Page?
    ensures r[i].n < r[j].n
    decreases j - i
  {
    var k := if r[i + 1].Page? then i + 1 else i + 2;
    assert r[k].Page? && r[i].n < r[k].n;
    if k < j {
      LaterPagesAreLarger(r, totalPages, k, j);
    }
  }

  lemma StripIsIncreasing(r: seq<PageItem>, totalPages: int)
    requires WellFormedStrip(r, totalPages)
    ensures IncreasingInRange(r, totalPages)
  {
    forall i, j | 0 <= i < j < |r| && r[i].Page? && r[j].Page?
      ensures r[i].n < r[j].n
    {
      LaterPagesAreLarger(r, totalPages, i, j);
    }
    forall i | 0 <= i < |r| && r[i].Page?
      ensures 1 <= r[i].n <= totalPages
    {
      if 0 < i {
        LaterPagesAreLarger(r, totalPages, 0, i);
      }
      if i < |r| - 1 {
        LaterPagesAreLarger(r, totalPages, i, |r| - 1);
      }
    }
  }

  /** Positions of the `'...'` markers. */
  function EllipsisIndices(r: seq<PageItem>): set<int> {
    set i | 0 <= i < |r| && r[i].Ellipsis?
  }

  /** Page `p` is hidden behind the marker at position `i`: the pages on either
      side of that marker enclose it. */
  predicate Encloses(r: seq<PageItem>, i: int, p: int) {
    && 0 < i < |r| - 1
    && r[i].Ellipsis? && r[i - 1].Page? && r[i + 1].Page?
    && r[i - 1].n < p < r[i + 1].n
  }

  /** Page `p` is either shown in the strip or hidden behind one of its markers. */
  predicate Located(r: seq<PageItem>, p: int) {
    exists i :: 0 <= i < |r| && (r[i] == Page(p) || Encloses(r, i, p))
  }

  /** `generatePagination(currentPage, totalPages)`. Up to seven pages are
      listed in full (`Array.from` turns a negative length into an empty
      array); beyond that the strip keeps the first and last pages, the current
      page and its neighbours, and replaces each omitted run by one marker. */
  function GeneratePagination(currentPage: int, totalPages: int): (r: seq<PageItem>)
    ensures totalPages <= FullStripLimit ==>
      && |r| == (if totalPages < 0 then 0 else totalPages)
      && forall i :: 0 <= i < |r| ==> r[i] == Page(i + 1)
    ensures totalPages > FullStripLimit ==>
      && |r| == (if currentPage <= 3 || currentPage >= totalPages - 2 then 6 else 7)
      && r[0] == Page(1) && r[|r| - 1] == Page(totalPages)
    ensures totalPages > FullStripLimit ==>
      |EllipsisIndices(r)| == (if |r| == 6 then 1 else 2)
    ensures totalPages > FullStripLimit && currentPage <= 3 ==> EllipsisIndices(r) == {3}
    ensures totalPages > FullStripLimit && 3 < currentPage && currentPage >= totalPages - 2 ==>
      EllipsisIndices(r) == {2}
    ensures totalPages > FullStripLimit && 3 < currentPage < totalPages - 2 ==>
      && EllipsisIndices(r) == {1, 5}
      && r[2..5] == [Page(currentPage - 1), Page(currentPage), Page(currentPage + 1)]
    ensures 1 <= currentPage <= totalPages ==> Page(currentPage) in r
    ensures WellFormedStrip(r, totalPages) && IncreasingInRange(r, totalPages)
  {
    if totalPages <= FullStripLimit then FullStrip(currentPage, totalPages)
    else if currentPage <= 3 then LeadingStrip(currentPage, totalPages)
    else if currentPage >= totalPages - 2 then TrailingStrip(currentPage, totalPages)
    else MiddleStrip(currentPage, totalPages)
  }

  /** Every page, `[1, 2, ..., totalPages]`. */
  function FullStrip(currentPage: int, totalPages: int): (r: seq<PageItem>)
    requires totalPages <= FullStripLimit
    ensures |r| == (if totalPages < 0 then 0 else totalPages)
    ensures forall i :: 0 <= i < |r| ==> r[i] == Page(i + 1)
    ensures 1 <= currentPage <= totalPages ==> Page(currentPage) in r
    ensures WellFormedStrip(r, totalPages) && IncreasingInRange(r, totalPages)
  {
    var r := seq(if totalPages < 0 then 0 else totalPages, i => Page(i + 1));
    assert forall i :: 0 <= i < |r| ==> r[i] == Page(i + 1);
    assert 1 <= currentPage <= totalPages ==> r[currentPage - 1] == Page(currentPage);
    assert WellFormedStrip(r, totalPages);
    assert IncreasingInRange(r, totalPages);
    r
  }

  /** `[1, 2, 3, '...', totalPages - 1, totalPages]`. */
  function LeadingStrip(currentPage: int, totalPages: int): (r: seq<PageItem>)
    requires totalPages > FullStripLimit && currentPage <= 3
    ensures |r| == 6 && EllipsisIndices(r) == {3}
    ensures r[0] == Page(1) && r[5] == Page(totalPages)
    ensures 1 <= currentPage ==> Page(currentPage) in r
    ensures WellFormedStrip(r, totalPages) && IncreasingInRange(r, totalPages)
  {
    var r := [Page(1), Page(2), Page(3), Ellipsis, Page(totalPages - 1), Page(totalPages)];
    assert r[0] == Page(1) && r[1] == Page(2) && r[2] == Page(3);
    assert r[3] == Ellipsis && r[4] == Page(totalPages - 1) && r[5] == Page(totalPages);
    assert EllipsisIndices(r) == {3};
    assert WellFormedStrip(r, totalPages);
    StripIsIncreasing(r, totalPages);
    r
  }

  /** `[1, 2, '...', totalPages - 2, totalPages - 1, totalPages]`. */
  function TrailingStrip(currentPage: int, totalPages: int): (r: seq<PageItem>)
    requires totalPages > FullStripLimit && 3 < currentPage && totalPages - 2 <= currentPage
    ensures |r| == 6 && EllipsisIndices(r) == {2}
    ensures r[0] == Page(1) && r[5] == Page(totalPages)
    ensures currentPage <= totalPages ==> Page(currentPage) in r
    ensures WellFormedStrip(r, totalPages) && IncreasingInRange(r, totalPages)
  {
    var r := [Page(1), Page(2), Ellipsis, Page(totalPages - 2), Page(totalPages - 1), Page(totalPages)];
    assert r[0] == Page(1) && r[1] == Page(2) && r[2] == Ellipsis;
    assert r[3] == Page(totalPages - 2) && r[4] == Page(totalPages - 1) && r[5] == Page(totalPages);
    assert EllipsisIndices(r) == {2};
    assert WellFormedStrip(r, totalPages);
    StripIsIncreasing(r, totalPages);
    r
  }

  /** `[1, '...', currentPage - 1, currentPage, currentPage + 1, '...', totalPages]`. */
  function MiddleStrip(currentPage: int, totalPages: int): (r: seq<PageItem>)
    requires 3 < currentPage < totalPages - 2
    ensures |r| == 7 && EllipsisIndices(r) == {1, 5}
    ensures r[0] == Page(1) && r[6] == Page(totalPages)
    ensures r[2..5] == [Page(currentPage - 1), Page(currentPage), Page(currentPage + 1)]
    ensures Page(currentPage) in r
    ensures WellFormedStrip(r, totalPages) && IncreasingInRange(r, totalPages)
  {
    var r := [Page(1), Ellipsis, Page(currentPage - 1), Page(currentPage), Page(currentPage + 1),
              Ellipsis, Page(totalPages)];
    assert r[0] == Page(1) && r[1] == Ellipsis && r[2] == Page(currentPage - 1);
    assert r[3] == Page(currentPage) && r[4] == Page(currentPage + 1);
    assert r[5] == Ellipsis && r[6] == Page(totalPages);
    assert EllipsisIndices(r) == {1, 5};
    assert WellFormedStrip(r, totalPages);
    StripIsIncreasing(r, totalPages);
    r
  }

  /** Scanning right from a shown page `r[k]` not beyond `p` reaches `p` or the
      marker that hides it. */
  lemma {:induction false} LocatedFrom(r: seq<PageItem>, totalPages: int, p: int, k: int)
    requires WellFormedStrip(r, totalPages)
    requires 0 <= k < |r| && r[k].Page? && r[k].n <= p <= totalPages
    ensures Located(r, p)
    decreases |r| - k
  {
    if r[k].n == p {
      assert r[k] == Page(p);
    } else if r[k + 1].Page? {
      LocatedFrom(r, totalPages, p, k + 1);
    } else {
      assert r[k + 2].Page?;
      if r[k + 2].n <= p {
        LocatedFrom(r, totalPages, p, k + 2);
      } else {
        assert Encloses(r, k + 1, p);
      }
    }
  }

  /** A well-formed strip accounts for exactly the pages 1..totalPages: each is
      shown or hidden behind a marker, and nothing else is. */
  lemma StripAccountsForExactlyAllPages(r: seq<PageItem>, totalPages: int, p: int)
    requires WellFormedStrip(r, totalPages) && |r| > 0
    ensures Located(r, p) <==> 1 <= p <= totalPages
  {
    StripIsIncreasing(r, totalPages);
    if 1 <= p <= totalPages {
      LocatedFrom(r, totalPages, p, 0);
    }
    if Located(r, p) {
      var i :| 0 <= i < |r| && (r[i] == Page(p) || Encloses(r, i, p));
      if !(r[i] == Page(p)) {
        assert r[i - 1].Page? && r[i + 1].Page?;
      }
    }
  }

  /** Every page 1..totalPages can be reached from the strip, directly or
      through a marker, and no other page number appears. */
  lemma PaginationAccountsForEveryPage(currentPage: int, totalPages: int, p: int)
    ensures Located(GeneratePagination(currentPage, totalPages), p) <==> 1 <= p <= totalPages
  {
    var r := GeneratePagination(currentPage, totalPages);
    if |r| > 0 {
      StripAccountsForExactlyAllPages(r, totalPages, p);
    }
  }

  // ---------------------------------------------------------------------------
  // Revenue chart y-axis
  // ---------------------------------------------------------------------------

  /** A row of the `revenue` table. */
  datatype Revenue = Revenue(month: string, revenue: int)

  /** A JavaScript number that is either an integer or `-Infinity`, the value
      of `Math.max()` with no arguments. */
  datatype Extended = NegInfinity | Finite(value: int)

  const LabelStep := 1000

  /** `Math.max(...revenue.map(month => month.revenue))` on a non-empty list. */
  function HighestRecord(rs: seq<Revenue>): (m: int)
    requires |rs| > 0
    ensures forall i :: 0 <= i < |rs| ==> rs[i].revenue <= m
    ensures exists i :: 0 <= i < |rs| && rs[i].revenue == m
  {
    if |rs| == 1 then rs[0].revenue
    else
      var rest := HighestRecord(rs[1..]);
      assert forall i :: 1 <= i < |rs| ==> rs[i] == rs[1..][i - 1];
      if rs[0].revenue >= rest then rs[0].revenue else rest
  }

  /** `Math.ceil(x / 1000) * 1000`: the least multiple of 1000 not below `x`. */
  function CeilToThousand(x: int): (t: int)
    ensures t % LabelStep == 0
    ensures x <= t < x + LabelStep
  {
    -((-x) / LabelStep) * LabelStep
  }

  /** No multiple of 1000 that is at least `x` lies below `CeilToThousand(x)`. */
  lemma CeilToThousandIsLeast(x: int, t: int)
    requires t % LabelStep == 0 && x <= t
    ensures CeilToThousand(x) <= t
  {
    var c := CeilToThousand(x);
    assert c == (c / LabelStep) * LabelStep && t == (t / LabelStep) * LabelStep;
    assert c / LabelStep < t / LabelStep + 1;
  }

  /** `t` is a valid top label for `rs`: a multiple of 1000 at or above every
      record and less than 1000 above the highest one. */
  predicate IsTopLabel(t: int, rs: seq<Revenue>) {
    && t % LabelStep == 0
    && (forall i :: 0 <= i < |rs| ==> rs[i].revenue <= t)
    && (exists i :: 0 <= i < |rs| && t - rs[i].revenue < LabelStep)
  }

  predicate IsDigits(s: string) {
    forall i :: 0 <= i < |s| ==> '0' <= s[i] <= '9'
  }

  function DigitChar(d: int): (c: char)
    requires 0 <= d < 10
    ensures '0' <= c <= '9' && c as int - '0' as int == d
  {
    ('0' as int + d) as char
  }

  /** The decimal spelling JavaScript gives a non-negative integer. */
  function Decimal(n: nat): (s: string)
    ensures |s| >= 1 && IsDigits(s)
    ensures s[0] == '0' ==> n == 0
  {
    if n < 10 then [DigitChar(n)] else Decimal(n / 10) + [DigitChar(n % 10)]
  }

  /** The number a string of decimal digits spells. */
  function DecimalValue(s: string): nat
    requires IsDigits(s)
  {
    if |s| == 0 then 0
    else 10 * DecimalValue(s[..|s| - 1]) + (s[|s| - 1] as int - '0' as int)
  }

  lemma {:induction false} DecimalRoundTrip(n: nat)
    ensures DecimalValue(Decimal(n)) == n
  {
    if n >= 10 {
      var s := Decimal(n);
      assert s[..|s| - 1] == Decimal(n / 10);
      DecimalRoundTrip(n / 10);
    }
  }

  /** The axis label `$<k>K` for `k` thousand. */
  function ThousandsLabel(k: nat): string {
    "$" + Decimal(k) + "K"
  }

  /** Reads a `$<digits>K` label back into its number of thousands. */
  function ParseThousandsLabel(s: string): Option<nat> {
    if |s| >= 3 && s[0] == '$' && s[|s| - 1] == 'K' && IsDigits(s[1..|s| - 1])
    then Some(DecimalValue(s[1..|s| - 1]))
    else None
  }

  lemma ThousandsLabelRoundTrip(k: nat)
    ensures ParseThousandsLabel(ThousandsLabel(k)) == Some(k)
  {
    var s := ThousandsLabel(k);
    assert s[1..|s| - 1] == Decimal(k);
    DecimalRoundTrip(k);
  }

  /** `generateYAxis(revenue)`: the top label is the highest record rounded up
      to a multiple of 1000, and the labels count down from it to `$0K` in
      steps of 1000. An empty list gives `-Infinity` and no labels; a top label
      below zero gives no labels. */
  method GenerateYAxis(revenue: seq<Revenue>) returns (yAxisLabels: seq<string>, topLabel: Extended)
    ensures |revenue| == 0 <==> topLabel == NegInfinity
    ensures topLabel.NegInfinity? ==> yAxisLabels == []
    ensures topLabel.Finite? ==> IsTopLabel(topLabel.value, revenue)
    ensures topLabel.Finite? ==>
      |yAxisLabels| == (if topLabel.value >= 0 then topLabel.value / LabelStep + 1 else 0)
    ensures forall j :: 0 <= j < |yAxisLabels| ==>
      && topLabel.Finite? && topLabel.value / LabelStep - j >= 0
      && yAxisLabels[j] == ThousandsLabel(topLabel.value / LabelStep - j)
      && ParseThousandsLabel(yAxisLabels[j]) == Some(topLabel.value / LabelStep - j)
  {
    if |revenue| == 0 {
      return [], NegInfinity;
    }
    var highestRecord := HighestRecord(revenue);
    var top := CeilToThousand(highestRecord);
    var thousands := top / LabelStep;
    yAxisLabels := [];
    var i := top;
    while i >= 0
      invariant i == LabelStep * (thousands - |yAxisLabels|)
      invariant top >= 0 ==> i >= -LabelStep
      invariant top < 0 ==> yAxisLabels == []
      invariant forall j :: 0 <= j < |yAxisLabels| ==>
        thousands - j >= 0 && yAxisLabels[j] == ThousandsLabel(thousands - j)
      decreases i + 1
    {
      yAxisLabels := yAxisLabels + [ThousandsLabel(i / LabelStep)];
      i := i - LabelStep;
    }
    forall j | 0 <= j < |yAxisLabels|
      ensures ParseThousandsLabel(yAxisLabels[j]) == Some(thousands - j)
    {
      ThousandsLabelRoundTrip(thousands - j);
    }
    topLabel := Finite(top);
  }
}
