/** The snapshot export's page loop: the captured image, scaled to the content width, is
    drawn once per page, each time shifted so that another band of it falls inside the
    content area between the 15 mm margins. The loop runs while `heightLeft >= 0`.
    Lengths are integers in units of 0.2 mm; the image height is any non-negative length. */
module ImageSlicing {
  const PageHeight := 1485                              // 297 mm
  const Margin := 75                                    // 15 mm
  const ContentHeight := PageHeight - 2 * Margin        // 267 mm

  /** Row `row` of an image drawn with its top at `pos` lies in the content area. */
  predicate ShownAt(pos: int, row: nat) {
    Margin <= pos + row < Margin + ContentHeight
  }

  // ---------------------------------------------------------------------------------------
  // The loop as written

  /** Pages produced as written: the first, then one per k >= 1 with k × contentHeight
      <= imgHeight. */
  function AsWrittenPages(h: nat): (r: nat)
    ensures r >= 1 && (r - 1) * ContentHeight <= h < r * ContentHeight
  {
    1 + h / ContentHeight
  }

  /** `position = margin - (heightLeft - imgHeight)` on page k, where `heightLeft` is
      `imgHeight - k × contentHeight`: the image moves down the page instead of up, so from
      the second page on no row of it lies in the content area. */
  function AsWrittenPosition(k: nat): (r: int)
    ensures r >= Margin
    ensures k >= 1 ==> forall row: nat :: !ShownAt(r, row)
  {
    Margin + k * ContentHeight
  }

  /** The loop of `downloadResume`: the image position on each page, page 0 first. */
  method SliceAsWritten(imgHeight: nat) returns (positions: seq<int>)
    ensures |positions| == AsWrittenPages(imgHeight)
    ensures forall k :: 0 <= k < |positions| ==> positions[k] == AsWrittenPosition(k)
  {
    var heightLeft: int := imgHeight;
    var position := Margin;
    positions := [position];
    heightLeft := heightLeft - ContentHeight;
    while heightLeft >= 0
      invariant |positions| >= 1
      invariant heightLeft == imgHeight - |positions| * ContentHeight
      invariant (|positions| - 1) * ContentHeight <= imgHeight
      invariant forall k :: 0 <= k < |positions| ==> positions[k] == AsWrittenPosition(k)
      decreases heightLeft + ContentHeight
    {
      position := Margin - (heightLeft - imgHeight);
      positions := positions + [position];
      heightLeft := heightLeft - ContentHeight;
    }
  }

  /** Finding: when the image is taller than one content area, its rows from
      `contentHeight` down lie in the content area of no page (rows up to 15 mm further
      down still show in the first page's bottom margin; the rest appear on no page at all). */
  lemma AsWrittenLosesRows(h: nat, row: nat)
    requires ContentHeight <= row < h
    ensures forall k :: 0 <= k < AsWrittenPages(h) ==> !ShownAt(AsWrittenPosition(k), row)
  {
  }

  /** Finding: an image exactly m content areas tall gets m + 1 pages, one more than the
      corrected loop; drawn at the corrected position, the extra page would hold none of
      its rows in its content area. */
  lemma AsWrittenExtraPage(m: nat)
    requires m >= 1
    ensures AsWrittenPages(m * ContentHeight) == m + 1
    ensures CorrectedPages(m * ContentHeight) == m
    ensures forall row :: 0 <= row < m * ContentHeight ==> !ShownAt(CorrectedPosition(m), row)
  {
  }

  // ---------------------------------------------------------------------------------------
  // The loop as intended

  /** Pages needed: enough content areas to cover the image, and at least one. */
  function CorrectedPages(h: nat): (r: nat)
    ensures r >= 1
    ensures h > 0 ==> (r - 1) * ContentHeight < h <= r * ContentHeight
  {
    if h == 0 then 1 else 1 + (h - 1) / ContentHeight
  }

  /** `position = margin + (heightLeft - imgHeight)`: row k × contentHeight lies at the top
      of page k's content area. */
  function CorrectedPosition(k: nat): (r: int)
    ensures r <= Margin
    ensures ShownAt(r, k * ContentHeight) && !ShownAt(r, (k + 1) * ContentHeight)
  {
    Margin - k * ContentHeight
  }

  /** The loop with `heightLeft > 0` and the image moved up by one content area per page. */
  method SliceCorrected(imgHeight: nat) returns (positions: seq<int>)
    ensures |positions| == CorrectedPages(imgHeight)
    ensures forall k :: 0 <= k < |positions| ==> positions[k] == CorrectedPosition(k)
  {
    var heightLeft: int := imgHeight;
    var position := Margin;
    positions := [position];
    heightLeft := heightLeft - ContentHeight;
    while heightLeft > 0
      invariant |positions| >= 1
      invariant heightLeft == imgHeight - |positions| * ContentHeight
      invariant imgHeight == 0 ==> |positions| == 1
      invariant imgHeight > 0 ==> (|positions| - 1) * ContentHeight < imgHeight
      invariant forall k :: 0 <= k < |positions| ==> positions[k] == CorrectedPosition(k)
      decreases heightLeft
    {
      position := Margin + (heightLeft - imgHeight);
      positions := positions + [position];
      heightLeft := heightLeft - ContentHeight;
    }
    if imgHeight > 0 {
      CorrectedPagesUnique(imgHeight, |positions|);
    }
  }

  /** The page count is the only n whose n content areas cover the image while n - 1 do
      not. */
  lemma CorrectedPagesUnique(h: nat, n: nat)
    requires h > 0 && n >= 1 && (n - 1) * ContentHeight < h <= n * ContentHeight
    ensures CorrectedPages(h) == n
  {
  }

  /** Every row of the image lies in the content area of exactly one page of the corrected
      loop: page `row / contentHeight`. jsPDF does not clip, so a row near a band's edge may
      also show in a neighbouring page's margin. */
  lemma CorrectedShowsEachRowOnce(h: nat, row: nat, k: nat)
    requires row < h
    ensures row / ContentHeight < CorrectedPages(h)
    ensures ShownAt(CorrectedPosition(k), row) <==> k == row / ContentHeight
  {
  }

  /** No page of the corrected loop is blank: row k × contentHeight lies in page k's
      content area. */
  lemma CorrectedHasNoBlankPage(h: nat, k: nat)
    requires h > 0 && k < CorrectedPages(h)
    ensures k * ContentHeight < h && ShownAt(CorrectedPosition(k), k * ContentHeight)
  {
  }
}
