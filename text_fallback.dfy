/** The plain-text export the older download path falls back to when the page snapshot
    fails: the resume element's text, wrapped by jsPDF, written one line per 6 mm from
    10 mm below the top margin, with a new page whenever the cursor has passed the bottom
    margin. Lengths are integers in units of 0.2 mm. */
module TextFallback {
  import opened ResumeData
  import PdfText

  const PageHeight := 1485          // 297 mm
  const Margin := 75                // 15 mm
  const Bottom := PageHeight - Margin
  const FirstY := Margin + 50       // margin + 10 mm
  const Step := 30                  // 6 mm

  /** Lines that fit on the first page, and on each later page. */
  const FirstPageLines := 43
  const PageLines := 45

  /** Where a line is drawn: its page (0 is the first) and its baseline. */
  datatype Slot = Slot(page: nat, y: int)

  /** A line of text as drawn. */
  datatype Line = Line(page: nat, y: int, text: string)

  /** `resumeElement.textContent || 'No resume content found'`: never empty, and the
      element's own text whenever it has any. */
  function FallbackText(content: string): (r: string)
    ensures r != ""
    ensures content != "" ==> r == content
  {
    if content == "" then "No resume content found" else content
  }

  /** One turn of the loop: the cursor moves 6 mm down and, when it has passed the bottom
      margin, the next line goes to the top margin of a new page. The next line is always
      drawn after this one, and between the margins when this one is below the top margin. */
  function Next(s: Slot): (r: Slot)
    ensures Precedes(s, r)
    ensures Margin <= s.y ==> Margin <= r.y <= Bottom
  {
    if s.y + Step > Bottom then Slot(s.page + 1, Margin) else Slot(s.page, s.y + Step)
  }

  /** Where the i-th line lands: 43 lines on the first page starting 10 mm below the top
      margin, then 45 lines per page starting at the top margin. Every line lies between
      the margins. */
  function SlotOf(i: nat): (r: Slot)
    ensures Margin <= r.y <= Bottom
    ensures i == 0 ==> r == Slot(0, FirstY)
  {
    if i < FirstPageLines then Slot(0, FirstY + Step * i)
    else Slot(1 + (i - FirstPageLines) / PageLines, Margin + Step * ((i - FirstPageLines) % PageLines))
  }

  /** The closed form follows the loop: each slot is the step after the previous one. */
  lemma SlotStep(i: nat)
    ensures SlotOf(i + 1) == Next(SlotOf(i))
  {
    if i + 1 == FirstPageLines {
      assert SlotOf(i + 1) == Slot(1, Margin);
    } else if i >= FirstPageLines {
      var j := i - FirstPageLines;
      var q, r := j / PageLines, j % PageLines;
      assert j == PageLines * q + r;
      if r + 1 < PageLines {
        assert (j + 1) / PageLines == q && (j + 1) % PageLines == r + 1;
      } else {
        assert j + 1 == PageLines * (q + 1);
        assert (j + 1) / PageLines == q + 1 && (j + 1) % PageLines == 0;
      }
    }
  }

  /** `a` is drawn before `b` in reading order: on an earlier page, or at least a line
      higher on the same page. */
  predicate Precedes(a: Slot, b: Slot) {
    a.page < b.page || (a.page == b.page && a.y + Step <= b.y)
  }

  /** Lines are drawn in input order, and no two share a place. */
  lemma {:induction false} SlotsInOrder(i: nat, j: nat)
    requires i < j
    ensures Precedes(SlotOf(i), SlotOf(j))
  {
    SlotStep(j - 1);
    if i < j - 1 {
      SlotsInOrder(i, j - 1);
    }
  }

  /** The number of pages `n` lines take. */
  function PagesFor(n: nat): (r: nat)
    ensures r >= 1
    ensures n > 0 ==> r == SlotOf(n - 1).page + 1
  {
    if n <= FirstPageLines then 1 else 2 + (n - FirstPageLines - 1) / PageLines
  }

  /** The `for (const line of lines)` loop: every line drawn once, in order, at its slot,
      on a document of `PagesFor(|lines|)` pages. */
  method PaginateLines(lines: seq<string>) returns (placed: seq<Line>, pages: nat)
    ensures |placed| == |lines|
    ensures forall i :: 0 <= i < |lines| ==> placed[i] == Line(SlotOf(i).page, SlotOf(i).y, lines[i])
    ensures pages == PagesFor(|lines|)
  {
    pages := 1;
    var y := FirstY;
    placed := [];
    var i := 0;
    while i < |lines|
      invariant 0 <= i <= |lines| && |placed| == i
      invariant forall j :: 0 <= j < i ==> placed[j] == Line(SlotOf(j).page, SlotOf(j).y, lines[j])
      invariant i == 0 ==> pages == 1 && y == FirstY
      invariant i > 0 ==> pages == SlotOf(i - 1).page + 1 && y == SlotOf(i - 1).y + Step
    {
      if i > 0 {
        SlotStep(i - 1);
      }
      if y > Bottom {
        pages := pages + 1;
        y := Margin;
      }
      placed := placed + [Line(pages - 1, y, lines[i])];
      y := y + Step;
      i := i + 1;
    }
  }

  /** The fallback export: the wrapped text laid out line by line, and the download name
      built by the same rule as the main export. */
  method ExportText(textContent: string, wrap: string -> seq<string>, p: Fields, isoNow: string)
    returns (placed: seq<Line>, pages: nat, filename: string)
    ensures var lines := wrap(FallbackText(textContent));
            |placed| == |lines|
            && (forall i :: 0 <= i < |lines| ==> placed[i] == Line(SlotOf(i).page, SlotOf(i).y, lines[i]))
            && (forall i :: 0 <= i < |lines| ==> placed[i].page < pages)
            && pages == PagesFor(|lines|)
    ensures filename == PdfText.FileName(p, isoNow)
  {
    var lines := wrap(FallbackText(textContent));
    placed, pages := PaginateLines(lines);
    forall i | 0 <= i < |lines| ensures placed[i].page < pages {
      if i < |lines| - 1 {
        SlotsInOrder(i, |lines| - 1);
      }
    }
    filename := PdfText.FileName(p, isoNow);
  }
}
