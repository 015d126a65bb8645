/** Laying out the lines of an exported plan on A4 pages: first fit from the top, which no other
    split into consecutive pages beats. */
module Pagination {

  datatype Line = Line(text: string, spacing: nat)

  datatype Placed = Placed(line: Line, y: int)

  const TOP := 790
  const BOTTOM := 48

  function Height(lines: seq<Line>): nat {
    if lines == [] then 0 else Height(lines[..|lines| - 1]) + lines[|lines| - 1].spacing
  }

  lemma {:induction false} HeightOfConcatenation(a: seq<Line>, b: seq<Line>)
    ensures Height(a + b) == Height(a) + Height(b)
    decreases |b|
  {
    if b == [] {
      assert a + b == a;
    } else {
      HeightOfConcatenation(a, b[..|b| - 1]);
      assert (a + b)[..|a + b| - 1] == a + b[..|b| - 1];
    }
  }

  function LinesOn(page: seq<Placed>): (r: seq<Line>)
    ensures |r| == |page|
  {
    seq(|page|, i requires 0 <= i < |page| => page[i].line)
  }

  /** The lines of all pages, in order. */
  function AllLines(pages: seq<seq<Placed>>): seq<Line> {
    if pages == [] then [] else AllLines(pages[..|pages| - 1]) + LinesOn(pages[|pages| - 1])
  }

  /** Lines stacked down from the top of a page. */
  predicate Stacked(page: seq<Placed>) {
    forall k :: 0 <= k < |page| ==> page[k].y == 790 - Height(LinesOn(page)[..k])
  }

  predicate WithinMargins(page: seq<Placed>) {
    forall k :: 0 <= k < |page| ==> 48 + page[k].line.spacing <= page[k].y <= 790
  }

  predicate FitsAPage(lines: seq<Line>) {
    Height(lines) <= 742
  }

  function Flatten(split: seq<seq<Line>>): seq<Line> {
    if split == [] then [] else Flatten(split[..|split| - 1]) + split[|split| - 1]
  }

  /** A division of some lines into consecutive pages that all fit. */
  predicate FittingSplit(lines: seq<Line>, split: seq<seq<Line>>) {
    Flatten(split) == lines && forall i :: 0 <= i < |split| ==> FitsAPage(split[i])
  }

  /** No fitting split of these lines has fewer than k pages. */
  ghost predicate Needs(lines: seq<Line>, k: nat) {
    forall split :: FittingSplit(lines, split) ==> |split| >= k
  }

  /** If lines from start on do not fit one page up to and including line i, then every split that
      reaches beyond line i needs one more page than those that reach beyond start. */
  lemma OneMorePage(lines: seq<Line>, start: nat, i: nat, k: nat)
    requires start <= i < |lines| && !FitsAPage(lines[start..i + 1])
    requires forall j :: start < j <= |lines| ==> Needs(lines[..j], k)
    ensures forall j :: i < j <= |lines| ==> Needs(lines[..j], k + 1)
  {
    forall j, split | i < j <= |lines| && FittingSplit(lines[..j], split) ensures |split| >= k + 1 {
      LastPageStartsLater(lines, start, i, k, j, split);
    }
    forall j | i < j <= |lines| ensures Needs(lines[..j], k + 1) {
    }
  }

  lemma SlicesAreLower(lines: seq<Line>, b: nat, start: nat, end: nat, j: nat)
    requires b <= start <= end <= j <= |lines|
    ensures Height(lines[start..end]) <= Height(lines[b..j])
  {
    HeightOfConcatenation(lines[b..start], lines[start..end]);
    HeightOfConcatenation(lines[b..start] + lines[start..end], lines[end..j]);
    assert lines[b..j] == lines[b..start] + lines[start..end] + lines[end..j];
  }

  lemma LastPage(lines: seq<Line>, j: nat, split: seq<seq<Line>>) returns (b: nat)
    requires 0 < j <= |lines| && FittingSplit(lines[..j], split)
    ensures split != [] && b <= j
    ensures split[|split| - 1] == lines[b..j] && FitsAPage(lines[b..j])
    ensures FittingSplit(lines[..b], split[..|split| - 1])
  {
    assert split != [];
    var rest, last := split[..|split| - 1], split[|split| - 1];
    b := |Flatten(rest)|;
    var whole := lines[..j];
    assert whole == Flatten(rest) + last;
    assert Flatten(rest) == whole[..b] && last == whole[b..];
    assert whole[..b] == lines[..b] && whole[b..] == lines[b..j];
  }

  lemma AtLeast(lines: seq<Line>, k: nat, split: seq<seq<Line>>)
    requires Needs(lines, k) && FittingSplit(lines, split)
    ensures |split| >= k
  {
  }

  lemma LastPageStartsLater(lines: seq<Line>, start: nat, i: nat, k: nat, j: nat, split: seq<seq<Line>>)
    requires start <= i < j <= |lines| && !FitsAPage(lines[start..i + 1])
    requires forall b :: start < b <= |lines| ==> Needs(lines[..b], k)
    requires FittingSplit(lines[..j], split)
    ensures |split| >= k + 1
  {
    hide Height, Flatten;
    var b := LastPage(lines, j, split);
    if b <= start {
      SlicesAreLower(lines, b, start, i + 1, j);
    } else {
      AtLeast(lines[..b], k, split[..|split| - 1]);
    }
  }

  lemma PlaceOne(pages: seq<seq<Placed>>, p: Placed)
    requires pages != []
    ensures
      var last := pages[|pages| - 1];
      && AllLines(pages[|pages| - 1 := last + [p]]) == AllLines(pages) + [p.line]
      && LinesOn(last + [p]) == LinesOn(last) + [p.line]
  {
    var last := pages[|pages| - 1];
    var more := pages[|pages| - 1 := last + [p]];
    assert LinesOn(last + [p]) == LinesOn(last) + [p.line];
    assert more[..|more| - 1] == pages[..|pages| - 1];
  }

  lemma AddPage(pages: seq<seq<Placed>>)
    ensures AllLines(pages + [[]]) == AllLines(pages)
  {
    assert (pages + [[]])[..|pages|] == pages;
    assert LinesOn([]) == [];
  }

  lemma StackOne(page: seq<Placed>, line: Line, y: int)
    requires Stacked(page) && y == TOP - Height(LinesOn(page))
    ensures Stacked(page + [Placed(line, y)])
    ensures Height(LinesOn(page + [Placed(line, y)])) == Height(LinesOn(page)) + line.spacing
  {
    var more := page + [Placed(line, y)];
    assert LinesOn(more) == LinesOn(page) + [line];
    forall k | 0 <= k < |more| ensures more[k].y == TOP - Height(LinesOn(more)[..k]) {
      assert LinesOn(more)[..k] == LinesOn(page)[..k];
      if k == |page| { assert LinesOn(page)[..k] == LinesOn(page); }
    }
    assert LinesOn(more)[..|page|] == LinesOn(page);
  }

  /** Every line fits a page by itself. */
  predicate NoLineTooTall(lines: seq<Line>) {
    forall l :: l in lines ==> l.spacing <= 742
  }

  ghost predicate PagesNeeded(lines: seq<Line>, start: nat, k: nat) {
    forall j :: start < j <= |lines| ==> Needs(lines[..j], k)
  }

  /** Lines up to i are placed, those from start on on the last page, with y left. */
  ghost predicate Layout(lines: seq<Line>, i: nat, start: nat, pages: seq<seq<Placed>>, y: int) {
    && start <= i <= |lines| && pages != []
    && AllLines(pages) == lines[..i]
    && LinesOn(pages[|pages| - 1]) == lines[start..i]
    && y == TOP - Height(lines[start..i])
    && (forall p :: p in pages ==> Stacked(p))
    && (NoLineTooTall(lines) ==>
          && BOTTOM <= y <= TOP
          && (forall p :: p in pages ==> WithinMargins(p))
          && PagesNeeded(lines, start, |pages|))
  }

  lemma TooTallForOnePage(lines: seq<Line>, start: nat, i: nat, y: int)
    requires start <= i < |lines| && y == TOP - Height(lines[start..i]) && y - lines[i].spacing < BOTTOM
    ensures !FitsAPage(lines[start..i + 1])
  {
    assert lines[start..i + 1][..i - start] == lines[start..i];
  }

  lemma LayoutNewPage(lines: seq<Line>, i: nat, start: nat, pages: seq<seq<Placed>>, y: int)
    requires Layout(lines, i, start, pages, y) && i < |lines| && y - lines[i].spacing < BOTTOM
    ensures Layout(lines, i, i, pages + [[]], TOP)
  {
    hide AllLines, Needs;
    AddPage(pages);
    var more := pages + [[]];
    assert lines[i..i] == [] && LinesOn(more[|pages|]) == [];
    assert forall p :: p in more ==> p in pages || p == [];
    if NoLineTooTall(lines) {
      TooTallForOnePage(lines, start, i, y);
      OneMorePage(lines, start, i, |pages|);
    }
  }

  lemma LayoutPlace(lines: seq<Line>, i: nat, start: nat, pages: seq<seq<Placed>>, y: int)
    requires Layout(lines, i, start, pages, y) && i < |lines|
    requires BOTTOM <= y - lines[i].spacing || y == TOP
    ensures
      var last := pages[|pages| - 1] + [Placed(lines[i], y)];
      Layout(lines, i + 1, start, pages[|pages| - 1 := last], y - lines[i].spacing)
  {
    hide AllLines, LinesOn, Height, Stacked, WithinMargins, PagesNeeded;
    var line, last := lines[i], pages[|pages| - 1];
    var more := pages[|pages| - 1 := last + [Placed(line, y)]];
    StackOne(last, line, y);
    PlaceOne(pages, Placed(line, y));
    assert lines[..i + 1] == lines[..i] + [line];
    assert lines[start..i + 1] == lines[start..i] + [line];
    assert line in lines;
    var grown := last + [Placed(line, y)];
    assert last in pages;
    if NoLineTooTall(lines) {
      MarginsHold(last, line, y);
    }
    assert forall p :: p in more ==> p in pages || p == grown;
  }

  lemma MarginsHold(page: seq<Placed>, line: Line, y: int)
    requires WithinMargins(page) && BOTTOM + line.spacing <= y <= TOP
    ensures WithinMargins(page + [Placed(line, y)])
  {
  }

  /** _paginate. The pages read back as the input whatever the spacings; if every line fits a page
      by itself, nothing crosses a margin and no split into consecutive fitting pages is shorter. */
  method Paginate(lines: seq<Line>) returns (pages: seq<seq<Placed>>)
    ensures AllLines(pages) == lines && pages != []
    ensures forall p :: p in pages ==> Stacked(p)
    ensures NoLineTooTall(lines) ==> forall p :: p in pages ==> WithinMargins(p)
    ensures NoLineTooTall(lines) && lines != [] ==> Needs(lines, |pages|)
  {
    hide Layout;
    pages := [[]];
    var y := TOP;
    ghost var start := 0;
    LayoutStart(lines);
    for i := 0 to |lines|
      invariant start <= |lines| && Layout(lines, i, start, pages, y) && pages != []
      invariant start < i || start == i == 0
    {
      var line := lines[i];
      if y - line.spacing < BOTTOM {
        LayoutNewPage(lines, i, start, pages, y);
        pages := pages + [[]];
        y := TOP;
        start := i;
      }
      LayoutPlace(lines, i, start, pages, y);
      pages := pages[|pages| - 1 := pages[|pages| - 1] + [Placed(line, y)]];
      y := y - line.spacing;
    }
    LayoutEnd(lines, start, pages, y);
  }

  lemma LayoutStart(lines: seq<Line>)
    ensures Layout(lines, 0, 0, [[]], TOP)
  {
    var none: seq<seq<Placed>> := [];
    assert none + [[]] == [[]];
    AddPage(none);
    forall j | 0 < j <= |lines| ensures Needs(lines[..j], 1) {
    }
  }

  lemma LayoutEnd(lines: seq<Line>, start: nat, pages: seq<seq<Placed>>, y: int)
    requires Layout(lines, |lines|, start, pages, y) && (start < |lines| || lines == [])
    ensures AllLines(pages) == lines && pages != []
    ensures forall p :: p in pages ==> Stacked(p)
    ensures NoLineTooTall(lines) ==> forall p :: p in pages ==> WithinMargins(p)
    ensures NoLineTooTall(lines) && lines != [] ==> Needs(lines, |pages|)
  {
    assert lines[..|lines|] == lines;
  }
}
