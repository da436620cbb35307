/**
 * The report document as the `PDF` class lays it out: a sequence of pages,
 * each the sequence of elements drawn on it. Serialisation, fonts and
 * automatic page breaks are not modelled; a page ends only where `add_page`
 * starts the next one.
 */
module Document {
  import opened Analyses

  /** The text the page header stamps on every page. */
  const ReportHeader := "Data Analysis Report"

  /** Horizontal position and width of every chart image, in layout units. */
  const ImageX := 10
  const ImageWidth := 190

  datatype Element =
    | HeaderCell(text: string)                  // bold 12, full width, centred, then a new line
    | TitleCell(text: string)                   // bold 12, full width, left-aligned, then a new line
    | BodyText(text: string)                    // regular 12, wrapped multi-line cell
    | Gap(height: nat)                          // a line break of the given height
    | LineBreak                                 // a line break as tall as the last cell
    | Image(chart: Chart, x: int, width: int)   // height follows the aspect ratio

  type Page = seq<Element>

  /** The title and body of one narrative section. */
  datatype Summary = Summary(title: string, body: string)

  /** What `chapter_title` followed by `chapter_body` draw for one section. */
  function Chapter(s: Summary): seq<Element>
  {
    [TitleCell(s.title), Gap(10), BodyText(s.body), LineBreak]
  }

  function Chapters(ss: seq<Summary>): seq<Element>
  {
    if ss == [] then [] else Chapters(ss[..|ss| - 1]) + Chapter(ss[|ss| - 1])
  }

  /** The first page: the header, then every section in order. */
  function NarrativePage(ss: seq<Summary>): Page
  {
    [HeaderCell(ReportHeader)] + Chapters(ss)
  }

  /** A page holding one chart: the header, the image, a gap of 10. */
  function ImagePage(c: Chart): Page
  {
    [HeaderCell(ReportHeader), Image(c, ImageX, ImageWidth), Gap(10)]
  }

  function ImagePages(cs: seq<Chart>): seq<Page>
  {
    if cs == [] then [] else ImagePages(cs[..|cs| - 1]) + [ImagePage(cs[|cs| - 1])]
  }

  /** The two-phase layout: one page of all sections, then one page per chart. */
  function Layout(ss: seq<Summary>, cs: seq<Chart>): seq<Page>
  {
    [NarrativePage(ss)] + ImagePages(cs)
  }

  lemma {:induction false} ChaptersAt(ss: seq<Summary>, i: nat)
    requires i < |ss|
    ensures |Chapters(ss)| == 4 * |ss|
    ensures Chapters(ss)[4 * i] == TitleCell(ss[i].title)
    ensures Chapters(ss)[4 * i + 1] == Gap(10)
    ensures Chapters(ss)[4 * i + 2] == BodyText(ss[i].body)
    ensures Chapters(ss)[4 * i + 3] == LineBreak
  {
    var init := ss[..|ss| - 1];
    if i < |init| {
      ChaptersAt(init, i);
    } else if init != [] {
      ChaptersAt(init, 0);
    }
  }

  lemma {:induction false} ChaptersHaveNoImage(ss: seq<Summary>)
    ensures forall e :: e in Chapters(ss) ==> !e.Image? && !e.HeaderCell?
  {
    if ss != [] {
      ChaptersHaveNoImage(ss[..|ss| - 1]);
    }
  }

  lemma {:induction false} ImagePagesAt(cs: seq<Chart>, i: nat)
    requires i < |cs|
    ensures |ImagePages(cs)| == |cs|
    ensures ImagePages(cs)[i] == ImagePage(cs[i])
  {
    var init := cs[..|cs| - 1];
    if i < |init| {
      ImagePagesAt(init, i);
    } else if init != [] {
      ImagePagesAt(init, 0);
    }
  }

  /** One page for all sections plus one page per chart. */
  lemma LayoutPageCount(ss: seq<Summary>, cs: seq<Chart>)
    ensures |Layout(ss, cs)| == 1 + |cs|
  {
    if cs != [] { ImagePagesAt(cs, 0); }
  }

  /** Every page begins with the header "Data Analysis Report". */
  lemma EveryPageHasHeader(ss: seq<Summary>, cs: seq<Chart>)
    ensures forall p :: 0 <= p < |Layout(ss, cs)| ==> |Layout(ss, cs)[p]| > 0 && Layout(ss, cs)[p][0] == HeaderCell(ReportHeader)
  {
    LayoutPageCount(ss, cs);
    forall p | 1 <= p < |Layout(ss, cs)|
      ensures |Layout(ss, cs)[p]| > 0 && Layout(ss, cs)[p][0] == HeaderCell(ReportHeader)
    {
      ImagePagesAt(cs, p - 1);
    }
  }

  /**
   * The first page holds every section in order, each title followed by a gap
   * of 10 and each body by a line break, and no image.
   */
  lemma NarrativeInOrder(ss: seq<Summary>, cs: seq<Chart>)
    ensures |Layout(ss, cs)[0]| == 1 + 4 * |ss|
    ensures forall i :: 0 <= i < |ss| ==>
      && Layout(ss, cs)[0][1 + 4 * i] == TitleCell(ss[i].title)
      && Layout(ss, cs)[0][2 + 4 * i] == Gap(10)
      && Layout(ss, cs)[0][3 + 4 * i] == BodyText(ss[i].body)
      && Layout(ss, cs)[0][4 + 4 * i] == LineBreak
    ensures forall e :: e in Layout(ss, cs)[0] ==> !e.Image?
  {
    if ss != [] { ChaptersAt(ss, 0); }
    forall i | 0 <= i < |ss|
      ensures && Layout(ss, cs)[0][1 + 4 * i] == TitleCell(ss[i].title)
              && Layout(ss, cs)[0][2 + 4 * i] == Gap(10)
              && Layout(ss, cs)[0][3 + 4 * i] == BodyText(ss[i].body)
              && Layout(ss, cs)[0][4 + 4 * i] == LineBreak
    {
      ChaptersAt(ss, i);
    }
    ChaptersHaveNoImage(ss);
  }

  /** Chart i, in input order, is the only image of page i + 1, at x = 10 with width 190, followed by a gap of 10. */
  lemma ImagesOnePerPage(ss: seq<Summary>, cs: seq<Chart>)
    ensures |Layout(ss, cs)| == 1 + |cs|
    ensures forall i :: 0 <= i < |cs| ==> Layout(ss, cs)[i + 1] == [HeaderCell(ReportHeader), Image(cs[i], 10, 190), Gap(10)]
  {
    LayoutPageCount(ss, cs);
    forall i | 0 <= i < |cs|
      ensures Layout(ss, cs)[i + 1] == [HeaderCell(ReportHeader), Image(cs[i], 10, 190), Gap(10)]
    {
      ImagePagesAt(cs, i);
      assert Layout(ss, cs)[i + 1] == ImagePages(cs)[i];
    }
  }
}
