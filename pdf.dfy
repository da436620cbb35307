/**
 * The `PDF` subclass of FPDF: its pages, the header it stamps on each new
 * page, and the three drawing helpers the report uses.
 */
module PdfWriter {
  import opened Analyses
  import opened Document
  import opened Files

  /** `pages` with `es` drawn at the end of its last page. */
  function DrawOnLast(pages: seq<Page>, es: seq<Element>): (r: seq<Page>)
    requires pages != []
    ensures |r| == |pages| && r[..|r| - 1] == pages[..|pages| - 1]
    ensures r[|r| - 1] == pages[|pages| - 1] + es
  {
    pages[..|pages| - 1] + [pages[|pages| - 1] + es]
  }

  class Pdf {
    var pages: seq<Page>

    constructor ()
      ensures pages == []
    {
      pages := [];
    }

    /** `header`: called by FPDF at the top of every new page. */
    method Header()
      requires pages != []
      modifies this
      ensures pages == DrawOnLast(old(pages), [HeaderCell(ReportHeader)])
    {
      pages := DrawOnLast(pages, [HeaderCell(ReportHeader)]);
    }

    /** `add_page`: a new page, which begins with the header. */
    method AddPage()
      modifies this
      ensures pages == old(pages) + [[HeaderCell(ReportHeader)]]
    {
      pages := pages + [[]];
      assert pages[..|pages| - 1] == old(pages);
      Header();
      assert [] + [HeaderCell(ReportHeader)] == [HeaderCell(ReportHeader)];
    }

    /** `chapter_title`: the title line, then a gap of 10. */
    method ChapterTitle(title: string)
      requires pages != []
      modifies this
      ensures pages == DrawOnLast(old(pages), [TitleCell(title), Gap(10)])
    {
      pages := DrawOnLast(pages, [TitleCell(title), Gap(10)]);
    }

    /** `chapter_body`: the wrapped body text, then a line break. */
    method ChapterBody(body: string)
      requires pages != []
      modifies this
      ensures pages == DrawOnLast(old(pages), [BodyText(body), LineBreak])
    {
      pages := DrawOnLast(pages, [BodyText(body), LineBreak]);
    }

    /** `add_image`: the image file at x = 10, width 190, then a gap of 10. */
    method AddImage(fs: FileSystem, path: Path)
      requires pages != []
      requires path in fs.files && fs.files[path].PngImage?
      modifies this
      ensures pages == DrawOnLast(old(pages), [Image(fs.files[path].chart, ImageX, ImageWidth), Gap(10)])
    {
      var chart := fs.files[path].chart;
      pages := DrawOnLast(pages, [Image(chart, ImageX, ImageWidth), Gap(10)]);
    }

    /** `output`: writes the document to `path`, replacing any earlier file there. */
    method Output(fs: FileSystem, path: Path)
      requires fs.Valid() && path.Named?
      modifies fs`files
      ensures fs.Valid()
      ensures fs.files == old(fs.files)[path := PdfDocument(pages)]
    {
      fs.Write(path, PdfDocument(pages));
    }
  }
}
