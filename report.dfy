/**
 * `generate_pdf_report`: run the five analyses in order, saving each chart to a
 * temporary image and recording its title and body; lay out one page of all
 * sections and then one page per image; write the document to the fixed report
 * path, read it back, and delete the temporary images.
 */
module Report {
  import opened Wrappers
  import opened Analyses
  import opened Document
  import opened Files
  import opened PdfWriter

  /** Where the report is written, on every call. */
  const ReportPath := Named("./data_analysis_report.pdf")

  /** The exception that stops the pipeline: an analysis reads a column the table lacks. */
  datatype ReportError = MissingColumnError(column: string)

  function Summaries(analyses: seq<Analysis>): (ss: seq<Summary>)
    ensures |ss| == |analyses|
    ensures forall i :: 0 <= i < |ss| ==> ss[i] == Summary(analyses[i].title, analyses[i].body)
  {
    seq(|analyses|, i requires 0 <= i < |analyses| => Summary(analyses[i].title, analyses[i].body))
  }

  function Charts(analyses: seq<Analysis>): (cs: seq<Chart>)
    ensures |cs| == |analyses|
    ensures forall i :: 0 <= i < |cs| ==> cs[i] == analyses[i].chart
  {
    seq(|analyses|, i requires 0 <= i < |analyses| => analyses[i].chart)
  }

  /** The pages of the report over `rows`. */
  function ReportPages(rows: seq<SalesRow>): seq<Page>
  {
    var analyses := AnalysisList(rows);
    Layout(Summaries(analyses), Charts(analyses))
  }

  /** The temporary image files holding `cs`, numbered from `start`. */
  function SavedCharts(start: nat, cs: seq<Chart>): (m: map<Path, Blob>)
    ensures forall p :: p in m <==> p.Temp? && start <= p.id < start + |cs|
    ensures forall j :: 0 <= j < |cs| ==> m[Temp(start + j)] == PngImage(cs[j])
  {
    if cs == [] then map[]
    else SavedCharts(start, cs[..|cs| - 1])[Temp(start + |cs| - 1) := PngImage(cs[|cs| - 1])]
  }

  /** The temporary paths numbered `start` to `start + k - 1`, in order. */
  function TempPaths(start: nat, k: nat): (ps: seq<Path>)
    ensures |ps| == k && forall j :: 0 <= j < k ==> ps[j] == Temp(start + j)
  {
    seq(k, j requires 0 <= j < k => Temp(start + j))
  }

  /** Where the pipeline stands after `k` analyses: paths and summaries in lockstep. */
  ghost predicate Saved(fs: FileSystem, base: map<Path, Blob>, start: nat, analyses: seq<Analysis>,
                        k: nat, figPaths: seq<Path>, summaries: seq<Summary>)
    reads fs
    requires k <= |analyses|
  {
    && fs.Valid()
    && figPaths == TempPaths(start, k) && |summaries| == k
    && summaries == Summaries(analyses[..k])
    && fs.nextTemp == start + k
    && fs.files == base + SavedCharts(start, Charts(analyses)[..k])
  }

  /** Recording analysis `k`'s section extends the sections of the first `k`. */
  lemma SummariesStep(analyses: seq<Analysis>, k: nat)
    requires k < |analyses|
    ensures Summaries(analyses[..k]) + [Summary(analyses[k].title, analyses[k].body)] == Summaries(analyses[..k + 1])
  {
    assert analyses[..k + 1][..k] == analyses[..k];
  }

  /** Saving chart `k` extends the images of the first `k`. */
  lemma SavedChartsStep(start: nat, cs: seq<Chart>, k: nat)
    requires k < |cs|
    ensures SavedCharts(start, cs[..k])[Temp(start + k) := PngImage(cs[k])] == SavedCharts(start, cs[..k + 1])
  {
    assert cs[..k + 1][..k] == cs[..k];
  }

  lemma TempPathsStep(start: nat, k: nat)
    ensures TempPaths(start, k) + [Temp(start + k)] == TempPaths(start, k + 1)
  {
  }

  /** Updating a union updates its right operand, which wins on shared keys. */
  lemma UpdateUnion(base: map<Path, Blob>, m: map<Path, Blob>, p: Path, b: Blob)
    ensures (base + m)[p := b] == base + m[p := b]
  {
  }

  lemma SavedStep(base: map<Path, Blob>, start: nat, analyses: seq<Analysis>, k: nat,
                  figPaths: seq<Path>, summaries: seq<Summary>, before: map<Path, Blob>, p: Path)
    requires k < |analyses|
    requires figPaths == TempPaths(start, k) && |summaries| == k
    requires summaries == Summaries(analyses[..k])
    requires before == base + SavedCharts(start, Charts(analyses)[..k])
    requires p == Temp(start + k)
    ensures var a := analyses[k];
      && figPaths + [p] == TempPaths(start, k + 1)
      && summaries + [Summary(a.title, a.body)] == Summaries(analyses[..k + 1])
      && before[p := PngImage(a.chart)] == base + SavedCharts(start, Charts(analyses)[..k + 1])
  {
    SummariesStep(analyses, k);
    SavedChartsStep(start, Charts(analyses), k);
    TempPathsStep(start, k);
    UpdateUnion(base, SavedCharts(start, Charts(analyses)[..k]), p, PngImage(analyses[k].chart));
  }

  /**
   * The step each analysis ends with: save the chart to a new temporary image,
   * then record the image path and the section in lockstep. Run as analysis
   * `k` of `analyses`, it extends the record of the first `k` to the first k + 1.
   */
  method SaveAnalysis(fs: FileSystem, a: Analysis, figPaths: seq<Path>, summaries: seq<Summary>,
                      ghost base: map<Path, Blob>, ghost start: nat, ghost analyses: seq<Analysis>, ghost k: nat)
    returns (figPaths': seq<Path>, summaries': seq<Summary>)
    requires k < |analyses| && analyses[k] == a
    requires Saved(fs, base, start, analyses, k, figPaths, summaries)
    modifies fs
    ensures figPaths' == figPaths + [Temp(old(fs.nextTemp))]
    ensures summaries' == summaries + [Summary(a.title, a.body)]
    ensures fs.files == old(fs.files)[Temp(old(fs.nextTemp)) := PngImage(a.chart)]
    ensures Saved(fs, base, start, analyses, k + 1, figPaths', summaries')
  {
    SavedStep(base, start, analyses, k, figPaths, summaries, fs.files, Temp(fs.nextTemp));
    var path := fs.CreateTemp(PngImage(a.chart));
    figPaths' := figPaths + [path];
    summaries' := summaries + [Summary(a.title, a.body)];
  }

  /** The five analyses of `rows`, one by one. */
  lemma AnalysisListAt(rows: seq<SalesRow>)
    ensures |AnalysisList(rows)| == 5
    ensures AnalysisList(rows)[0] == DistributionAnalysis(rows)
    ensures AnalysisList(rows)[1] == StatusAnalysis(rows)
    ensures AnalysisList(rows)[2] == QuarterAnalysis(rows)
    ensures AnalysisList(rows)[3] == ProductLineAnalysis(rows)
    ensures AnalysisList(rows)[4] == CustomerAnalysis(rows)
  {
  }

  /**
   * The five analyses in order. Each one that finds its column missing raises,
   * leaving behind the images of the analyses before it.
   */
  method RunAnalyses(fs: FileSystem, df: SalesFrame) returns (r: Result<(seq<Path>, seq<Summary>), ReportError>)
    requires fs.Valid()
    modifies fs
    ensures fs.Valid()
    ensures r.Success? <==> Completed(df) == 5
    ensures r.Success? ==> Saved(fs, old(fs.files), old(fs.nextTemp), AnalysisList(df.rows), 5, r.value.0, r.value.1)
    ensures r.Failure? ==> r.error == MissingColumnError(MissingColumn(df))
    ensures r.Failure? ==> fs.files == old(fs.files) + SavedCharts(old(fs.nextTemp), Charts(AnalysisList(df.rows))[..Completed(df)])
  {
    ghost var base, start := fs.files, fs.nextTemp;
    ghost var analyses := AnalysisList(df.rows);
    AnalysisListAt(df.rows);
    var figPaths: seq<Path> := [];
    var summaries: seq<Summary> := [];
    assert Charts(analyses)[..0] == [];
    assert base + map[] == base;

    // Sales Distribution
    if SalesColumn !in df.columns {
      return Failure(MissingColumnError(SalesColumn));
    }
    figPaths, summaries := SaveAnalysis(fs, DistributionAnalysis(df.rows),
                                        figPaths, summaries, base, start, analyses, 0);

    // Sales by Order Status
    if StatusColumn !in df.columns {
      return Failure(MissingColumnError(StatusColumn));
    }
    figPaths, summaries := SaveAnalysis(fs, StatusAnalysis(df.rows),
                                        figPaths, summaries, base, start, analyses, 1);

    // Sales by Quarter
    if QuarterColumn !in df.columns {
      return Failure(MissingColumnError(QuarterColumn));
    }
    figPaths, summaries := SaveAnalysis(fs, QuarterAnalysis(df.rows),
                                        figPaths, summaries, base, start, analyses, 2);

    // Sales by Product Line
    if ProductLineColumn !in df.columns {
      return Failure(MissingColumnError(ProductLineColumn));
    }
    figPaths, summaries := SaveAnalysis(fs, ProductLineAnalysis(df.rows),
                                        figPaths, summaries, base, start, analyses, 3);

    // Top 10 Customers by Sales
    if CustomerColumn !in df.columns {
      return Failure(MissingColumnError(CustomerColumn));
    }
    figPaths, summaries := SaveAnalysis(fs, CustomerAnalysis(df.rows),
                                        figPaths, summaries, base, start, analyses, 4);
    r := Success((figPaths, summaries));
  }

  /** All sections on the first page, then each image on a page of its own, in path order. */
  method LayOut(fs: FileSystem, figPaths: seq<Path>, summaries: seq<Summary>, ghost charts: seq<Chart>) returns (pdf: Pdf)
    requires |figPaths| == |charts|
    requires forall j :: 0 <= j < |figPaths| ==> figPaths[j] in fs.files && fs.files[figPaths[j]] == PngImage(charts[j])
    ensures fresh(pdf)
    ensures pdf.pages == Layout(summaries, charts)
  {
    pdf := new Pdf();
    pdf.AddPage();
    assert [HeaderCell(ReportHeader)] == NarrativePage(summaries[..0]);
    for i := 0 to |summaries|
      invariant pdf.pages == [NarrativePage(summaries[..i])]
    {
      ghost var before := pdf.pages[0];
      pdf.ChapterTitle(summaries[i].title);
      pdf.ChapterBody(summaries[i].body);
      assert pdf.pages == [before + [TitleCell(summaries[i].title), Gap(10)] + [BodyText(summaries[i].body), LineBreak]];
      assert summaries[..i + 1][..i] == summaries[..i];
      assert Chapters(summaries[..i + 1]) == Chapters(summaries[..i]) + Chapter(summaries[i]);
      assert NarrativePage(summaries[..i + 1]) == before + Chapter(summaries[i]);
      assert [TitleCell(summaries[i].title), Gap(10)] + [BodyText(summaries[i].body), LineBreak] == Chapter(summaries[i]);
      assert before + [TitleCell(summaries[i].title), Gap(10)] + [BodyText(summaries[i].body), LineBreak] == before + Chapter(summaries[i]);
    }
    assert summaries[..|summaries|] == summaries;
    for i := 0 to |figPaths|
      invariant pdf.pages == Layout(summaries, charts[..i])
    {
      ghost var before := pdf.pages;
      pdf.AddPage();
      pdf.AddImage(fs, figPaths[i]);
      assert pdf.pages == before + [[HeaderCell(ReportHeader)] + [Image(charts[i], ImageX, ImageWidth), Gap(10)]];
      assert [HeaderCell(ReportHeader)] + [Image(charts[i], ImageX, ImageWidth), Gap(10)] == ImagePage(charts[i]);
      assert charts[..i + 1][..i] == charts[..i];
      assert ImagePages(charts[..i + 1]) == ImagePages(charts[..i]) + [ImagePage(charts[i])];
      assert Layout(summaries, charts[..i + 1]) == before + [ImagePage(charts[i])];
    }
    assert charts[..|figPaths|] == charts;
  }

  /** Deletes each image that still exists; a path already gone is skipped, not an error. */
  method RemoveImages(fs: FileSystem, figPaths: seq<Path>)
    requires fs.Valid()
    modifies fs
    ensures fs.Valid() && fs.nextTemp == old(fs.nextTemp)
    ensures forall p :: p in fs.files <==> p in old(fs.files) && p !in figPaths
    ensures forall p :: p in fs.files ==> fs.files[p] == old(fs.files)[p]
  {
    for i := 0 to |figPaths|
      invariant fs.Valid() && fs.nextTemp == old(fs.nextTemp)
      invariant forall p :: p in fs.files <==> p in old(fs.files) && p !in figPaths[..i]
      invariant forall p :: p in fs.files ==> fs.files[p] == old(fs.files)[p]
    {
      var present := fs.Exists(figPaths[i]);
      if present {
        fs.Remove(figPaths[i]);
      }
      assert forall p :: p in figPaths[..i + 1] <==> p in figPaths[..i] || p == figPaths[i];
    }
    assert figPaths[..|figPaths|] == figPaths;
  }

  /** Each recorded path names the saved image of its chart. */
  lemma SavedImagesAt(base: map<Path, Blob>, start: nat, charts: seq<Chart>, figPaths: seq<Path>, files: map<Path, Blob>)
    requires figPaths == TempPaths(start, |charts|)
    requires files == base + SavedCharts(start, charts)
    ensures forall j :: 0 <= j < |figPaths| ==> figPaths[j] in files && files[figPaths[j]] == PngImage(charts[j])
  {
  }

  /** Removing the saved images after writing the report leaves the old files plus the report. */
  lemma CleanupRestores(base: map<Path, Blob>, start: nat, charts: seq<Chart>, figPaths: seq<Path>,
                        after: map<Path, Blob>, doc: Blob)
    requires forall p :: p in base && p.Temp? ==> p.id < start
    requires figPaths == TempPaths(start, |charts|)
    requires forall p :: p in after <==> p in (base + SavedCharts(start, charts))[ReportPath := doc] && p !in figPaths
    requires forall p :: p in after ==> after[p] == (base + SavedCharts(start, charts))[ReportPath := doc][p]
    ensures after == base[ReportPath := doc]
  {
    var written := (base + SavedCharts(start, charts))[ReportPath := doc];
    var expected := base[ReportPath := doc];
    forall p | p in figPaths
      ensures p.Temp? && start <= p.id < start + |charts| && p !in base
    {
      var j :| 0 <= j < |figPaths| && figPaths[j] == p;
    }
    forall p
      ensures p in after <==> p in expected
    {
      if p in SavedCharts(start, charts) {
        assert figPaths[p.id - start] == p;
      }
    }
    forall p | p in after
      ensures after[p] == expected[p]
    {
    }
  }

  method GenerateReport(fs: FileSystem, df: SalesFrame) returns (r: Result<(Blob, Path), ReportError>)
    requires fs.Valid()
    modifies fs
    ensures fs.Valid()
    ensures r.Success? <==> Completed(df) == 5
    ensures r.Success? ==> r.value == (PdfDocument(ReportPages(df.rows)), ReportPath)
    ensures r.Success? ==> fs.files == old(fs.files)[ReportPath := PdfDocument(ReportPages(df.rows))]
    ensures r.Failure? ==> r.error == MissingColumnError(MissingColumn(df))
    ensures r.Failure? ==> fs.files == old(fs.files) + SavedCharts(old(fs.nextTemp), Charts(AnalysisList(df.rows))[..Completed(df)])
  {
    ghost var base, start := fs.files, fs.nextTemp;
    ghost var analyses := AnalysisList(df.rows);
    var analysed := RunAnalyses(fs, df);
    if analysed.Failure? {
      return Failure(analysed.error);
    }
    var figPaths, summaries := analysed.value.0, analysed.value.1;
    ghost var charts := Charts(analyses);
    assert analyses[..5] == analyses && charts[..5] == charts;
    SavedImagesAt(base, start, charts, figPaths, fs.files);

    var pdf := LayOut(fs, figPaths, summaries, charts);
    ghost var doc := PdfDocument(ReportPages(df.rows));
    assert PdfDocument(pdf.pages) == doc;

    // Save the document where callers expect it and read it back.
    pdf.Output(fs, ReportPath);
    var read := fs.Read(ReportPath);
    var pdfBuffer := read.value;

    RemoveImages(fs, figPaths);
    CleanupRestores(base, start, charts, figPaths, fs.files, doc);
    r := Success((pdfBuffer, ReportPath));
  }

  /** Section i of the first page and the image on page i + 1 come from the same analysis. */
  lemma {:induction false} LayoutLockstep(analyses: seq<Analysis>)
    ensures |Layout(Summaries(analyses), Charts(analyses))| == 1 + |analyses|
    ensures forall i :: 0 <= i < |analyses| ==>
      && |Layout(Summaries(analyses), Charts(analyses))[0]| > 1 + 4 * i
      && Layout(Summaries(analyses), Charts(analyses))[0][1 + 4 * i] == TitleCell(analyses[i].title)
      && |Layout(Summaries(analyses), Charts(analyses))[i + 1]| == 3
      && Layout(Summaries(analyses), Charts(analyses))[i + 1][1] == Image(analyses[i].chart, ImageX, ImageWidth)
  {
    var ss, cs := Summaries(analyses), Charts(analyses);
    var pages := Layout(ss, cs);
    NarrativeInOrder(ss, cs);
    ImagesOnePerPage(ss, cs);
    forall i | 0 <= i < |analyses|
      ensures && |pages[0]| > 1 + 4 * i
              && pages[0][1 + 4 * i] == TitleCell(analyses[i].title)
              && |pages[i + 1]| == 3
              && pages[i + 1][1] == Image(analyses[i].chart, ImageX, ImageWidth)
    {
      assert ss[i].title == analyses[i].title && cs[i] == analyses[i].chart;
    }
  }

  /** Section `i` of the narrative page and image page i + 1 of five titled analyses carry title `i`. */
  lemma TitledPage(analyses: seq<Analysis>, i: nat)
    requires |analyses| == 5 && i < 5
    requires analyses[i].title == Titles[i] && analyses[i].chart.title == Titles[i]
    ensures && |Layout(Summaries(analyses), Charts(analyses))| == 6
            && |Layout(Summaries(analyses), Charts(analyses))[0]| > 1 + 4 * i
            && Layout(Summaries(analyses), Charts(analyses))[0][1 + 4 * i] == TitleCell(Titles[i])
            && |Layout(Summaries(analyses), Charts(analyses))[i + 1]| == 3
            && Layout(Summaries(analyses), Charts(analyses))[i + 1][1].Image?
            && Layout(Summaries(analyses), Charts(analyses))[i + 1][1].chart.title == Titles[i]
  {
    LayoutLockstep(analyses);
  }

  /** The lockstep of `LayoutLockstep` for any five analyses carrying the fixed titles in order. */
  lemma TitledLockstep(analyses: seq<Analysis>)
    requires |analyses| == 5
    requires forall i :: 0 <= i < 5 ==> analyses[i].title == Titles[i] && analyses[i].chart.title == Titles[i]
    ensures |Layout(Summaries(analyses), Charts(analyses))| == 6
    ensures |Layout(Summaries(analyses), Charts(analyses))[0]| == 21
    ensures forall i :: 0 <= i < 5 ==>
      && Layout(Summaries(analyses), Charts(analyses))[0][1 + 4 * i] == TitleCell(Titles[i])
      && |Layout(Summaries(analyses), Charts(analyses))[i + 1]| == 3
      && Layout(Summaries(analyses), Charts(analyses))[i + 1][1].Image?
      && Layout(Summaries(analyses), Charts(analyses))[i + 1][1].chart.title == Titles[i]
  {
    LayoutPageCount(Summaries(analyses), Charts(analyses));
    NarrativeInOrder(Summaries(analyses), Charts(analyses));
    forall i | 0 <= i < 5
      ensures && Layout(Summaries(analyses), Charts(analyses))[0][1 + 4 * i] == TitleCell(Titles[i])
              && |Layout(Summaries(analyses), Charts(analyses))[i + 1]| == 3
              && Layout(Summaries(analyses), Charts(analyses))[i + 1][1].Image?
              && Layout(Summaries(analyses), Charts(analyses))[i + 1][1].chart.title == Titles[i]
    {
      TitledPage(analyses, i);
    }
  }

  /**
   * The report has six pages: the first with the five titles in the fixed
   * order, then one chart per page in the same order, so section i and image
   * page i + 1 describe the same analysis.
   */
  lemma ReportLockstep(rows: seq<SalesRow>)
    ensures |ReportPages(rows)| == 6 && |ReportPages(rows)[0]| == 21
    ensures forall i :: 0 <= i < 5 ==>
      && ReportPages(rows)[0][1 + 4 * i] == TitleCell(Titles[i])
      && |ReportPages(rows)[i + 1]| == 3
      && ReportPages(rows)[i + 1][1].Image?
      && ReportPages(rows)[i + 1][1].chart.title == Titles[i]
  {
    AnalysisOrder(rows);
    TitledLockstep(AnalysisList(rows));
  }
}
