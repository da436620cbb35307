# Sales report chatbot, modelled in Dafny

The system is a small Streamlit chatbot for sales data. A user uploads a CSV
table of orders and asks, in free text, for a report. The bot runs five fixed
analyses (the distribution of SALES, SALES by order status, SALES by quarter,
SALES by product line, and the top ten customers by SALES) and saves a chart
for each. It writes a PDF with one page of narrative sections followed by one
page per chart, and can mail that PDF over SMTP, either at once or at a
scheduled time. A small helper looks up cells, rows or columns of a table.

The model covers the logic the repository owns. The libraries it calls
(pandas, seaborn, FPDF, smtplib, Streamlit) are replaced by abstract stand-ins:

- `Files.FileSystem` is the file system, a map from paths to contents.
  Temporary files get fresh numbered names.
- `PdfWriter.Pdf` is the `PDF` class. Its document is a sequence of pages, and
  each page is the sequence of elements drawn on it.
- `Aggregation` holds the `groupby(...).sum()` and `nlargest(10)` chain over
  integer amounts.
- `Analyses` holds the five analyses, with the data each chart plots.
- `Report.GenerateReport` is `generate_pdf_report`, built from
  `Report.RunAnalyses`, `Report.LayOut` and `Report.RemoveImages`.
- `Email` covers `send_email`:
  - the MIME message is built step by step on a `MimeMultipart` object;
  - the scheduling decision is a function of the requested time and the clock;
  - an SMTP session is recorded as a trace of operations on a server object.
- `DataLookup.ExtractData` is `extract_data`.
- `Chat.Session` holds the Streamlit session state. Its methods are the
  session initialisation, `send_message`, `handle_bot_response`, `on_submit`,
  and the upload, report and e-mail branches of the history loop.

Times are integers in microseconds, the resolution of Python's `datetime`.
A session key that has not been set yet is `None` in the model. The keys
`df` and `pdf_path` hold Python values that may themselves be `None`, so they
are modelled as `Option<Option<...>>`.

Behaviour of the code the model keeps:

- The report has 1 + 5 pages: one narrative page, then one page per chart
  (`report_utils.py:101-109`).
- A scheduled time that is now or already past sends nothing and raises
  nothing (`email_utils.py:48-52`). The caller still reports "Email has been
  sent successfully." (`main.py:65-74`).
- In the top-ten ranking, equal totals are ordered by customer name. The
  reason: `groupby` sorts its keys, and `nlargest` keeps the first of equal
  values. The ties are not in first-appearance order.
- The temporary chart images are deleted only when the report succeeds. When
  an analysis raises, the images already saved stay on disk.
- The product-line chart is a map from product line to total. The code does
  not sort the bars; seaborn decides their order.
- Of the missing settings, only an unset or non-numeric SMTP port and an unset
  sender address raise before any message is built. An unset server or
  password first shows up in the SMTP session.
- In the report branch, an exception from sending the e-mail lands in the
  same `except` as a failed report. The bot then appends "An error occurred
  while generating the report." (`main.py:92-108`). In the e-mail branch the
  same exception is not caught (`main.py:110-111`); `Chat.Session.EmailBranch`
  returns it.

## Model

| member | source | states |
|---|---|---|
| PdfWriter.Pdf.Header | report_utils.py:10-12 | the header draws the cell "Data Analysis Report" at the end of the current page and changes no other page |
| PdfWriter.Pdf.AddPage | report_utils.py:100-101 | a new page is appended and holds exactly the header; the earlier pages are unchanged |
| PdfWriter.Pdf.ChapterTitle | report_utils.py:14-17 | the title cell, then a gap of 10, are drawn at the end of the current page |
| PdfWriter.Pdf.ChapterBody | report_utils.py:19-22 | the body text, then a line break, are drawn at the end of the current page |
| PdfWriter.Pdf.AddImage | report_utils.py:24-26 | the chart stored at the path is drawn at x = 10 with width 190, then a gap of 10 |
| PdfWriter.Pdf.Output | report_utils.py:111-113 | the document is written to the path, replacing whatever was there; no other file changes |
| Files.FileSystem.CreateTemp | report_utils.py:42-44 | `NamedTemporaryFile(delete=False)` returns a path that did not exist and now holds the saved image |
| Files.FileSystem.Exists | report_utils.py:120 | the answer is true exactly when the path exists |
| Files.FileSystem.Remove | report_utils.py:121 | exactly that path disappears; every other file keeps its contents |
| Files.FileSystem.Read | report_utils.py:115-116 | reading gives the stored contents, or nothing when the path does not exist |
| Aggregation.GroupTotals | report_utils.py:64 | `estimator=sum` per group: one total per group present, equal to the sum of that group's amounts |
| Aggregation.GroupBySum | report_utils.py:88 | `groupby(...).sum()`: every customer appears once, in ascending key order, with the sum of that customer's amounts |
| Aggregation.GroupBySumLength | report_utils.py:88 | the grouped series has exactly one entry per distinct customer |
| Aggregation.SortDescendingPermutes | report_utils.py:88 | the stable descending sort inside `nlargest` keeps exactly the same entries (a permutation) |
| Aggregation.SortDescendingRanks | report_utils.py:88 | after the sort, larger values come first, and equal values keep the key order |
| Aggregation.NLargestDropsOnlyLower | report_utils.py:88 | an entry that `nlargest` drops ranks below every entry it keeps |
| Aggregation.TopCustomersLength | report_utils.py:88 | the ranking has min(10, number of customers) entries |
| Aggregation.TopCustomersSums | report_utils.py:88 | each entry is a customer of the table, paired with the sum of SALES over that customer's rows |
| Aggregation.TopCustomersOrdered | report_utils.py:88 | values never increase along the ranking, and ties are in customer-name order |
| Aggregation.TopCustomersAreTop | report_utils.py:88 | no customer outside the ranking outranks any customer in it |
| Aggregation.StrLessTotal | report_utils.py:88 | the key order of `groupby` is total on distinct strings |
| Analyses.Completed | report_utils.py:38-98 | the number of analyses that finish: all analyses before it have their columns, and it is the first one lacking one |
| Analyses.MissingColumn | report_utils.py:38-98 | the column whose absence raises is one the stopped analysis reads, and the table lacks it |
| Analyses.AnalysisOrder | report_utils.py:38-98 | exactly five analyses, titled "Sales Distribution", "Sales by Order Status", "Sales by Quarter", "Sales by Product Line", "Top 10 Customers by Sales" in that order, each chart carrying its analysis's title |
| Analyses.QuarterChartSums | report_utils.py:63-65 | the quarter chart has one bar per quarter present, and each bar's height is the sum of SALES in that quarter |
| Analyses.ProductLineChartSums | report_utils.py:75-78 | the product-line chart has one bar per product line present, and each bar's height is that line's summed SALES |
| Analyses.CustomerChartRanking | report_utils.py:87-91 | the customer chart plots at most ten customers with their summed SALES, best first, and no customer left off ranks above one on it |
| Document.LayoutPageCount | report_utils.py:100-109 | the document has one page for all sections plus one page per chart |
| Document.EveryPageHasHeader | report_utils.py:9-12 | every page begins with the header "Data Analysis Report" |
| Document.NarrativeInOrder | report_utils.py:100-105 | the first page holds every section in order: title, gap of 10, body, line break; it holds no image |
| Document.ImagesOnePerPage | report_utils.py:107-109 | chart i is the only image of page i + 1, at x = 10 with width 190, and is followed by a gap of 10 |
| Report.SaveAnalysis | report_utils.py:42-48 | saving an analysis adds one new temporary image and records its path and its section in lockstep |
| Report.RunAnalyses | report_utils.py:38-98 | all five analyses succeed exactly when no required column is missing; a failure names the missing column and leaves the images saved so far |
| Report.LayOut | report_utils.py:100-109 | the document built from the recorded paths and sections equals the two-phase layout |
| Report.RemoveImages | report_utils.py:119-122 | exactly the listed paths that still exist are deleted, and missing ones are skipped, so a second run changes nothing |
| Report.CleanupRestores | report_utils.py:119-122 | after cleanup the file system is the original one plus the report; no temporary image remains |
| Report.GenerateReport | report_utils.py:28-124 | success exactly when all columns are present; it returns the bytes just written and the fixed path "./data_analysis_report.pdf", overwriting any earlier report; on failure the saved images stay and no report is written |
| Report.LayoutLockstep | report_utils.py:100-109 | section i of the first page and the image on page i + 1 come from the same analysis |
| Report.ReportLockstep | report_utils.py:38-109 | the report has six pages; section i and image page i + 1 carry the i-th fixed title |
| Email.ParseInt | email_utils.py:28 | `int(...)` accepts exactly an optional sign followed by decimal digits, and the sign decides the sign of the result |
| Email.DecimalRoundTrip | email_utils.py:28 | every integer written in decimal parses back to itself |
| Email.FormatSender | email_utils.py:31 | the From header is "Sender Name", a space, and the address in angle brackets |
| Email.FormatSenderRoundTrip | email_utils.py:31 | the address can be read back from the From header |
| Email.Disposition | email_utils.py:38 | the Content-Disposition is exactly `attachment; filename="<name>"` |
| Email.HeaderValue | email_utils.py:31-33 | a header lookup returns the first header named exactly that, or nothing when there is none |
| Email.MessageShape | email_utils.py:30-39 | the message starts with the multipart Content-Type and MIME-Version headers; From, To and Subject are as given; there are exactly two parts, the plain-text body and then the attachment, which carries the file contents |
| Email.MimeMultipart.constructor | email_utils.py:30 | a new multipart message carries its Content-Type and MIME-Version headers and no parts |
| Email.MimeMultipart.SetItem | email_utils.py:31-33 | an item assignment appends one header and keeps the earlier ones |
| Email.MimeMultipart.Attach | email_utils.py:34 | `attach` appends one part after the earlier ones |
| Email.Decide | email_utils.py:48-54 | send once with no wait when there is no time; wait the remaining time and send once when the time is in the future; otherwise neither wait nor send |
| Email.SendsOnTime | email_utils.py:48-53 | a send happens exactly at the scheduled time, or at once when there is none |
| Email.PastSendsNothing | email_utils.py:48-52 | a time now or in the past gives no wait and no send |
| Email.Clock.Sleep | email_utils.py:51 | sleeping advances the clock by exactly the delay and records it |
| Email.SmtpServer.Perform | email_utils.py:42-46 | each SMTP call is recorded, and it raises exactly when it is the step the server rejects |
| Email.Send | email_utils.py:41-46 | the session is connect, STARTTLS, login, sendmail, quit, stopping at the first step that raises, with no retry |
| Email.AttemptedStopsAtRefusal | email_utils.py:41-46 | the attempted steps are in session order; only the last can be refused, and with no refusal the whole session runs |
| Email.DeliveredOnce | email_utils.py:45 | the message reaches `sendmail` exactly once, unless connect, STARTTLS or login raise first |
| Email.Prepare | email_utils.py:25-39 | preparation succeeds exactly when the port parses, the sender is set and ASCII, and the attachment exists; the message is then the composed one |
| Email.FailsBeforeNetwork | email_utils.py:28-39 | a configuration or attachment failure is never a transport failure; a missing attachment is reported as such |
| Email.ReturnsWithoutSending | email_utils.py:48-54 | a well-formed call whose time is not in the future returns normally, whatever the server would do |
| Email.SendEmail | email_utils.py:14-54 | failures before sending leave the server and the clock untouched; otherwise the clock advances by the decided wait, and the trace grows by the attempted session exactly when a send is decided |
| DataLookup.ColumnPosition | data_utils.py:47 | a column is found exactly when the table has it, at the first position carrying that name |
| DataLookup.RowAt | data_utils.py:45 | `iloc` accepts exactly the positions -n to n - 1; a negative position counts from the end |
| DataLookup.ExtractData | data_utils.py:32-55 | both given: the cell at that row label and column, or None; only a row: that row by position, or None; only a column: that column, or None; neither: the table unchanged |
| DataLookup.CellMatchesRowAndColumn | data_utils.py:42-47 | the cell found by row and column is the entry of the row at that column and the entry of the column at that row |
| DataLookup.NegativePositionFromEnd | data_utils.py:44-45 | position -k reads the same row as position n - k |
| DataLookup.NegativeLabelMissing | data_utils.py:42-43 | with a column given, a negative row is a missing label and gives None, although the same row alone gives a row |
| DataLookup.MissingColumnIsNone | data_utils.py:50-52 | naming an absent column gives None, with or without a row |
| Chat.Contains | main.py:31 | `keyword in text` holds exactly when the keyword occurs at some position of the text |
| Chat.BotReply | main.py:29-47 | the reply follows keyword priority: "generate report" (answer depends on a loaded table), then "upload csv", then "send email", else the help text; each reply is given exactly in its case |
| Chat.ReplyIgnoresCase | main.py:30 | inputs equal up to letter case get the same reply |
| Chat.ReplyOfLowered | main.py:30 | lower-casing the input first does not change the reply |
| Chat.ScheduleOnlyWhenNotNow | main.py:61-72 | a scheduled time reaches `send_email` exactly when "Send now?" is unchecked, and it is the time just entered |
| Chat.FillDefaultIdempotent | main.py:7-24 | initialising a key twice is the same as initialising it once |
| Chat.Session.InitDefaults | main.py:7-24 | each absent key gets its default and each present key is kept, so a rerun resets nothing |
| Chat.Session.InitInputField | main.py:113-114 | the input field is set to the empty string only when absent |
| Chat.Session.SendMessage | main.py:26-27 | exactly one bot entry is appended, and nothing else changes |
| Chat.Session.HandleBotResponse | main.py:29-47 | exactly the reply chosen by the keywords and the loaded table is appended |
| Chat.Session.OnSubmit | main.py:51-55 | the history grows by exactly two entries: the user's text as typed, then the bot's reply; the input field is cleared |
| Chat.Session.UploadBranch | main.py:83-89 | with the upload prompt, no earlier upload and a chosen file: the table is stored, uploaded becomes true and the confirmation is appended; otherwise nothing changes |
| Chat.Session.AskEmailInfo | main.py:57-74 | the form values are saved, with the time only when not sending now; on "Send Email" the result is the e-mail outcome, and the confirmation is appended whenever `send_email` returns |
| Chat.Session.EmailBranch | main.py:110-111 | only the "Please fill the email deatils" entry runs the e-mail form; its exceptions are not caught |
| Chat.Session.ProduceReport | main.py:90-97 | on success the path, contents and flag of the report are recorded; on failure the error message is appended and the path is unchanged |
| Chat.Session.ReportBranch | main.py:90-108 | the report is recorded and the e-mail form runs; any exception, from the report or from the mail, appends the error message, and a failed report leaves the path unchanged |

## Left out

- Histogram, KDE and boxplot statistics and all chart rendering are left out. They are floating-point work inside seaborn and matplotlib. The distribution and status charts keep only the data they plot.
- PDF serialisation, fonts, cell geometry and automatic page breaks are left out. A page ends only where `add_page` starts a new one.
- Real file I/O is abstract: temporary files, `open`, `os.remove`, `pd.read_csv`. The upload branch receives what `read_csv` returned as an input.
- `load_dotenv` and the environment are left out beyond "set or unset". The variables are a parameter.
- The network, TLS and authentication are abstract. The step the server rejects, if any, is an input of `Email.SmtpServer`.
- `time.sleep` and `datetime.now()` are modelled as a clock object that the model advances.
- Streamlit widgets, rendering, `st.status`, the download button and `st.experimental_rerun` are inputs or outputs of the branch methods.
- The loop over the chat history (main.py:76-111) is modelled branch by branch, not as a loop. Its rerun-driven repetition is left out.
- `read_excel` and `read_csv` are outside the modelled core.
- The commented-out test block (report_utils.py:128-150) and the unused `schedule` import are dead code.
- Email.ParseInt: does not accept the whitespace, underscores and non-ASCII digits that Python's `int` also allows.
- Chat.Contains and Chat.BotReply: lower-casing covers ASCII letters only, not Python's full Unicode `str.lower`.
- Email.HeaderValue: compares header names exactly, while Python's `msg[name]` ignores letter case; every name the code uses is spelled one way.
- Email.FormatSender: covers only the fixed display name "Sender Name", which needs no quoting or encoding.
- DataLookup.ExtractData: requires distinct column names, which `read_csv` guarantees by renaming duplicates. Duplicate labels, which pandas answers with a sub-table, are not modelled.
- DataLookup.ExtractData: the diagnostics printed in the `KeyError` and `IndexError` branches (data_utils.py:51, :54) are console output and are left out; the model returns None without them.
- DataLookup.ExtractData: rows and columns are identified by `int` and `string`. Other label types are not modelled.
- Report.GenerateReport: the only exception modelled is a missing column. Other exceptions from pandas or seaborn (wrong column types, an empty table) are not.
