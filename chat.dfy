/**
 * The chat front end: the session state that survives reruns, the keyword
 * dispatcher that answers each user message, and the state changes made by
 * the upload, report and e-mail branches of the history loop. Widget values
 * and the uploaded file are inputs; what Streamlit draws is not modelled.
 */
module Chat {
  import opened Wrappers
  import opened Analyses
  import opened Files
  import Report
  import Email

  // ---------------------------------------------------------------------------
  // The bot's messages

  const GeneratingMsg := "Generating report..."
  const UploadFirstMsg := "Please upload a CSV file first."
  const AskUploadMsg := "Please upload a CSV file."
  const AskEmailMsg := "Please fill the email deatils"
  const HelpMsg := "Hello! I'm here to help you with the following tasks:\n"
                 + "- Upload a CSV file: 'Upload CSV'\n"
                 + "- Generate a report: 'Generate Report'\n"
                 + "- Send the report via email: 'Send Email'\n"
                 + "How can I assist you today?"
  const UploadedMsg := "CSV file uploaded successfully!"
  const ReportFailedMsg := "An error occurred while generating the report."
  const EmailSentMsg := "Email has been sent successfully."

  /** The name the report is attached under. */
  const AttachmentName := "report.pdf"

  datatype Role = UserRole | BotRole

  datatype ChatEntry = ChatEntry(role: Role, content: string)

  /** The e-mail form's saved values. */
  datatype EmailInfo = EmailInfo(toAddress: string, subject: string, body: string,
                                 sendNow: bool, sendDatetime: Option<int>)

  const DefaultEmailInfo := EmailInfo("", "Generated Report", "Please find the attached report.", true, None)

  // ---------------------------------------------------------------------------
  // Keyword matching

  function LowerChar(c: char): char
  {
    if 'A' <= c <= 'Z' then (c as int + 32) as char else c
  }

  /** `str.lower`, on ASCII letters. */
  function Lower(s: string): (l: string)
    ensures |l| == |s| && forall i :: 0 <= i < |s| ==> l[i] == LowerChar(s[i])
  {
    seq(|s|, i requires 0 <= i < |s| => LowerChar(s[i]))
  }

  lemma LowerIdempotent(s: string)
    ensures Lower(Lower(s)) == Lower(s)
  {
  }

  /** `sub` occurs in `s` starting at position `i`. */
  predicate OccursAt(s: string, sub: string, i: nat)
  {
    i + |sub| <= |s| && s[i..i + |sub|] == sub
  }

  /** Python's `sub in s` on strings. */
  function Contains(s: string, sub: string): (b: bool)
    ensures b <==> exists i: nat :: OccursAt(s, sub, i)
    decreases |s|
  {
    if |sub| > |s| then false
    else if s[..|sub|] == sub then (assert OccursAt(s, sub, 0); true)
    else
      var rest := Contains(s[1..], sub);
      assert rest <==> exists i: nat :: OccursAt(s, sub, i) by {
        if rest {
          var j: nat :| OccursAt(s[1..], sub, j);
          assert s[j + 1..j + 1 + |sub|] == s[1..][j..j + |sub|];
          assert OccursAt(s, sub, j + 1);
        }
        forall i: nat | OccursAt(s, sub, i)
          ensures rest
        {
          assert i != 0;
          assert s[1..][i - 1..i - 1 + |sub|] == s[i..i + |sub|];
          assert OccursAt(s[1..], sub, i - 1);
        }
      }
      rest
  }

  /** Whether the lower-cased input mentions `keyword`. */
  predicate Mentions(input: string, keyword: string)
  {
    Contains(Lower(input), keyword)
  }

  /**
   * `handle_bot_response`'s reply: the keywords are tried in the order
   * "generate report", "upload csv", "send email", and the first one the
   * lower-cased input contains decides; with none, the help text.
   */
  function BotReply(input: string, loaded: bool): (reply: string)
    ensures reply == GeneratingMsg <==> Mentions(input, "generate report") && loaded
    ensures reply == UploadFirstMsg <==> Mentions(input, "generate report") && !loaded
    ensures reply == AskUploadMsg <==> !Mentions(input, "generate report") && Mentions(input, "upload csv")
    ensures reply == AskEmailMsg <==>
      !Mentions(input, "generate report") && !Mentions(input, "upload csv") && Mentions(input, "send email")
    ensures reply == HelpMsg <==>
      !Mentions(input, "generate report") && !Mentions(input, "upload csv") && !Mentions(input, "send email")
  {
    if Mentions(input, "generate report") then (if loaded then GeneratingMsg else UploadFirstMsg)
    else if Mentions(input, "upload csv") then AskUploadMsg
    else if Mentions(input, "send email") then AskEmailMsg
    else HelpMsg
  }

  /** The reply does not depend on letter case. */
  lemma ReplyIgnoresCase(a: string, b: string, loaded: bool)
    requires Lower(a) == Lower(b)
    ensures BotReply(a, loaded) == BotReply(b, loaded)
  {
  }

  /** An input that is already lower case gets the same reply as any casing of it. */
  lemma ReplyOfLowered(input: string, loaded: bool)
    ensures BotReply(Lower(input), loaded) == BotReply(input, loaded)
  {
    LowerIdempotent(input);
  }

  // ---------------------------------------------------------------------------
  // The e-mail form

  /** What the e-mail widgets hold on one run, and whether "Send Email" was pressed. */
  datatype EmailForm = EmailForm(toAddress: string, subject: string, body: string,
                                 sendNow: bool, scheduled: int, pressed: bool)

  /** The saved values after `ask_email_info` reads the widgets: the time only when not sending now. */
  function Updated(info: EmailInfo, form: EmailForm): EmailInfo
  {
    EmailInfo(form.toAddress, form.subject, form.body, form.sendNow,
              if form.sendNow then info.sendDatetime else Some(form.scheduled))
  }

  /** The `send_datetime` handed to `send_email`: none when sending now. */
  function SendAtOf(info: EmailInfo): Option<int>
  {
    if info.sendNow then None else info.sendDatetime
  }

  /** A scheduled time reaches `send_email` exactly when "Send now?" is unchecked, and it is the one just entered. */
  lemma ScheduleOnlyWhenNotNow(info: EmailInfo, form: EmailForm)
    ensures SendAtOf(Updated(info, form)) == if form.sendNow then None else Some(form.scheduled)
    ensures Updated(info, form).sendNow ==> Updated(info, form).sendDatetime == info.sendDatetime
  {
  }

  // ---------------------------------------------------------------------------
  // The session

  /** Keeps `o` when the key is present, else stores the default. */
  function FillDefault<T>(o: Option<T>, d: T): (r: Option<T>)
    ensures r.Some?
    ensures o.Some? ==> r == o
  {
    if o.Some? then o else Some(d)
  }

  /** Filling defaults twice is filling them once, whatever the second default. */
  lemma FillDefaultIdempotent<T>(o: Option<T>, d: T, d': T)
    ensures FillDefault(FillDefault(o, d), d') == FillDefault(o, d)
    ensures o.None? ==> FillDefault(o, d) == Some(d)
  {
  }

  /**
   * `st.session_state`: one field per key, `None` while the key is absent.
   * `df` and `pdfPath` hold Python values that may themselves be `None`.
   */
  class Session {
    var chatHistory: Option<seq<ChatEntry>>
    var df: Option<Option<SalesFrame>>
    var pdfPath: Option<Option<Path>>
    var pdfBuffer: Option<Blob>
    var uploaded: Option<bool>
    var reportGenerated: Option<bool>
    var emailInfo: Option<EmailInfo>
    var inputField: Option<string>

    /** Every key the top of the script initialises is present. */
    predicate Ready()
      reads this
    {
      chatHistory.Some? && df.Some? && pdfPath.Some? && uploaded.Some? && reportGenerated.Some? && emailInfo.Some?
    }

    /** A new browser session: no key is present. */
    constructor ()
      ensures chatHistory.None? && df.None? && pdfPath.None? && pdfBuffer.None?
      ensures uploaded.None? && reportGenerated.None? && emailInfo.None? && inputField.None?
    {
      chatHistory, df, pdfPath, pdfBuffer := None, None, None, None;
      uploaded, reportGenerated, emailInfo, inputField := None, None, None, None;
    }

    /** The initialisation at the top of every run: each absent key gets its default, present ones are kept. */
    method InitDefaults()
      modifies this
      ensures Ready()
      ensures chatHistory == FillDefault(old(chatHistory), [])
      ensures df == FillDefault(old(df), None)
      ensures pdfPath == FillDefault(old(pdfPath), None)
      ensures uploaded == FillDefault(old(uploaded), false)
      ensures reportGenerated == FillDefault(old(reportGenerated), false)
      ensures emailInfo == FillDefault(old(emailInfo), DefaultEmailInfo)
      ensures pdfBuffer == old(pdfBuffer) && inputField == old(inputField)
      ensures old(Ready()) ==>
        && chatHistory == old(chatHistory) && df == old(df) && pdfPath == old(pdfPath)
        && uploaded == old(uploaded) && reportGenerated == old(reportGenerated) && emailInfo == old(emailInfo)
    {
      if chatHistory.None? { chatHistory := Some([]); }
      if df.None? { df := Some(None); }
      if pdfPath.None? { pdfPath := Some(None); }
      if uploaded.None? { uploaded := Some(false); }
      if reportGenerated.None? { reportGenerated := Some(false); }
      if emailInfo.None? { emailInfo := Some(DefaultEmailInfo); }
    }

    /** The input field's initialisation after the history loop. */
    method InitInputField()
      modifies this`inputField
      ensures inputField == FillDefault(old(inputField), "")
    {
      if inputField.None? { inputField := Some(""); }
    }

    /** `send_message`: append one bot entry and change nothing else. */
    method SendMessage(content: string)
      requires chatHistory.Some?
      modifies this`chatHistory
      ensures chatHistory == Some(old(chatHistory.value) + [ChatEntry(BotRole, content)])
    {
      chatHistory := Some(chatHistory.value + [ChatEntry(BotRole, content)]);
    }

    /** `handle_bot_response`: append the reply chosen by the keywords and whether a table is loaded. */
    method HandleBotResponse(userInput: string)
      requires chatHistory.Some? && df.Some?
      modifies this`chatHistory
      ensures chatHistory == Some(old(chatHistory.value) + [ChatEntry(BotRole, BotReply(userInput, df.value.Some?))])
    {
      var text := Lower(userInput);
      if Contains(text, "generate report") {
        if df.value.Some? {
          SendMessage(GeneratingMsg);
        } else {
          SendMessage(UploadFirstMsg);
        }
      } else if Contains(text, "upload csv") {
        SendMessage(AskUploadMsg);
      } else if Contains(text, "send email") {
        SendMessage(AskEmailMsg);
      } else {
        SendMessage(HelpMsg);
      }
    }

    /**
     * `on_submit`: the user's text as typed, then the bot's reply, so the
     * history grows by exactly two; then the input field is cleared.
     */
    method OnSubmit()
      requires Ready() && inputField.Some?
      modifies this`chatHistory, this`inputField
      ensures Ready()
      ensures chatHistory == Some(old(chatHistory.value)
        + [ChatEntry(UserRole, old(inputField.value)), ChatEntry(BotRole, BotReply(old(inputField.value), df.value.Some?))])
      ensures inputField == Some("")
    {
      var prompt := inputField.value;
      ghost var before := chatHistory.value;
      chatHistory := Some(chatHistory.value + [ChatEntry(UserRole, prompt)]);
      HandleBotResponse(prompt);
      assert chatHistory.value == before + [ChatEntry(UserRole, prompt), ChatEntry(BotRole, BotReply(prompt, df.value.Some?))];
      inputField := Some("");
    }

    /**
     * The upload branch, for one history entry: when the entry asks for a
     * CSV file, nothing has been uploaded yet and a file was chosen, store what
     * reading it gave (`None` when it could not be read), mark the upload,
     * confirm it, and ask for a rerun.
     */
    method UploadBranch(entry: ChatEntry, chosen: Option<Option<SalesFrame>>) returns (rerun: bool)
      requires Ready()
      modifies this`df, this`uploaded, this`chatHistory
      ensures Ready()
      ensures rerun <==> entry == ChatEntry(BotRole, AskUploadMsg) && !old(uploaded.value) && chosen.Some?
      ensures rerun ==> df == Some(chosen.value) && uploaded == Some(true)
                        && chatHistory == Some(old(chatHistory.value) + [ChatEntry(BotRole, UploadedMsg)])
      ensures !rerun ==> df == old(df) && uploaded == old(uploaded) && chatHistory == old(chatHistory)
    {
      rerun := false;
      if entry == ChatEntry(BotRole, AskUploadMsg) && !uploaded.value && chosen.Some? {
        df := Some(chosen.value);
        uploaded := Some(true);
        SendMessage(UploadedMsg);
        rerun := true;
      }
    }

    /**
     * `ask_email_info`: save the widget values (the time only when not
     * sending now); when "Send Email" is pressed, send the report and confirm
     * whenever `send_email` returns, which includes the case where nothing was
     * sent. A failure is the exception `send_email` raised.
     */
    method AskEmailInfo(fs: FileSystem, env: Email.Env, clock: Email.Clock, server: Email.SmtpServer, form: EmailForm)
      returns (r: Result<(), Email.EmailError>)
      requires Ready()
      modifies this`emailInfo, this`chatHistory, clock, server`trace
      ensures Ready()
      ensures emailInfo == Some(Updated(old(emailInfo.value), form))
      ensures !form.pressed ==>
        && r == Success(()) && chatHistory == old(chatHistory)
        && server.trace == old(server.trace) && clock.now == old(clock.now) && clock.sleeps == old(clock.sleeps)
      ensures form.pressed ==> r == Email.Outcome(env, fs.files, form.toAddress, form.subject, form.body,
        pdfPath.value, AttachmentName, SendAtOf(emailInfo.value), old(clock.now), server.refuses)
      ensures form.pressed ==> chatHistory == Some(old(chatHistory.value)
        + (if r.Success? then [ChatEntry(BotRole, EmailSentMsg)] else []))
    {
      emailInfo := Some(Updated(emailInfo.value, form));
      r := Success(());
      if form.pressed {
        var info := emailInfo.value;
        r := Email.SendEmail(env, fs, clock, server, info.toAddress, info.subject, info.body,
                             pdfPath.value, AttachmentName, if !info.sendNow then info.sendDatetime else None);
        if r.Success? {
          SendMessage(EmailSentMsg);
        } else {
          assert chatHistory.value == old(chatHistory.value) + [];
        }
      }
    }

    /** The e-mail branch, for one history entry; an exception from `send_email` is not caught here. */
    method EmailBranch(entry: ChatEntry, fs: FileSystem, env: Email.Env, clock: Email.Clock,
                       server: Email.SmtpServer, form: EmailForm)
      returns (r: Result<(), Email.EmailError>)
      requires Ready()
      modifies this`emailInfo, this`chatHistory, clock, server`trace
      ensures Ready()
      ensures entry != ChatEntry(BotRole, AskEmailMsg) ==>
        && r == Success(()) && emailInfo == old(emailInfo)
        && chatHistory == old(chatHistory) && server.trace == old(server.trace)
        && clock.now == old(clock.now) && clock.sleeps == old(clock.sleeps)
      ensures entry == ChatEntry(BotRole, AskEmailMsg) ==> emailInfo == Some(Updated(old(emailInfo.value), form))
      ensures entry == ChatEntry(BotRole, AskEmailMsg) && form.pressed ==>
        && r == Email.Outcome(env, fs.files, form.toAddress, form.subject, form.body,
                              pdfPath.value, AttachmentName, SendAtOf(emailInfo.value), old(clock.now), server.refuses)
        && chatHistory == Some(old(chatHistory.value) + (if r.Success? then [ChatEntry(BotRole, EmailSentMsg)] else []))
      ensures entry == ChatEntry(BotRole, AskEmailMsg) && !form.pressed ==> r == Success(()) && chatHistory == old(chatHistory)
    {
      r := Success(());
      if entry == ChatEntry(BotRole, AskEmailMsg) {
        r := AskEmailInfo(fs, env, clock, server, form);
      }
    }

    /**
     * The `generate_pdf_report` call of the report branch and what follows it
     * in the same `try`: on success the path, the contents and the flag are
     * recorded; on an exception the error message is appended instead.
     */
    method ProduceReport(fs: FileSystem) returns (ok: bool)
      requires Ready() && fs.Valid()
      modifies this`chatHistory, this`pdfPath, this`pdfBuffer, this`reportGenerated, fs
      ensures Ready() && fs.Valid()
      ensures ok <==> df.value.Some? && Completed(df.value.value) == 5
      ensures !ok ==>
        && chatHistory == Some(old(chatHistory.value) + [ChatEntry(BotRole, ReportFailedMsg)])
        && pdfPath == old(pdfPath) && pdfBuffer == old(pdfBuffer) && reportGenerated == old(reportGenerated)
      ensures df.value.None? ==> fs.files == old(fs.files)
      ensures df.value.Some? && !ok ==>
        fs.files == old(fs.files) + Report.SavedCharts(old(fs.nextTemp),
                                                       Report.Charts(AnalysisList(df.value.value.rows))[..Completed(df.value.value)])
      ensures ok ==>
        var doc := PdfDocument(Report.ReportPages(df.value.value.rows));
        && fs.files == old(fs.files)[Report.ReportPath := doc]
        && pdfPath == Some(Some(Report.ReportPath)) && pdfBuffer == Some(doc) && reportGenerated == Some(true)
        && chatHistory == old(chatHistory)
    {
      if df.value.None? {
        SendMessage(ReportFailedMsg);
        return false;
      }
      var built := Report.GenerateReport(fs, df.value.value);
      if built.Failure? {
        SendMessage(ReportFailedMsg);
        return false;
      }
      pdfPath := Some(Some(built.value.1));
      pdfBuffer := Some(built.value.0);
      reportGenerated := Some(true);
      ok := true;
    }

    /**
     * The report branch, for one history entry that says the report is being
     * generated: build the report from the loaded table; on success record its
     * path and contents and show the e-mail form; any exception, from the
     * report or from sending it, appends the error message instead.
     */
    method ReportBranch(fs: FileSystem, env: Email.Env, clock: Email.Clock, server: Email.SmtpServer, form: EmailForm)
      requires Ready() && fs.Valid()
      modifies this`chatHistory, this`pdfPath, this`pdfBuffer, this`reportGenerated, this`emailInfo
      modifies fs, clock, server`trace
      ensures Ready() && fs.Valid()
      // The report fails: no table, or a column an analysis needs is missing.
      ensures df.value.None? ==> fs.files == old(fs.files)
      ensures df.value.None? || Completed(df.value.value) < 5 ==>
        && chatHistory == Some(old(chatHistory.value) + [ChatEntry(BotRole, ReportFailedMsg)])
        && pdfPath == old(pdfPath) && pdfBuffer == old(pdfBuffer) && reportGenerated == old(reportGenerated)
        && emailInfo == old(emailInfo) && server.trace == old(server.trace)
        && clock.now == old(clock.now) && clock.sleeps == old(clock.sleeps)
      ensures df.value.Some? && Completed(df.value.value) < 5 ==>
        fs.files == old(fs.files) + Report.SavedCharts(old(fs.nextTemp),
                                                       Report.Charts(AnalysisList(df.value.value.rows))[..Completed(df.value.value)])
      // The report is written: its path and contents are recorded, then the e-mail form runs.
      ensures df.value.Some? && Completed(df.value.value) == 5 ==>
        var doc := PdfDocument(Report.ReportPages(df.value.value.rows));
        var sent := Email.Outcome(env, fs.files, form.toAddress, form.subject, form.body, Some(Report.ReportPath),
                                  AttachmentName, SendAtOf(emailInfo.value), old(clock.now), server.refuses);
        && fs.files == old(fs.files)[Report.ReportPath := doc]
        && pdfPath == Some(Some(Report.ReportPath)) && pdfBuffer == Some(doc) && reportGenerated == Some(true)
        && emailInfo == Some(Updated(old(emailInfo.value), form))
        && chatHistory == Some(old(chatHistory.value)
             + (if !form.pressed then []
                else if sent.Success? then [ChatEntry(BotRole, EmailSentMsg)]
                else [ChatEntry(BotRole, ReportFailedMsg)]))
    {
      var ok := ProduceReport(fs);
      if ok {
        var mailed := AskEmailInfo(fs, env, clock, server, form);
        if mailed.Failure? {
          assert chatHistory.value == old(chatHistory.value) + [];
          SendMessage(ReportFailedMsg);
        } else if !form.pressed {
          assert chatHistory.value == old(chatHistory.value) + [];
        }
      }
    }
  }
}
