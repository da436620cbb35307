/**
 * `send_email`: read the mail settings, build a two-part MIME message (the
 * plain-text body, then the attachment), and either send it at once, send it
 * after waiting until the scheduled time, or, when the scheduled time is not
 * in the future, not send it at all. A send is one SMTP session, recorded as
 * a trace of operations on the server object.
 */
module Email {
  import opened Wrappers
  import opened Files

  /** The four settings read from the environment; `None` when the variable is unset. */
  datatype Env = Env(emailAddress: Option<string>, emailPassword: Option<string>,
                     smtpServer: Option<string>, smtpPort: Option<string>)

  /** What stops `send_email`, in the order it can happen. */
  datatype EmailError =
    | PortMissing                  // `int(None)` raises TypeError
    | PortNotInteger(text: string) // `int(text)` raises ValueError
    | SenderMissing                // `formataddr` on an unset address raises
    | SenderNotAscii               // `formataddr` insists on an ASCII address
    | AttachmentPathMissing        // `open(None)` raises TypeError
    | AttachmentNotFound(path: Path)
    | TransportFailure(step: Step) // the SMTP step that raised

  // ---------------------------------------------------------------------------
  // `int(...)` on the port setting

  predicate IsDigit(c: char) { '0' <= c <= '9' }

  predicate IsDigits(s: string)
  {
    |s| > 0 && forall i :: 0 <= i < |s| ==> IsDigit(s[i])
  }

  function DigitsValue(s: string): (n: nat)
    requires IsDigits(s)
  {
    if |s| == 1 then (s[0] as int - '0' as int)
    else DigitsValue(s[..|s| - 1]) * 10 + (s[|s| - 1] as int - '0' as int)
  }

  /**
   * Python's `int` on a string: an optional sign followed by decimal digits;
   * anything else is `None` (the ValueError).
   */
  function ParseInt(s: string): (r: Option<int>)
    ensures r.Some? <==> IsDigits(s) || (|s| > 1 && (s[0] == '-' || s[0] == '+') && IsDigits(s[1..]))
    ensures r.Some? && s[0] == '-' ==> r.value <= 0
    ensures r.Some? && s[0] != '-' ==> r.value >= 0
  {
    if |s| > 1 && (s[0] == '-' || s[0] == '+') && IsDigits(s[1..]) then
      Some(if s[0] == '-' then -(DigitsValue(s[1..]) as int) else DigitsValue(s[1..]))
    else if IsDigits(s) then Some(DigitsValue(s))
    else None
  }

  function DigitChar(d: nat): char
    requires d < 10
  {
    ('0' as int + d) as char
  }

  /** The decimal numeral of `n`, as `str(n)` writes it. */
  function Digits(n: nat): (s: string)
  {
    if n < 10 then [DigitChar(n)] else Digits(n / 10) + [DigitChar(n % 10)]
  }

  function Decimal(n: int): string
  {
    if n < 0 then "-" + Digits(-n) else Digits(n)
  }

  lemma {:induction false} DigitsRoundTrip(n: nat)
    ensures IsDigits(Digits(n)) && DigitsValue(Digits(n)) == n
  {
    if n >= 10 {
      DigitsRoundTrip(n / 10);
      var s := Digits(n);
      assert s[..|s| - 1] == Digits(n / 10);
    }
  }

  /** Every integer written in decimal is read back by `int`. */
  lemma DecimalRoundTrip(n: int)
    ensures ParseInt(Decimal(n)) == Some(n)
  {
    var s := Decimal(n);
    if n < 0 {
      DigitsRoundTrip(-n);
      assert s[0] == '-' && s[1..] == Digits(-n);
    } else {
      DigitsRoundTrip(n);
      assert IsDigit(s[0]);
    }
  }

  // ---------------------------------------------------------------------------
  // The From header

  const SenderName := "Sender Name"

  predicate IsAscii(s: string)
  {
    forall i :: 0 <= i < |s| ==> s[i] as int < 128
  }

  /**
   * `formataddr(("Sender Name", address))`: the display name needs no quoting,
   * so the header is the name, a space, and the address in angle brackets.
   */
  function FormatSender(address: string): (h: string)
    ensures |h| == |SenderName| + 3 + |address|
    ensures h[..|SenderName|] == SenderName
    ensures h[|SenderName|..|SenderName| + 2] == " <" && h[|h| - 1] == '>'
  {
    SenderName + " <" + address + ">"
  }

  /** The address inside the angle brackets of a formatted From header. */
  function AddressOf(h: string): string
    requires |h| >= |SenderName| + 3
  {
    h[|SenderName| + 2..|h| - 1]
  }

  lemma FormatSenderRoundTrip(address: string)
    ensures AddressOf(FormatSender(address)) == address
  {
  }

  // ---------------------------------------------------------------------------
  // The message

  datatype Header = Header(name: string, value: string)

  datatype Part =
    | TextPart(text: string, subtype: string)
    | ApplicationPart(payload: Blob, name: string, disposition: string)

  datatype Message = Message(headers: seq<Header>, parts: seq<Part>)

  /** The headers a new `MIMEMultipart()` carries before any is assigned. */
  const MultipartHeaders := [Header("Content-Type", "multipart/mixed"), Header("MIME-Version", "1.0")]

  /** The Content-Disposition value set on the attachment part. */
  function Disposition(filename: string): (d: string)
    ensures |d| == 23 + |filename|
    ensures d[..22] == "attachment; filename=\"" && d[22..|d| - 1] == filename && d[|d| - 1] == '"'
  {
    "attachment; filename=\"" + filename + "\""
  }

  /** The value of the first header named exactly `name` (`msg[name]` also ignores letter case). */
  function HeaderValue(hs: seq<Header>, name: string): (r: Option<string>)
    ensures r.None? <==> forall i :: 0 <= i < |hs| ==> hs[i].name != name
    ensures r.Some? ==> exists i :: 0 <= i < |hs| && hs[i] == Header(name, r.value)
                                    && forall j :: 0 <= j < i ==> hs[j].name != name
  {
    if hs == [] then None
    else if hs[0].name == name then Some(hs[0].value)
    else
      var r := HeaderValue(hs[1..], name);
      assert r.Some? ==> exists i :: 0 <= i < |hs| && hs[i] == Header(name, r.value)
                                     && forall j :: 0 <= j < i ==> hs[j].name != name by {
        if r.Some? {
          var i :| 0 <= i < |hs[1..]| && hs[1..][i] == Header(name, r.value)
                   && forall j :: 0 <= j < i ==> hs[1..][j].name != name;
          assert hs[i + 1] == Header(name, r.value);
          assert forall j :: 0 <= j < i + 1 ==> hs[j].name != name by {
            forall j | 0 <= j < i + 1 ensures hs[j].name != name {
              if j > 0 { assert hs[j] == hs[1..][j - 1]; }
            }
          }
        }
      }
      r
  }

  /** The first header named `name` is the one `HeaderValue` finds. */
  lemma FirstOfName(hs: seq<Header>, i: nat, name: string)
    requires i < |hs| && hs[i].name == name
    requires forall j :: 0 <= j < i ==> hs[j].name != name
    ensures HeaderValue(hs, name) == Some(hs[i].value)
  {
    var r := HeaderValue(hs, name);
    var k :| 0 <= k < |hs| && hs[k] == Header(name, r.value) && forall j :: 0 <= j < k ==> hs[j].name != name;
    assert k == i;
  }

  /** The message `send_email` builds for the given sender, recipient, texts and attachment. */
  function Compose(sender: string, to: string, subject: string, body: string,
                   payload: Blob, attachmentName: string): Message
  {
    Message(MultipartHeaders + [Header("From", FormatSender(sender)), Header("To", to), Header("Subject", subject)],
            [TextPart(body, "plain"), ApplicationPart(payload, attachmentName, Disposition(attachmentName))])
  }

  /** The message opens with the two headers of a new multipart message. */
  lemma ComposedMimeHeaders(sender: string, to: string, subject: string, body: string,
                            payload: Blob, attachmentName: string)
    ensures var hs := Compose(sender, to, subject, body, payload, attachmentName).headers;
      && hs[..2] == MultipartHeaders
      && HeaderValue(hs, "Content-Type") == Some("multipart/mixed")
      && HeaderValue(hs, "MIME-Version") == Some("1.0")
  {
    var hs := Compose(sender, to, subject, body, payload, attachmentName).headers;
    assert hs[0].name[0] == 'C';
    FirstOfName(hs, 0, "Content-Type");
    FirstOfName(hs, 1, "MIME-Version");
  }

  /** The From, To and Subject headers carry the sender, the recipient and the subject. */
  lemma ComposedAddressHeaders(sender: string, to: string, subject: string, body: string,
                               payload: Blob, attachmentName: string)
    ensures var hs := Compose(sender, to, subject, body, payload, attachmentName).headers;
      && HeaderValue(hs, "From") == Some(FormatSender(sender))
      && HeaderValue(hs, "To") == Some(to)
      && HeaderValue(hs, "Subject") == Some(subject)
  {
    var hs := Compose(sender, to, subject, body, payload, attachmentName).headers;
    assert |hs[0].name| == 12 && |hs[1].name| == 12 && |hs[2].name| == 4 && |hs[3].name| == 2;
    FirstOfName(hs, 2, "From");
    FirstOfName(hs, 3, "To");
    FirstOfName(hs, 4, "Subject");
  }

  /**
   * The message carries the multipart Content-Type and MIME-Version headers
   * first, then the From, To and Subject headers as given, and exactly
   * two parts: the plain-text body first, then the attachment, whose
   * Content-Disposition names the attachment.
   */
  lemma MessageShape(sender: string, to: string, subject: string, body: string,
                     payload: Blob, attachmentName: string)
    ensures var m := Compose(sender, to, subject, body, payload, attachmentName);
      && m.headers[..2] == MultipartHeaders
      && HeaderValue(m.headers, "Content-Type") == Some("multipart/mixed")
      && HeaderValue(m.headers, "MIME-Version") == Some("1.0")
      && HeaderValue(m.headers, "From") == Some(FormatSender(sender))
      && HeaderValue(m.headers, "To") == Some(to)
      && HeaderValue(m.headers, "Subject") == Some(subject)
      && |m.parts| == 2
      && m.parts[0] == TextPart(body, "plain")
      && m.parts[1].ApplicationPart? && m.parts[1].payload == payload
      && m.parts[1].disposition == "attachment; filename=\"" + attachmentName + "\""
  {
    ComposedMimeHeaders(sender, to, subject, body, payload, attachmentName);
    ComposedAddressHeaders(sender, to, subject, body, payload, attachmentName);
  }

  /**
   * `MIMEMultipart`: it starts with its Content-Type and MIME-Version headers;
   * further headers are appended by item assignment, parts by `attach`.
   */
  class MimeMultipart {
    var headers: seq<Header>
    var parts: seq<Part>

    constructor ()
      ensures headers == MultipartHeaders && parts == []
    {
      headers := MultipartHeaders;
      parts := [];
    }

    function Value(): Message
      reads this
    {
      Message(headers, parts)
    }

    /** `msg[name] = value` adds a header; it does not replace an earlier one of the same name. */
    method SetItem(name: string, value: string)
      modifies this`headers
      ensures headers == old(headers) + [Header(name, value)]
    {
      headers := headers + [Header(name, value)];
    }

    method Attach(p: Part)
      modifies this`parts
      ensures parts == old(parts) + [p]
    {
      parts := parts + [p];
    }
  }

  // ---------------------------------------------------------------------------
  // Scheduling

  /** How long to wait before sending, and how many times to send. */
  datatype Decision = Decision(wait: int, sends: nat)

  /**
   * The branch on `send_datetime`, times in microseconds: with no time, send
   * once at once; with a time in the future, wait until it and send once;
   * with a time now or in the past, neither wait nor send.
   */
  function Decide(sendAt: Option<int>, now: int): (d: Decision)
    ensures d.wait >= 0 && d.sends <= 1
    ensures d.sends == 1 <==> sendAt.None? || sendAt.value > now
    ensures d.sends == 0 ==> d.wait == 0
  {
    match sendAt
    case None => Decision(0, 1)
    case Some(t) => if t - now > 0 then Decision(t - now, 1) else Decision(0, 0)
  }

  /** A send happens exactly at the scheduled time, or at once when none is given. */
  lemma SendsOnTime(sendAt: Option<int>, now: int)
    ensures Decide(sendAt, now).sends == 1 ==>
      now + Decide(sendAt, now).wait == (if sendAt.Some? then sendAt.value else now)
    ensures sendAt.None? ==> Decide(sendAt, now) == Decision(0, 1)
  {
  }

  /** A scheduled time now or in the past sends nothing and waits for nothing. */
  lemma PastSendsNothing(t: int, now: int)
    requires t <= now
    ensures Decide(Some(t), now) == Decision(0, 0)
  {
  }

  /** `datetime.now()` and `time.sleep`: a clock and the sleeps taken. */
  class Clock {
    var now: int
    var sleeps: seq<int>

    constructor (start: int)
      ensures now == start && sleeps == []
    {
      now := start;
      sleeps := [];
    }

    method Now() returns (t: int)
      ensures t == now
    {
      t := now;
    }

    method Sleep(d: int)
      requires d >= 0
      modifies this
      ensures now == old(now) + d && sleeps == old(sleeps) + [d]
    {
      now := now + d;
      sleeps := sleeps + [d];
    }
  }

  // ---------------------------------------------------------------------------
  // The SMTP session

  datatype Step = ConnectStep | StartTlsStep | LoginStep | SendMailStep | QuitStep

  datatype SmtpOp =
    | Connect(host: Option<string>, port: int)
    | StartTls
    | Login(user: string, password: Option<string>)
    | SendMail(from: string, to: string, msg: Message)
    | Quit

  function StepOf(op: SmtpOp): Step
  {
    match op
    case Connect(_, _) => ConnectStep
    case StartTls => StartTlsStep
    case Login(_, _) => LoginStep
    case SendMail(_, _, _) => SendMailStep
    case Quit => QuitStep
  }

  /** Everything a send needs, fixed before any network step. */
  datatype Outgoing = Outgoing(host: Option<string>, port: int, sender: string,
                               password: Option<string>, to: string, msg: Message)

  /** The inner `send()`: connect, STARTTLS, log in, send the message once, quit. */
  function SessionOps(o: Outgoing): (ops: seq<SmtpOp>)
    ensures |ops| == 5
    ensures forall i :: 0 <= i < 5 ==> StepOf(ops[i]) == [ConnectStep, StartTlsStep, LoginStep, SendMailStep, QuitStep][i]
  {
    [Connect(o.host, o.port), StartTls, Login(o.sender, o.password), SendMail(o.sender, o.to, o.msg), Quit]
  }

  /** The position of a step in the session. */
  function StepIndex(s: Step): (i: nat)
    ensures i < 5
  {
    match s
    case ConnectStep => 0
    case StartTlsStep => 1
    case LoginStep => 2
    case SendMailStep => 3
    case QuitStep => 4
  }

  /** How many operations of a session are attempted when `refuses` (if any) raises. */
  function Reached(refuses: Option<Step>): (n: nat)
    ensures 1 <= n <= 5
  {
    if refuses.None? then 5 else StepIndex(refuses.value) + 1
  }

  /** The operations of a session that run: all five, or up to and including the one that raises. */
  function Attempted(o: Outgoing, refuses: Option<Step>): seq<SmtpOp>
  {
    SessionOps(o)[..Reached(refuses)]
  }

  /**
   * A session stops at the first step that raises, with no retry: the
   * attempted operations run in session order, none but the last is refused,
   * and the last is the refused one when there is one.
   */
  lemma {:induction false} AttemptedStopsAtRefusal(o: Outgoing, refuses: Option<Step>)
    ensures var a := Attempted(o, refuses);
      && 1 <= |a| <= 5
      && (forall i :: 0 <= i < |a| - 1 ==> Some(StepOf(a[i])) != refuses)
      && (refuses.None? ==> a == SessionOps(o))
      && (refuses.Some? ==> StepOf(a[|a| - 1]) == refuses.value)
  {
    var a := Attempted(o, refuses);
    var ops := SessionOps(o);
    if refuses.Some? {
      var s := refuses.value;
      assert StepOf(ops[StepIndex(s)]) == s by {
        match s
        case ConnectStep =>
        case StartTlsStep =>
        case LoginStep =>
        case SendMailStep =>
        case QuitStep =>
      }
      forall i | 0 <= i < |a| - 1
        ensures Some(StepOf(a[i])) != refuses
      {
        assert StepOf(a[i]) == [ConnectStep, StartTlsStep, LoginStep, SendMailStep, QuitStep][i];
        match s
        case ConnectStep =>
        case StartTlsStep =>
        case LoginStep =>
        case SendMailStep =>
        case QuitStep =>
      }
    } else {
      forall i | 0 <= i < |a| - 1
        ensures Some(StepOf(a[i])) != refuses
      {
      }
    }
  }

  /** The message reaches `sendmail` exactly once unless connecting, STARTTLS or login raise first. */
  lemma DeliveredOnce(o: Outgoing, refuses: Option<Step>)
    ensures var handed := SendMail(o.sender, o.to, o.msg);
      (handed in Attempted(o, refuses)) <==> (refuses.None? || StepIndex(refuses.value) >= 3)
    ensures forall i, j :: 0 <= i < j < |Attempted(o, refuses)| ==> Attempted(o, refuses)[i] != Attempted(o, refuses)[j]
  {
    var handed := SendMail(o.sender, o.to, o.msg);
    var ops := SessionOps(o);
    if refuses.None? || StepIndex(refuses.value) >= 3 {
      assert Attempted(o, refuses)[3] == handed;
    }
    if handed in Attempted(o, refuses) {
      var k :| 0 <= k < Reached(refuses) && ops[k] == handed;
      assert StepOf(ops[k]) == SendMailStep;
    }
    forall i, j | 0 <= i < j < |Attempted(o, refuses)|
      ensures Attempted(o, refuses)[i] != Attempted(o, refuses)[j]
    {
      assert StepOf(ops[i]) != StepOf(ops[j]);
    }
  }

  /** The SMTP server as the session sees it: the operations it received, and the step it rejects, if any. */
  class SmtpServer {
    const refuses: Option<Step>
    var trace: seq<SmtpOp>

    constructor (refuses: Option<Step>)
      ensures this.refuses == refuses && trace == []
    {
      this.refuses := refuses;
      trace := [];
    }

    /** Runs one operation; `false` when it raises. */
    method Perform(op: SmtpOp) returns (ok: bool)
      modifies this`trace
      ensures trace == old(trace) + [op]
      ensures ok <==> refuses != Some(StepOf(op))
    {
      trace := trace + [op];
      ok := refuses != Some(StepOf(op));
    }
  }

  /** The inner `send()`: the five calls in order, stopping at the first that raises. */
  method Send(server: SmtpServer, o: Outgoing) returns (r: Result<(), EmailError>)
    modifies server`trace
    ensures server.trace == old(server.trace) + Attempted(o, server.refuses)
    ensures r == if server.refuses.None? then Success(()) else Failure(TransportFailure(server.refuses.value))
  {
    ghost var ops := SessionOps(o);
    ghost var before := server.trace;
    var ok := server.Perform(Connect(o.host, o.port));
    if !ok { return Failure(TransportFailure(ConnectStep)); }
    ok := server.Perform(StartTls);
    if !ok { return Failure(TransportFailure(StartTlsStep)); }
    ok := server.Perform(Login(o.sender, o.password));
    if !ok { assert ops[..3] == ops[..2] + [ops[2]]; return Failure(TransportFailure(LoginStep)); }
    ok := server.Perform(SendMail(o.sender, o.to, o.msg));
    if !ok { assert ops[..4] == ops[..3] + [ops[3]]; return Failure(TransportFailure(SendMailStep)); }
    ok := server.Perform(Quit);
    if !ok { return Failure(TransportFailure(QuitStep)); }
    r := Success(());
  }

  // ---------------------------------------------------------------------------
  // `send_email`

  /**
   * Everything `send_email` does before the scheduling branch: parse the port,
   * format the sender, build the message and read the attachment. Each failure
   * is the first one met in that order.
   */
  function Prepare(env: Env, files: map<Path, Blob>, to: string, subject: string, body: string,
                   attachmentPath: Option<Path>, attachmentName: string): (r: Result<Outgoing, EmailError>)
    ensures r.Success? <==>
      && env.smtpPort.Some? && ParseInt(env.smtpPort.value).Some?
      && env.emailAddress.Some? && IsAscii(env.emailAddress.value)
      && attachmentPath.Some? && attachmentPath.value in files
    ensures r.Success? ==> r.value == Outgoing(env.smtpServer, ParseInt(env.smtpPort.value).value,
      env.emailAddress.value, env.emailPassword, to,
      Compose(env.emailAddress.value, to, subject, body, files[attachmentPath.value], attachmentName))
    ensures env.smtpPort.None? ==> r == Failure(PortMissing)
    ensures env.smtpPort.Some? && ParseInt(env.smtpPort.value).None? ==> r == Failure(PortNotInteger(env.smtpPort.value))
  {
    if env.smtpPort.None? then Failure(PortMissing)
    else if ParseInt(env.smtpPort.value).None? then Failure(PortNotInteger(env.smtpPort.value))
    else if env.emailAddress.None? then Failure(SenderMissing)
    else if !IsAscii(env.emailAddress.value) then Failure(SenderNotAscii)
    else if attachmentPath.None? then Failure(AttachmentPathMissing)
    else if attachmentPath.value !in files then Failure(AttachmentNotFound(attachmentPath.value))
    else
      var sender := env.emailAddress.value;
      Success(Outgoing(env.smtpServer, ParseInt(env.smtpPort.value).value, sender, env.emailPassword, to,
        Compose(sender, to, subject, body, files[attachmentPath.value], attachmentName)))
  }

  /** A missing or malformed setting, or an unreadable attachment, is reported before any network step. */
  lemma FailsBeforeNetwork(env: Env, files: map<Path, Blob>, to: string, subject: string, body: string,
                           attachmentPath: Option<Path>, attachmentName: string)
    requires Prepare(env, files, to, subject, body, attachmentPath, attachmentName).Failure?
    ensures !Prepare(env, files, to, subject, body, attachmentPath, attachmentName).error.TransportFailure?
    ensures attachmentPath.Some? && attachmentPath.value !in files && env.smtpPort.Some?
            && ParseInt(env.smtpPort.value).Some? && env.emailAddress.Some? && IsAscii(env.emailAddress.value)
            ==> Prepare(env, files, to, subject, body, attachmentPath, attachmentName) == Failure(AttachmentNotFound(attachmentPath.value))
  {
  }

  /**
   * How `send_email` ends: the first preparation failure, else the transport
   * failure of a send that runs, else normal return, which includes the case
   * where the scheduled time has passed and nothing is sent.
   */
  function Outcome(env: Env, files: map<Path, Blob>, to: string, subject: string, body: string,
                   attachmentPath: Option<Path>, attachmentName: string, sendAt: Option<int>, now: int,
                   refuses: Option<Step>): Result<(), EmailError>
  {
    var p := Prepare(env, files, to, subject, body, attachmentPath, attachmentName);
    if p.Failure? then Failure(p.error)
    else if Decide(sendAt, now).sends == 0 || refuses.None? then Success(())
    else Failure(TransportFailure(refuses.value))
  }

  /**
   * `send_email` returns normally, without sending, for any well-configured
   * call whose scheduled time is not in the future, even if the server would
   * refuse every step.
   */
  lemma ReturnsWithoutSending(env: Env, files: map<Path, Blob>, to: string, subject: string, body: string,
                              attachmentPath: Option<Path>, attachmentName: string, t: int, now: int,
                              refuses: Option<Step>)
    requires Prepare(env, files, to, subject, body, attachmentPath, attachmentName).Success?
    requires t <= now
    ensures Outcome(env, files, to, subject, body, attachmentPath, attachmentName, Some(t), now, refuses) == Success(())
  {
    PastSendsNothing(t, now);
  }

  method SendEmail(env: Env, fs: FileSystem, clock: Clock, server: SmtpServer,
                   to: string, subject: string, body: string,
                   attachmentPath: Option<Path>, attachmentName: string, sendAt: Option<int>)
    returns (r: Result<(), EmailError>)
    modifies clock, server`trace
    ensures r == Outcome(env, fs.files, to, subject, body, attachmentPath, attachmentName, sendAt,
                         old(clock.now), server.refuses)
    ensures var p := Prepare(env, fs.files, to, subject, body, attachmentPath, attachmentName);
      && (p.Failure? ==> r == Failure(p.error) && server.trace == old(server.trace)
                         && clock.now == old(clock.now) && clock.sleeps == old(clock.sleeps))
      && (p.Success? ==>
            var d := Decide(sendAt, old(clock.now));
            && clock.now == old(clock.now) + d.wait
            && clock.sleeps == old(clock.sleeps) + (if d.wait > 0 then [d.wait] else [])
            && (d.sends == 0 ==> r == Success(()) && server.trace == old(server.trace))
            && (d.sends == 1 ==>
                  && server.trace == old(server.trace) + Attempted(p.value, server.refuses)
                  && r == if server.refuses.None? then Success(()) else Failure(TransportFailure(server.refuses.value))))
  {
    // Settings: the port is parsed here; the rest are read as they are.
    if env.smtpPort.None? { return Failure(PortMissing); }
    var port := ParseInt(env.smtpPort.value);
    if port.None? { return Failure(PortNotInteger(env.smtpPort.value)); }

    // Headers and the text part.
    if env.emailAddress.None? { return Failure(SenderMissing); }
    var sender := env.emailAddress.value;
    if !IsAscii(sender) { return Failure(SenderNotAscii); }
    var msg := new MimeMultipart();
    msg.SetItem("From", FormatSender(sender));
    msg.SetItem("To", to);
    msg.SetItem("Subject", subject);
    msg.Attach(TextPart(body, "plain"));

    // The attachment.
    if attachmentPath.None? { return Failure(AttachmentPathMissing); }
    var payload := fs.Read(attachmentPath.value);
    if payload.None? { return Failure(AttachmentNotFound(attachmentPath.value)); }
    msg.Attach(ApplicationPart(payload.value, attachmentName, Disposition(attachmentName)));
    var o := Outgoing(env.smtpServer, port.value, sender, env.emailPassword, to, msg.Value());
    assert o == Prepare(env, fs.files, to, subject, body, attachmentPath, attachmentName).value;

    // The scheduling branch.
    if sendAt.Some? {
      var now := clock.Now();
      var delay := sendAt.value - now;
      if delay > 0 {
        clock.Sleep(delay);
        r := Send(server, o);
      } else {
        r := Success(());
      }
    } else {
      r := Send(server, o);
    }
  }
}
