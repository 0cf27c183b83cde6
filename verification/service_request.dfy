/** The service request form (app/main.py): the startup configuration, the
    `submit_form` handler that reads the post, stores a row, renders the
    request PDF from a template and e-mails it, and the template variables
    `generate_pdf` passes. */
module ServiceRequest {
  import opened Values
  import C = Calendar
  import opened Decimal
  import opened Strptime
  import opened Display
  import opened Pipeline

  /** The columns of table `service_request_forms` and the template
      variables; each key stands for the snake-case string of its name
      (`CustomerName` for `customer_name`), and those strings are pairwise
      distinct. `FormId`, `CurrentDatetime` and `LogoData` are template
      variables only. */
  datatype Key =
    | Id | CustomerName | AccountNumber | CustomerAddress | ContactPhone
    | ContactEmail | IssueDescription | Date | SalespersonName | RequesterName
    | IpAddress | CreatedAt | FormId | CurrentDatetime | LogoData

  /** A column of the table. */
  predicate IsColumn(k: Key) {
    k != FormId && k != CurrentDatetime && k != LogoData
  }

  /** The post, read field by field with `form_data.get`: every field may be
      missing, and nothing checks that any is present. */
  datatype RequestPost = RequestPost(
    customerName: Option<string>,
    accountNumber: Option<string>,
    customerAddress: Option<string>,
    contactPhone: Option<string>,
    contactEmail: Option<string>,
    issueDescription: Option<string>,
    date: Option<string>,
    salespersonName: Option<string>,
    requesterName: Option<string>)

  // ---------------------------------------------------------------------
  // Startup configuration (lines 24-37)
  // ---------------------------------------------------------------------

  /** The settings read at import time. */
  datatype Config = Config(
    mail: MailSettings,
    smtpServer: Option<string>,
    smtpPort: int,
    username: Option<string>,
    password: Option<string>,
    databaseUrl: string)

  /** Why the module fails to import: `int()` rejects the port text, or the
      database URL is missing or empty. */
  datatype StartupError = InvalidSmtpPort(text: string) | DatabaseUrlNotSet

  const DefaultSmtpPort := "587"

  function Getenv(env: map<string, string>, name: string): Option<string> {
    if name in env then Some(env[name]) else None
  }

  /** Python's `int(text)` on an optional sign and ASCII digits. */
  function ParseInt(text: string): (r: Option<int>)
    ensures r.Some? ==> |text| >= 1
  {
    if |text| >= 2 && (text[0] == '+' || text[0] == '-') && AllDigits(text[1..]) then
      var v: int := DigitsValue(text[1..]);
      Some(if text[0] == '-' then -v else v)
    else if |text| >= 1 && AllDigits(text) then
      Some(DigitsValue(text))
    else
      None
  }

  /** Python's `str(n)` of an integer. */
  function IntText(n: int): string {
    if n < 0 then "-" + DecimalText(-n) else DecimalText(n)
  }

  /** `int` reads back every integer `str` writes, and reads a signed or
      zero-padded spelling as the number it denotes. */
  lemma ParseIntText(n: int)
    ensures ParseInt(IntText(n)) == Some(n)
  {
    var t := IntText(n);
    if n < 0 {
      var d := DecimalText(-n);
      DecimalTextValue(-n);
      assert t[0] == '-' && t[1..] == d;
    } else {
      DecimalTextValue(n);
      assert IsDigit(t[0]);
    }
  }

  /** Text `int` rejects: empty, a bare sign, or any character other than a
      leading sign and digits. */
  lemma ParseIntRejects(text: string)
    ensures text == "" || text == "+" || text == "-" ==> ParseInt(text).None?
    ensures (exists i :: 0 < i < |text| && !IsDigit(text[i])) ==> ParseInt(text).None?
  {
  }

  /** The module-level start-up: `load_dotenv()` fills in variables the
      process does not set, the port and mail settings are read, then
      `load_dotenv(override=True)` lets the dotenv file win before
      `DATABASE_URL` is read and checked. */
  function LoadConfig(process: map<string, string>, dotenv: map<string, string>): (r: Result<Config, StartupError>)
    ensures r.Ok? ==> r.value.databaseUrl != ""
    ensures r.Err? && r.error.InvalidSmtpPort? ==> ParseInt(r.error.text).None?
    ensures r.Ok? ==>
      && r.value.mail.companyEmail == Getenv(dotenv + process, "COMPANY_EMAIL")
      && r.value.mail.fromEmail == Getenv(dotenv + process, "FROM_EMAIL")
  {
    var env := dotenv + process;
    var portText := if "SMTP_PORT" in env then env["SMTP_PORT"] else DefaultSmtpPort;
    match ParseInt(portText)
    case None => Err(InvalidSmtpPort(portText))
    case Some(port) =>
      var overridden := process + dotenv;
      var url := Getenv(overridden, "DATABASE_URL");
      if url.None? || url.value == "" then Err(DatabaseUrlNotSet)
      else
        Ok(Config(
          MailSettings(Getenv(env, "COMPANY_EMAIL"), Getenv(env, "FROM_EMAIL")),
          Getenv(env, "SMTP_SERVER"), port,
          Getenv(env, "EMAIL_USERNAME"), Getenv(env, "EMAIL_PASSWORD"),
          url.value))
  }

  /** The settings checks at start-up pass exactly when the port text
      parses and a non-empty `DATABASE_URL` is set; the port check comes
      first. The URL is taken
      from the dotenv file when it sets one, the other settings from the
      process environment when it sets them; an unset port means 587. */
  lemma LoadConfigOutcome(process: map<string, string>, dotenv: map<string, string>)
    ensures var r := LoadConfig(process, dotenv);
      var portText := if "SMTP_PORT" in process then process["SMTP_PORT"]
        else if "SMTP_PORT" in dotenv then dotenv["SMTP_PORT"] else "587";
      var url := if "DATABASE_URL" in dotenv then Some(dotenv["DATABASE_URL"])
        else if "DATABASE_URL" in process then Some(process["DATABASE_URL"]) else None;
      && (r.Err? && r.error.InvalidSmtpPort? <==> ParseInt(portText).None?)
      && (r.Err? && r.error.InvalidSmtpPort? ==> r.error.text == portText)
      && (r == Err(DatabaseUrlNotSet) <==> ParseInt(portText).Some? && (url.None? || url.value == ""))
      && (r.Ok? ==>
            Some(r.value.databaseUrl) == url && r.value.databaseUrl != "" && r.value.smtpPort == ParseInt(portText).value)
  {
  }

  /** With `SMTP_PORT` unset everywhere and a database URL given, the port
      is 587; a port written as `str` writes it is read as that number. */
  lemma DefaultPort(process: map<string, string>, dotenv: map<string, string>, port: int)
    requires "DATABASE_URL" in process + dotenv && (process + dotenv)["DATABASE_URL"] != ""
    ensures "SMTP_PORT" !in process && "SMTP_PORT" !in dotenv ==>
      LoadConfig(process, dotenv).Ok? && LoadConfig(process, dotenv).value.smtpPort == 587
    ensures "SMTP_PORT" in process && process["SMTP_PORT"] == IntText(port) ==>
      LoadConfig(process, dotenv).Ok? && LoadConfig(process, dotenv).value.smtpPort == port
  {
    assert DigitsValue("587") == 587 by {
      assert "587"[..2] == "58" && "58"[..1] == "5";
    }
    ParseIntText(port);
  }

  // ---------------------------------------------------------------------
  // The request (lines 82-178)
  // ---------------------------------------------------------------------

  /** `datetime.strptime(date_str, "%Y-%m-%d").date() if date_str else None`
      with `ValueError` turned into `None`: missing or empty text is not
      parsed at all. */
  function ParseDateField(o: Option<string>): (r: Option<C.Date>)
    ensures r.Some? ==> C.ValidDate(r.value)
  {
    if Truthy(o) then ParseDate(o.value) else None
  }

  /** A missing or empty date gives `None`; any other text gives what the
      parser gives, a real day for canonical text naming one and `None` for
      text it rejects. */
  lemma ParseDateFieldOutcome(o: Option<string>)
    ensures !Truthy(o) ==> ParseDateField(o).None?
    ensures o.Some? ==> ParseDateField(o) == ParseDate(o.value)
    ensures o.Some? && CanonicalDateText(o.value) && C.ValidDate(SpelledDate(o.value)) ==>
      ParseDateField(o) == Some(SpelledDate(o.value))
  {
    if o.Some? && CanonicalDateText(o.value) {
      ParseCanonicalDate(o.value);
    }
  }

  /** `datetime.now()` as the handler uses it. */
  datatype Moment = Moment(date: C.Date, hour: int, minute: int, second: int)

  predicate ValidMoment(m: Moment) {
    C.ValidDate(m.date) && 0 <= m.hour < 24 && 0 <= m.minute < 60 && 0 <= m.second < 60
  }

  /** `strftime("%Y-%m-%d %H:%M:%S")`. */
  function FormatMoment(m: Moment): (s: string)
    requires ValidMoment(m)
    ensures |s| == 19
    ensures s[4] == '-' && s[7] == '-' && s[10] == ' ' && s[13] == ':' && s[16] == ':'
  {
    C.FormatDate(m.date) + " " + C.FormatTime(C.Time(m.hour, m.minute)) + ":" + Pad(m.second, 2)
  }

  /** The timestamp reads back: its first ten characters parse as the date,
      the next field after the space as the hour and minute, and the last
      two digits spell the second. */
  lemma FormatMomentReadsBack(m: Moment)
    requires ValidMoment(m)
    ensures var s := FormatMoment(m);
      && ParseDate(s[..10]) == Some(m.date)
      && ParseTime(s[11..16]) == Some(C.Time(m.hour, m.minute))
      && AllDigits(s[17..]) && DigitsValue(s[17..]) == m.second
  {
    var s := FormatMoment(m);
    assert s[..10] == C.FormatDate(m.date);
    assert s[11..16] == C.FormatTime(C.Time(m.hour, m.minute));
    assert s[17..] == Pad(m.second, 2);
    ParseFormatDate(m.date);
    ParseFormatTime(C.Time(m.hour, m.minute));
    PadValue(m.second, 2);
  }

  /** The inputs the handler takes from outside the post: the client address,
      the generated form id (`str(uuid.uuid4())`) and the clock. */
  datatype Context = Context(ip: string, formId: string, now: Moment)

  /** The dictionary the PDF is rendered from (`full_form_data`). */
  function FullFormData(post: RequestPost, ctx: Context): map<Key, Value<Key>>
    requires ValidMoment(ctx.now)
  {
    map[
      CustomerName := OptText(post.customerName),
      AccountNumber := OptText(post.accountNumber),
      CustomerAddress := OptText(post.customerAddress),
      ContactPhone := OptText(post.contactPhone),
      ContactEmail := OptText(post.contactEmail),
      IssueDescription := OptText(post.issueDescription),
      Date := OptDate(ParseDateField(post.date)),
      SalespersonName := OptText(post.salespersonName),
      RequesterName := OptText(post.requesterName),
      IpAddress := Text(ctx.ip),
      FormId := Text(ctx.formId),
      CurrentDatetime := Text(FormatMoment(ctx.now))
    ]
  }

  /** The row inserted into `service_request_forms` (`query_data`). */
  function QueryData(post: RequestPost, ip: string): (row: map<Key, Value<Key>>)
    ensures forall k :: k in row ==> IsColumn(k) && k != Id && k != CreatedAt
    ensures IpAddress in row && row[IpAddress] == Text(ip)
    ensures Date in row && (row[Date].DateValue? ==> C.ValidDate(row[Date].date))
    ensures forall k :: k in row ==> !row[k].Checks? && !row[k].Flag?
  {
    map[
      CustomerName := OptText(post.customerName),
      AccountNumber := OptText(post.accountNumber),
      CustomerAddress := OptText(post.customerAddress),
      ContactPhone := OptText(post.contactPhone),
      ContactEmail := OptText(post.contactEmail),
      IssueDescription := OptText(post.issueDescription),
      Date := OptDate(ParseDateField(post.date)),
      SalespersonName := OptText(post.salespersonName),
      RequesterName := OptText(post.requesterName),
      IpAddress := Text(ip)
    ]
  }

  /** The row is the PDF dictionary without `form_id` and
      `current_datetime`: same keys otherwise and same values. */
  lemma RowIsProjection(post: RequestPost, ctx: Context)
    requires ValidMoment(ctx.now)
    ensures var row := QueryData(post, ctx.ip); var full := FullFormData(post, ctx);
      && row.Keys == full.Keys - {FormId, CurrentDatetime}
      && (forall k :: k in row ==> row[k] == full[k])
  {
  }

  /** The row fills every column of the table except `id` and `created_at`,
      which the table assigns, holding `NULL` for a field the post left out. */
  lemma RowColumns(post: RequestPost, ip: string)
    ensures forall k :: k in QueryData(post, ip) <==> IsColumn(k) && k != Id && k != CreatedAt
  {
    var row := QueryData(post, ip);
    forall k ensures k in row <==> IsColumn(k) && k != Id && k != CreatedAt {
      match k
      case Id =>
      case CustomerName =>
      case AccountNumber =>
      case CustomerAddress =>
      case ContactPhone =>
      case ContactEmail =>
      case IssueDescription =>
      case Date =>
      case SalespersonName =>
      case RequesterName =>
      case IpAddress =>
      case CreatedAt =>
      case FormId =>
      case CurrentDatetime =>
      case LogoData =>
    }
  }

  /** The posted text field that fills column `k`, for the eight columns
      stored as text as posted (`date` is parsed first). */
  function PostedText(post: RequestPost, k: Key): Option<Option<string>> {
    match k
    case CustomerName => Some(post.customerName)
    case AccountNumber => Some(post.accountNumber)
    case CustomerAddress => Some(post.customerAddress)
    case ContactPhone => Some(post.contactPhone)
    case ContactEmail => Some(post.contactEmail)
    case IssueDescription => Some(post.issueDescription)
    case SalespersonName => Some(post.salespersonName)
    case RequesterName => Some(post.requesterName)
    case _ => None
  }

  /** A field the post leaves out reaches the row as `NULL`; a present one
      as its text, empty or not. A missing or empty date is
      `NULL`, and so is a date the parser rejects; any other date is stored
      as the day it names. */
  lemma MissingFieldsFlow(post: RequestPost, ip: string)
    ensures var row := QueryData(post, ip);
      forall k :: PostedText(post, k).Some? ==>
        && k in row
        && (PostedText(post, k).value.None? <==> row[k] == Null)
        && (PostedText(post, k).value.Some? ==> row[k] == Text(PostedText(post, k).value.value))
    ensures var row := QueryData(post, ip);
      && (!Truthy(post.date) ==> row[Date] == Null)
      && (Truthy(post.date) ==>
            (row[Date] == Null <==> ParseDate(post.date.value).None?)
            && (row[Date] != Null ==> row[Date] == DateValue(ParseDate(post.date.value).value)))
  {
    var row := QueryData(post, ip);
    forall k | PostedText(post, k).Some?
      ensures k in row
      ensures PostedText(post, k).value.None? <==> row[k] == Null
      ensures PostedText(post, k).value.Some? ==> row[k] == Text(PostedText(post, k).value.value)
    {
      match k
      case CustomerName =>
      case AccountNumber =>
      case CustomerAddress =>
      case ContactPhone =>
      case ContactEmail =>
      case IssueDescription =>
      case SalespersonName =>
      case RequesterName =>
    }
  }

  /** The template variables `generate_pdf` passes: the PDF dictionary with
      a date shown as its `strftime` text and anything else in the date slot
      as the empty text, plus the embedded logo; every other variable passes
      through unchanged. */
  function TemplateContext(full: map<Key, Value<Key>>, logoData: string): (t: map<Key, Value<Key>>)
    requires Date in full && (full[Date].DateValue? ==> C.ValidDate(full[Date].date))
    ensures t.Keys == full.Keys + {LogoData}
    ensures t[LogoData] == Text(logoData)
    ensures forall k :: k in full && k != Date && k != LogoData ==> t[k] == full[k]
    ensures full[Date].DateValue? ==> t[Date] == Text(C.FormatDate(full[Date].date))
    ensures !full[Date].DateValue? ==> t[Date] == Text("")
  {
    var shown := if full[Date].DateValue? then DateOrEmpty(Some(full[Date].date)) else DateOrEmpty(None);
    full[Date := Text(shown)][LogoData := Text(logoData)]
  }

  /** The PDF shows the date as posted when it is canonical text naming a
      real day, and as the empty string when the date is missing, empty or
      rejected; every other variable passes through unchanged, with the
      logo added. */
  lemma TemplateDate(post: RequestPost, ctx: Context, logoData: string)
    requires ValidMoment(ctx.now)
    ensures var full := FullFormData(post, ctx); var t := TemplateContext(full, logoData);
      && t.Keys == full.Keys + {LogoData}
      && t[LogoData] == Text(logoData)
      && (forall k :: k in full && k != Date ==> t[k] == full[k])
      && (Truthy(post.date) && CanonicalDateText(post.date.value) && C.ValidDate(SpelledDate(post.date.value)) ==>
            t[Date] == Text(post.date.value))
      && (ParseDateField(post.date).None? ==> t[Date] == Text(""))
  {
    var full := FullFormData(post, ctx);
    assert LogoData !in full && full[Date] == OptDate(ParseDateField(post.date));
    ParseDateFieldOutcome(post.date);
    if Truthy(post.date) && CanonicalDateText(post.date.value) && C.ValidDate(SpelledDate(post.date.value)) {
      FormatParsedDate(post.date.value);
    }
  }

  // ---------------------------------------------------------------------
  // The notifications (lines 146-172, 216-238)
  // ---------------------------------------------------------------------

  const AttachmentName := "Service_Request_Form.pdf"
  const CompanySubject := "New Service Request Form Submission"
  const CompanyBody := "A new Service Request Form was submitted.\nPlease see the attached PDF."
  const CustomerSubject := "Your Service Request Submission"
  const CustomerBody :=
    "Thank you. Your service request has been received by Graves Foods.\n"
    + "Please see the attached copy of your request for your records."

  /** `send_email`: from the configured sender, with the PDF attached. */
  function Mail(mail: MailSettings, to: Option<string>, subject: string, body: string, pdf: Document<Key>): Message<Key> {
    Message(mail.fromEmail, to, subject, body, pdf, AttachmentName)
  }

  /** The notifications: the company is always mailed, and first; the
      customer is mailed second exactly when `contact_email` is non-empty, at
      that address. Every message carries the same PDF under the same file
      name, from the configured sender. */
  function Notifications(mail: MailSettings, contactEmail: Option<string>, pdf: Document<Key>): (ns: seq<Effect<Key>>)
    ensures |ns| == (if Truthy(contactEmail) then 2 else 1)
    ensures ns[0].Send? && ns[0].message.recipient == mail.companyEmail
    ensures ns[0].message.subject == CompanySubject && ns[0].message.body == CompanyBody
    ensures |ns| == 2 ==>
      ns[1].Send? && ns[1].message.recipient == contactEmail
      && ns[1].message.subject == CustomerSubject && ns[1].message.body == CustomerBody
    ensures forall i :: 0 <= i < |ns| ==>
      ns[i].Send? && ns[i].message.attachment == pdf
      && ns[i].message.filename == AttachmentName && ns[i].message.sender == mail.fromEmail
  {
    [Send(Mail(mail, mail.companyEmail, CompanySubject, CompanyBody, pdf))]
    + (if Truthy(contactEmail) then [Send(Mail(mail, contactEmail, CustomerSubject, CustomerBody, pdf))] else [])
  }

  /** What `submit_form` does, in order: insert the row, render the PDF,
      send the notifications. */
  function RequestPlan(mail: MailSettings, row: map<Key, Value<Key>>, pdf: Document<Key>, contactEmail: Option<string>): seq<Effect<Key>> {
    [Insert(row), Render(pdf)] + Notifications(mail, contactEmail, pdf)
  }

  /** `submit_form`. `logo` is the embedded logo text, or `None` when the
      logo file is missing: opening it raises inside `generate_pdf`, so
      rendering fails. `failure` is the first step that raises for reasons
      outside the model. Whatever happens, the row for the post is the first
      thing stored; without the logo nothing after it runs. */
  function Handle(mail: MailSettings, post: RequestPost, ctx: Context, logo: Option<string>, failure: Option<nat>): (out: Outcome<Key>)
    requires ValidMoment(ctx.now)
    ensures out.completed != [] ==> out.completed[0] == Insert(QueryData(post, ctx.ip))
    ensures forall i :: 0 <= i < |out.completed| ==> Addressed(out.completed[i])
    ensures logo.None? ==> out.response == ServerError && |out.completed| <= 1
    ensures out.response.Confirmation? ==> out.response.customerName == post.customerName
  {
    var full := FullFormData(post, ctx);
    var pdf := Template(TemplateContext(full, if logo.Some? then logo.value else ""));
    var plan := RequestPlan(mail, QueryData(post, ctx.ip), pdf, post.contactEmail);
    Run(plan, if logo.None? then Earliest(failure, Some(1)) else failure, post.customerName)
  }

  /** The insert comes first and the render second, so a render failure,
      such as a missing logo file, leaves the row stored and sends nothing;
      the request is confirmed exactly when nothing raised and both the
      company and the sender address are set, and a confirmed request sent
      every notification. */
  lemma RequestOutcome(mail: MailSettings, row: map<Key, Value<Key>>, pdf: Document<Key>, contactEmail: Option<string>, failure: Option<nat>, name: Option<string>)
    ensures var plan := RequestPlan(mail, row, pdf, contactEmail);
      InsertRenderSend(plan) && |plan| == (if Truthy(contactEmail) then 4 else 3)
    ensures var plan := RequestPlan(mail, row, pdf, contactEmail);
      var out := Run(plan, Earliest(failure, Some(1)), name);
      (failure.None? || failure.value >= 1) ==>
        out.completed == [Insert(row)] && out.raised == Some(Render(pdf)) && out.response == ServerError
    ensures var plan := RequestPlan(mail, row, pdf, contactEmail); var out := Run(plan, failure, name);
      out.response.Confirmation? <==>
        (failure.None? || failure.value >= |plan|) && mail.companyEmail.Some? && mail.fromEmail.Some?
    ensures var plan := RequestPlan(mail, row, pdf, contactEmail); var out := Run(plan, failure, name);
      failure.None? && (mail.companyEmail.None? || mail.fromEmail.None?) ==>
        out.completed == plan[..2] && out.raised == Some(plan[2]) && out.response == ServerError
    ensures var plan := RequestPlan(mail, row, pdf, contactEmail); var out := Run(plan, failure, name);
      out.response.Confirmation? ==> out.completed == plan && out.response.customerName == name
  {
    var plan := RequestPlan(mail, row, pdf, contactEmail);
    var first := if mail.companyEmail.None? || mail.fromEmail.None? then Some(2) else None;
    assert Unaddressed(plan, |plan|) == None;
    if |plan| == 4 {
      assert Unaddressed(plan, 3) == (if mail.fromEmail.None? then Some(3) else None);
    }
    assert Unaddressed(plan, 2) == first;
    assert Unaddressed(plan, 1) == first;
    assert Unaddressed(plan, 0) == first;
  }

  /** End to end: without the logo file the row is stored and nothing is
      sent; a confirmed request stored the row for the post, rendered the
      template from the PDF dictionary with the logo, and sent every
      notification; and confirmation needs the logo, both addresses set and
      no step failing. */
  lemma HandleOutcome(mail: MailSettings, post: RequestPost, ctx: Context, logo: Option<string>, failure: Option<nat>)
    requires ValidMoment(ctx.now)
    ensures var out := Handle(mail, post, ctx, logo, failure);
      logo.None? && (failure.None? || failure.value >= 1) ==>
        out.completed == [Insert(QueryData(post, ctx.ip))] && out.raised.Some? && out.raised.value.Render?
    ensures var out := Handle(mail, post, ctx, logo, failure);
      out.response.Confirmation? ==>
        && logo.Some?
        && out.completed == RequestPlan(mail, QueryData(post, ctx.ip),
             Template(TemplateContext(FullFormData(post, ctx), logo.value)), post.contactEmail)
    ensures var out := Handle(mail, post, ctx, logo, failure);
      failure.None? && logo.Some? ==>
        (out.response.Confirmation? <==> mail.companyEmail.Some? && mail.fromEmail.Some?)
  {
    var full := FullFormData(post, ctx);
    var pdf := Template(TemplateContext(full, if logo.Some? then logo.value else ""));
    RequestOutcome(mail, QueryData(post, ctx.ip), pdf, post.contactEmail, failure, post.customerName);
  }
}
