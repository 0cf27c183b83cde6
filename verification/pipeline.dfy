/** The effects one form submission has on the outside world, in order: the
    database insert, the PDF rendering and the outgoing e-mails. The handlers
    run these steps one after another with no exception handling, so the
    first step that raises ends the request with a server error and no later
    step runs. */
module Pipeline {
  import opened Values
  import opened Pagination

  /** The PDF attached to the e-mails, abstracted from its bytes: either the
      draw calls made on a reportlab canvas, or the variables an HTML
      template is rendered with before conversion to PDF. */
  datatype Document<K> =
    | Canvas(events: seq<Event>)
    | Template(context: map<K, Value<K>>)

  /** The sender and company addresses read from the environment at import
      time; either may be unset. */
  datatype MailSettings = MailSettings(companyEmail: Option<string>, fromEmail: Option<string>)

  /** One outgoing message: `From`, `To`, `Subject`, the plain-text body and
      the attached PDF with its file name. */
  datatype Message<K> = Message(
    sender: Option<string>,
    recipient: Option<string>,
    subject: string,
    body: string,
    attachment: Document<K>,
    filename: string)

  datatype Effect<K> =
    | Insert(row: map<K, Value<K>>)
    | Render(document: Document<K>)
    | Send(message: Message<K>)

  /** The HTTP response: the confirmation page, which echoes the customer
      name, or a server error. */
  datatype Response = Confirmation(customerName: Option<string>) | ServerError

  /** The steps that took effect, the step that raised (if any), and the
      response. */
  datatype Outcome<K> = Outcome(completed: seq<Effect<K>>, raised: Option<Effect<K>>, response: Response)

  /** The plan both handlers follow: insert, then render, then one or more
      sends, each carrying the rendered document. */
  predicate InsertRenderSend<K>(plan: seq<Effect<K>>) {
    && |plan| >= 3
    && plan[0].Insert?
    && plan[1].Render?
    && forall i :: 2 <= i < |plan| ==> plan[i].Send? && plan[i].message.attachment == plan[1].document
  }

  /** Run the plan in order. `failure` is the index of the first step that
      raises (a database, template, file or SMTP error) before taking
      effect, if any: that step takes no effect and nothing after it runs. */
  function Execute<K>(plan: seq<Effect<K>>, failure: Option<nat>, customerName: Option<string>): (out: Outcome<K>)
    ensures out.completed <= plan
    ensures out.raised.None? <==> out.response.Confirmation?
    ensures out.raised.None? ==> out.completed == plan && out.response == Confirmation(customerName)
    ensures out.raised.Some? ==> out.completed + [out.raised.value] <= plan
    ensures out.raised.Some? <==> failure.Some? && failure.value < |plan|
    ensures out.raised.Some? ==> |out.completed| == failure.value
  {
    if failure.Some? && failure.value < |plan| then
      Outcome(plan[..failure.value], Some(plan[failure.value]), ServerError)
    else
      Outcome(plan, None, Confirmation(customerName))
  }

  /** Whatever fails, no e-mail is sent before the row is inserted and the
      document rendered, the insert is always the first step tried, and the
      request is confirmed only when every e-mail went out. */
  lemma ExecuteKeepsOrder<K>(plan: seq<Effect<K>>, failure: Option<nat>, customerName: Option<string>)
    requires InsertRenderSend(plan)
    ensures var out := Execute(plan, failure, customerName);
      forall i :: 0 <= i < |out.completed| && out.completed[i].Send? ==>
        i >= 2 && out.completed[0].Insert? && out.completed[1].Render?
    ensures var out := Execute(plan, failure, customerName);
      out.raised.Some? && out.raised.value.Send? ==> |out.completed| >= 2 && out.completed[0].Insert? && out.completed[1].Render?
    ensures var out := Execute(plan, failure, customerName);
      (out.completed == [] ==> out.raised == Some(plan[0])) && (out.completed != [] ==> out.completed[0] == plan[0])
    ensures var out := Execute(plan, failure, customerName);
      out.response.Confirmation? <==> |out.completed| == |plan|
  {
    var out := Execute(plan, failure, customerName);
    if out.raised.Some? {
      assert plan[|out.completed|] == out.raised.value;
    }
  }

  /** The earlier of two optional step indices. */
  function Earliest(a: Option<nat>, b: Option<nat>): (r: Option<nat>)
    ensures r.Some? <==> a.Some? || b.Some?
    ensures r.Some? ==> (a.Some? && r.value == a.value) || (b.Some? && r.value == b.value)
    ensures a.Some? ==> r.Some? && r.value <= a.value
    ensures b.Some? ==> r.Some? && r.value <= b.value
  {
    if a.None? then b
    else if b.None? then a
    else if a.value <= b.value then a else b
  }

  /** A step that can only succeed when its message is addressed: a send
      needs both a sender and a recipient. `msg['From']` and `msg['To']`
      accept `None`, but `sendmail` quotes the sender as an address and
      iterates over the recipients, and `None` supports neither, so a send
      with either unset always raises. */
  predicate Addressed<K>(e: Effect<K>) {
    e.Send? ==> e.message.sender.Some? && e.message.recipient.Some?
  }

  /** The first step, from `from` on, that is a send with an unset sender or
      recipient. */
  function Unaddressed<K>(plan: seq<Effect<K>>, from: nat): (r: Option<nat>)
    decreases |plan| - from
    ensures r.Some? ==> from <= r.value < |plan| && !Addressed(plan[r.value])
    ensures forall i :: from <= i < |plan| && (r.None? || i < r.value) ==> Addressed(plan[i])
  {
    if from >= |plan| then None
    else if !Addressed(plan[from]) then Some(from)
    else Unaddressed(plan, from + 1)
  }

  /** Run the plan when `failure` is the first step that raises for reasons
      outside the model (database, template, file or SMTP errors) and, in
      addition, every send with an unset sender or recipient raises. No
      e-mail without both addresses ever goes out, the run stops at the
      earlier of the two causes, and the request is confirmed exactly when
      no step fails and every send in the plan is addressed. */
  function Run<K>(plan: seq<Effect<K>>, failure: Option<nat>, customerName: Option<string>): (out: Outcome<K>)
    ensures out.completed <= plan
    ensures out.raised.None? <==> out.response.Confirmation?
    ensures forall i :: 0 <= i < |out.completed| ==> Addressed(out.completed[i])
    ensures out.raised.Some? ==>
      out.completed + [out.raised.value] <= plan
      && ((failure.Some? && failure.value == |out.completed|) || !Addressed(out.raised.value))
    ensures out.raised.Some? && failure.Some? ==> |out.completed| <= failure.value
    ensures out.response.Confirmation? ==> out.completed == plan && out.response.customerName == customerName
    ensures out.response.Confirmation? <==>
      (failure.None? || failure.value >= |plan|) && forall i :: 0 <= i < |plan| ==> Addressed(plan[i])
  {
    Execute(plan, Earliest(failure, Unaddressed(plan, 0)), customerName)
  }
}
