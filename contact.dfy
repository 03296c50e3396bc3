/**
 * The contact page: a three-field form, a submission that reports its outcome in a status
 * line, and an effect that clears a shown status 5000 ms after it was set. Time is a logical
 * clock `now` in milliseconds; the pending `setTimeout` is its deadline `clearAt`.
 */
module ContactPage {
  import opened Common

  const ClearDelay: nat := 5000

  const SentMessage := "Message sent successfully!"
  const ErrorPrefix := "Error: "
  const SendFailedMessage := "Failed to send message."
  const NetworkFailureMessage := "Something went wrong. Please try again."

  datatype ContactForm = ContactForm(name: string, email: string, message: string)

  const EmptyForm := ContactForm("", "", "")

  /** The `name` attribute of the input that changed. */
  datatype ContactField = NameField | EmailField | MessageField

  /**
   * The body of a reply: JSON with an optional `message`, or something `response.json()`
   * rejects. A non-2xx reply whose body is the JSON literal `null` is `NotJson` too: reading
   * `data.message` then throws into the same catch. A 2xx `null` body is `Json(None)`, since
   * the success path never reads it.
   */
  datatype ContactBody = Json(message: Option<string>) | NotJson

  /** How `POST /contact` ended. */
  datatype ContactReply =
    | Responded(ok: bool, body: ContactBody)   // `response.ok` is a 2xx status
    | NetworkError                             // `fetch` itself rejected

  /** The status line is styled as a success when it starts with the success text. */
  predicate IsSuccessStatus(status: string): (b: bool)
    ensures b <==> |SentMessage| <= |status| && forall i :: 0 <= i < |SentMessage| ==> status[i] == SentMessage[i]
  {
    SentMessage <= status
  }

  /**
   * The status a finished submission shows. It is never empty, so it is always displayed and
   * always arms the clear; it is styled as a success exactly for a 2xx reply with a JSON body.
   */
  function SubmissionStatus(reply: ContactReply): (status: string)
    ensures status != ""
    ensures IsSuccessStatus(status) <==> reply.Responded? && reply.ok && reply.body.Json?
  {
    match reply
    case Responded(ok, Json(message)) =>
      if ok then SentMessage
      else
        var s := ErrorPrefix + OrElse(message, SendFailedMessage);
        assert s[0] != SentMessage[0];
        s
    case _ =>
      assert NetworkFailureMessage[0] != SentMessage[0];
      NetworkFailureMessage
  }

  class Contact {
    var form: ContactForm
    var status: Option<string>
    /** The logical clock, in milliseconds. */
    var now: nat
    /** When the pending clear of `status` fires, if one is pending. */
    var clearAt: Option<nat>
    /** The number of submissions whose reply has not arrived yet. */
    var pending: nat
    /** Every form posted, in order. */
    var sent: seq<ContactForm>

    /** A clear is pending exactly while a truthy status is shown, and it fires within the delay. */
    ghost predicate Valid()
      reads this
    {
      (clearAt.Some? <==> Truthy(status)) &&
      (clearAt.Some? ==> now < clearAt.value <= now + ClearDelay)
    }

    constructor (start: nat)
      ensures Valid()
      ensures form == EmptyForm && status == None && now == start && clearAt == None
      ensures pending == 0 && sent == []
    {
      form := EmptyForm;
      status := None;
      now := start;
      clearAt := None;
      pending := 0;
      sent := [];
    }

    /**
     * `setStatus` followed by the effect on `status`. A new value cancels the pending clear
     * and, when truthy, arms one for `ClearDelay` from now. Setting the value already held
     * changes nothing, so the pending clear keeps its deadline.
     */
    method SetStatus(s: Option<string>)
      requires Valid()
      modifies this`status, this`clearAt
      ensures Valid() && status == s
      ensures s != old(status) ==> clearAt == (if Truthy(s) then Some(now + ClearDelay) else None)
      ensures s == old(status) ==> clearAt == old(clearAt)
    {
      if s != status {
        status := s;
        clearAt := if Truthy(s) then Some(now + ClearDelay) else None;
      }
    }

    /** `handleChange`: the named field takes the new value; nothing else changes. */
    method HandleChange(field: ContactField, value: string)
      modifies this`form
      ensures form.name == (if field == NameField then value else old(form.name))
      ensures form.email == (if field == EmailField then value else old(form.email))
      ensures form.message == (if field == MessageField then value else old(form.message))
    {
      match field
      case NameField => form := form.(name := value);
      case EmailField => form := form.(email := value);
      case MessageField => form := form.(message := value);
    }

    /** The part of `handleSubmit` before the reply: the status is cleared and the form is posted. */
    method HandleSubmit()
      requires Valid()
      modifies this`status, this`clearAt, this`pending, this`sent
      ensures Valid()
      ensures status == None && clearAt == None
      ensures pending == old(pending) + 1 && sent == old(sent) + [form]
    {
      SetStatus(None);
      sent := sent + [form];
      pending := pending + 1;
    }

    /**
     * The rest of `handleSubmit`: a 2xx reply shows the success text and empties the form; an
     * error reply shows "Error: " and the server's message or a default; a failed request or
     * an unreadable body shows the generic text and keeps the form.
     */
    method ReceiveReply(reply: ContactReply)
      requires Valid() && pending > 0
      modifies this`status, this`clearAt, this`pending, this`form
      ensures Valid() && pending == old(pending) - 1
      ensures status == Some(SubmissionStatus(reply))
      ensures old(status) != status ==> clearAt == Some(now + ClearDelay)
      ensures old(status) == status ==> clearAt == old(clearAt)
      ensures reply.Responded? && reply.ok && reply.body.Json? ==>
                status == Some(SentMessage) && form == EmptyForm
      ensures reply.Responded? && !reply.ok && reply.body.Json? ==>
                status == Some(ErrorPrefix + OrElse(reply.body.message, SendFailedMessage)) && form == old(form)
      ensures reply.NetworkError? || reply.body.NotJson? ==>
                status == Some(NetworkFailureMessage) && form == old(form)
    {
      pending := pending - 1;
      match reply {
        case Responded(ok, Json(message)) =>
          if ok {
            SetStatus(Some(SentMessage));
            form := EmptyForm;
          } else {
            SetStatus(Some(ErrorPrefix + OrElse(message, SendFailedMessage)));
          }
        case _ =>
          SetStatus(Some(NetworkFailureMessage));
      }
    }

    /** Time passes to `t`: a clear that falls due by then fires, and the status goes away. */
    method AdvanceTo(t: nat)
      requires Valid() && now <= t
      modifies this`now, this`status, this`clearAt
      ensures Valid() && now == t
      ensures old(clearAt).Some? && old(clearAt).value <= t ==> status == None && clearAt == None
      ensures !(old(clearAt).Some? && old(clearAt).value <= t) ==>
                status == old(status) && clearAt == old(clearAt)
    {
      if clearAt.Some? && clearAt.value <= t {
        SetStatus(None);
      }
      now := t;
    }
  }

  /**
   * One submission from a fresh page at time `start`, answered at `answeredAt`: the status
   * it sets is still shown 4999 ms later and is gone 5000 ms later.
   */
  method StatusClearsAfterDelay(start: nat, answeredAt: nat, reply: ContactReply)
    returns (shown: Option<string>, justBefore: Option<string>, after: Option<string>)
    requires start <= answeredAt
    ensures shown == Some(SubmissionStatus(reply))
    ensures justBefore == shown
    ensures after == None
  {
    var page := new Contact(start);
    page.HandleSubmit();
    page.AdvanceTo(answeredAt);
    page.ReceiveReply(reply);
    shown := page.status;
    page.AdvanceTo(answeredAt + ClearDelay - 1);
    justBefore := page.status;
    page.AdvanceTo(answeredAt + ClearDelay);
    after := page.status;
  }
}
