/** The contact form: the submission state machine of `handleSubmit` and
    what the form shows in each state. The send itself is a foreign
    asynchronous call; its outcome arrives as a separate event, and so does
    the timeout that returns the form to idle. */
module Contact {
  import opened Query
  import opened LanguageContext

  datatype FormState = Idle | Loading | Success | Error

  /** The three build-time credentials, each possibly undefined. */
  datatype Credentials = Credentials(serviceId: Option<string>, templateId: Option<string>, publicKey: Option<string>)

  /** A credential passes the check when it is defined and non-empty. */
  predicate Present(v: Option<string>) {
    v.Some? && v.value != ""
  }

  predicate CredentialsPresent(c: Credentials) {
    Present(c.serviceId) && Present(c.templateId) && Present(c.publicKey)
  }

  /** The submit button takes clicks only while idle. */
  function SubmitEnabled(s: FormState): (r: bool)
    ensures r <==> s == Idle
  {
    s == Idle
  }

  /** The error line under the fields. */
  function ErrorText(l: Language): (r: string)
    ensures r != ""
  {
    if l == Pl then "Błąd podczas wysyłania. Spróbuj ponownie."
    else "Error sending message. Please try again."
  }

  /** The error line shows only in the error state. */
  function ErrorLine(s: FormState, l: Language): (r: Option<string>)
    ensures r.Some? <==> s == Error
  {
    if s == Error then Some(ErrorText(l)) else None
  }

  /** What the submit button holds. */
  datatype ButtonContent = SendLabel(text: string) | Spinner | SentText(text: string) | Blank

  function ButtonFor(s: FormState, l: Language): (r: ButtonContent)
    ensures r.SendLabel? <==> s == Idle
    ensures r.Spinner? <==> s == Loading
    ensures r.SentText? <==> s == Success
    ensures r.Blank? <==> s == Error
  {
    match s
    case Idle => SendLabel(if l == Pl then "Wyślij Wiadomość" else "Send Message")
    case Loading => Spinner
    case Success => SentText(if l == Pl then "Wysłano!" else "Sent!")
    case Error => Blank
  }

  /** Exactly one of the send label, the spinner, "Sent!" and the error line
      is on screen, and the button is enabled exactly when it shows the send
      label. */
  lemma OneFeedbackAtATime(s: FormState, l: Language)
    ensures ErrorLine(s, l).Some? <==> ButtonFor(s, l).Blank?
    ensures SubmitEnabled(s) <==> ButtonFor(s, l).SendLabel?
    ensures !SubmitEnabled(s) <==> (ButtonFor(s, l).Spinner? || ButtonFor(s, l).SentText? || ErrorLine(s, l).Some?)
  {
  }

  /** The form component: its state, the current field values, the values a
      reset restores, and the two pending events (the send's outcome and the
      timeout back to idle). `history` records every state set, in order. */
  class ContactForm {
    var state: FormState
    var fields: seq<string>
    const defaults: seq<string>
    var sendPending: bool
    var idleTimerPending: bool
    ghost var history: seq<FormState>

    /** A send is outstanding exactly while loading; a timeout is pending
      only after a send settled. */
    predicate Valid()
      reads this
    {
      && (sendPending <==> state == Loading)
      && (idleTimerPending ==> state == Success || state == Error)
      && |fields| == |defaults|
    }

    /** An early error: the state is error and nothing will ever move it. */
    predicate Stuck()
      reads this
    {
      state == Error && !sendPending && !idleTimerPending
    }

    constructor (defaults: seq<string>)
      ensures Valid() && state == Idle
      ensures fields == defaults && this.defaults == defaults
      ensures !sendPending && !idleTimerPending && history == []
    {
      this.defaults := defaults;
      fields := defaults;
      state := Idle;
      sendPending := false;
      idleTimerPending := false;
      history := [];
    }

    /** The user types into the fields. */
    method Edit(values: seq<string>)
      requires Valid()
      requires |values| == |fields|
      modifies this
      ensures Valid()
      ensures fields == values
      ensures state == old(state) && sendPending == old(sendPending)
      ensures idleTimerPending == old(idleTimerPending) && history == old(history)
    {
      fields := values;
    }

    /** `handleSubmit` up to the send: go to loading, then to error without
      sending when the form is not mounted or a credential is missing or
      empty; otherwise start the send. Reachable only from idle, since the
      button is disabled in every other state. */
    method HandleSubmit(formMounted: bool, creds: Credentials) returns (sendStarted: bool)
      requires Valid() && SubmitEnabled(state)
      modifies this
      ensures Valid()
      ensures sendStarted <==> formMounted && CredentialsPresent(creds)
      ensures state == (if sendStarted then Loading else Error)
      ensures history == old(history) + [Loading] + (if sendStarted then [] else [Error])
      ensures sendPending == sendStarted
      ensures !sendStarted ==> Stuck()
      ensures fields == old(fields)
    {
      state := Loading;
      history := history + [Loading];
      if !formMounted {
        state := Error;
        history := history + [Error];
        return false;
      }
      if !Present(creds.serviceId) || !Present(creds.templateId) || !Present(creds.publicKey) {
        state := Error;
        history := history + [Error];
        return false;
      }
      sendPending := true;
      return true;
    }

    /** The send settles: success resets the fields and shows success,
      failure keeps the fields and shows the error; either way a timeout
      back to idle is scheduled. */
    method SendSettled(ok: bool)
      requires Valid() && sendPending
      modifies this
      ensures Valid()
      ensures state == (if ok then Success else Error)
      ensures fields == (if ok then defaults else old(fields))
      ensures !sendPending && idleTimerPending
      ensures history == old(history) + [state]
    {
      sendPending := false;
      if ok {
        state := Success;
        fields := defaults;
      } else {
        state := Error;
      }
      history := history + [state];
      idleTimerPending := true;
    }

    /** The timeout fires and the form is idle again. */
    method IdleTimerFires()
      requires Valid() && idleTimerPending
      modifies this
      ensures Valid()
      ensures state == Idle && !idleTimerPending && !sendPending
      ensures fields == old(fields)
      ensures history == old(history) + [Idle]
    {
      idleTimerPending := false;
      state := Idle;
      history := history + [Idle];
    }
  }

  /** While a send is outstanding or the timeout back to idle is pending,
      the button refuses clicks, so no second submission can start. */
  lemma PendingEventDisablesSubmit(f: ContactForm)
    requires f.Valid() && (f.sendPending || f.idleTimerPending)
    ensures !SubmitEnabled(f.state)
    ensures f.sendPending ==> ButtonFor(f.state, En).Spinner? && ButtonFor(f.state, Pl).Spinner?
  {
  }

  /** A stuck form offers no event: the button is disabled and neither the
      send outcome nor the timeout is pending. */
  lemma StuckFormIsDisabled(f: ContactForm)
    requires f.Stuck()
    ensures !SubmitEnabled(f.state) && !f.sendPending && !f.idleTimerPending
    ensures ErrorLine(f.state, En).Some? && ErrorLine(f.state, Pl).Some?
  {
  }

  /** A whole successful submission: loading, success, idle, with the fields
      reset. */
  method SubmitAndSucceed(f: ContactForm, creds: Credentials)
    requires f.Valid() && f.state == Idle
    requires CredentialsPresent(creds)
    modifies f
    ensures f.state == Idle && f.fields == f.defaults
    ensures f.history == old(f.history) + [Loading, Success, Idle]
  {
    var started := f.HandleSubmit(true, creds);
    f.SendSettled(true);
    f.IdleTimerFires();
  }

  /** A whole failed submission: loading, error, idle, with the fields as
      the user left them. */
  method SubmitAndFail(f: ContactForm, creds: Credentials)
    requires f.Valid() && f.state == Idle
    requires CredentialsPresent(creds)
    modifies f
    ensures f.state == Idle && f.fields == old(f.fields)
    ensures f.history == old(f.history) + [Loading, Error, Idle]
  {
    var started := f.HandleSubmit(true, creds);
    f.SendSettled(false);
    f.IdleTimerFires();
  }
}
