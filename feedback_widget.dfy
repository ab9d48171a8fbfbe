/**
 * The feedback dialog: a message and a type, checked before sending, a payload with
 * the trimmed message, and the errors shown when sending fails. The network answer is
 * a parameter of the submit handler; the page URL, user agent and metadata that the
 * payload also carries are not part of this model.
 */
module FeedbackWidget {
  import opened Wrappers
  import opened Text

  datatype FeedbackType = Generic | MissingFund | WrongData | Other

  datatype FormState = FormState(message: string, feedbackType: FeedbackType)

  const InitialForm := FormState("", Generic)

  /** The errors the dialog can show, each with its text. */
  datatype ErrorText = EmptyMessageError | ShortMessageError | LoginRequiredError | SendFailedError
  {
    function Wording(): string {
      match this
      case EmptyMessageError => "Scrivi il tuo feedback."
      case ShortMessageError => "Aggiungi qualche dettaglio in piu."
      case LoginRequiredError => "Devi effettuare l'accesso per inviare feedback."
      case SendFailedError => "Invio non riuscito. Riprova tra poco."
    }
  }

  /** Field errors and the general error; an absent entry is no error. */
  datatype FormErrors = FormErrors(message: Option<ErrorText>, general: Option<ErrorText>)

  const NoErrors := FormErrors(None, None)

  const MinMessageLength := 10

  /** `validate`: an empty trimmed message, or one under ten characters, is refused. */
  function Validate(state: FormState): (e: FormErrors)
    ensures e.general.None?
    ensures e.message == Some(EmptyMessageError) <==> Trim(state.message) == ""
    ensures e.message == Some(ShortMessageError) <==> 0 < |Trim(state.message)| < MinMessageLength
    ensures e.message.None? <==> |Trim(state.message)| >= MinMessageLength
  {
    var trimmedMessage := Trim(state.message);
    if trimmedMessage == "" then FormErrors(Some(EmptyMessageError), None)
    else if |trimmedMessage| < MinMessageLength then FormErrors(Some(ShortMessageError), None)
    else NoErrors
  }

  /** The "write your feedback" error is for a message of nothing but whitespace. */
  lemma EmptyErrorIffBlank(state: FormState)
    ensures Validate(state).message == Some(EmptyMessageError) <==> AllSpace(state.message)
  {
    TrimEmptyIffAllSpace(state.message);
  }

  /** Checking the trimmed form gives the same verdict as checking the form as typed. */
  lemma ValidateTrimmed(state: FormState)
    ensures Validate(Trimmed(state)) == Validate(state)
  {
    TrimIdempotent(state.message);
  }

  /** The form as it is checked and sent: the message trimmed. */
  function Trimmed(state: FormState): (r: FormState)
    ensures r.feedbackType == state.feedbackType && r.message == Trim(state.message)
  {
    state.(message := Trim(state.message))
  }

  /** The form is sent exactly when its trimmed message has ten characters or more. */
  predicate Passes(state: FormState) {
    |Trim(state.message)| >= MinMessageLength
  }

  lemma PassesIffNoErrors(state: FormState)
    ensures Validate(Trimmed(state)) == NoErrors <==> Passes(state)
  {
    TrimIdempotent(state.message);
  }

  /** What reaches the server. */
  datatype Payload = Payload(message: string, feedbackType: FeedbackType)

  /** The server's answer to a submission: accepted, or an error with its status if any. */
  datatype Outcome = Accepted | Failed(status: Option<int>)

  /** `canSubmit`: the form is offered unless authentication is required and nobody is logged in. */
  predicate CanSubmit(requireAuth: Option<bool>, loggedIn: bool) {
    !requireAuth.GetOr(false) || loggedIn
  }

  lemma CanSubmitByDefault(loggedIn: bool)
    ensures CanSubmit(None, loggedIn) && CanSubmit(Some(false), loggedIn)
    ensures CanSubmit(Some(true), loggedIn) <==> loggedIn
  {
  }

  /** Every message in `sent` has ten characters or more. */
  predicate AllLongEnough(sent: seq<Payload>) {
    forall k :: 0 <= k < |sent| ==> |sent[k].message| >= MinMessageLength
  }

  /** The dialog as the user sees it, and what it has sent so far. */
  datatype DialogState = DialogState(open: bool, form: FormState, errors: FormErrors, sent: seq<Payload>)

  /** A closed dialog holds a fresh form, and every message sent had ten characters or more. */
  predicate ValidDialog(st: DialogState) {
    (!st.open ==> st.form == InitialForm) && AllLongEnough(st.sent)
  }

  /** The general error a failed submission shows. */
  function FailureError(status: Option<int>): ErrorText {
    if status == Some(401) then LoginRequiredError else SendFailedError
  }

  /**
   * `handleSubmit`'s effect: a form that does not pass `validate` only shows its
   * errors; otherwise the trimmed message is sent, success closes the dialog (which
   * resets the form) and a failure shows its general error.
   */
  function Submit(st: DialogState, outcome: Outcome): DialogState {
    var trimmed := Trimmed(st.form);
    if !Passes(st.form) then st.(errors := Validate(trimmed))
    else
      var delivered := st.(sent := st.sent + [Payload(trimmed.message, trimmed.feedbackType)]);
      match outcome
      case Accepted => delivered.(open := false, form := InitialForm, errors := NoErrors)
      case Failed(status) => delivered.(errors := FormErrors(None, Some(FailureError(status))))
  }

  /** The three outcomes of Submit, written out as whole dialog states. */
  lemma SubmitCases(st: DialogState, outcome: Outcome)
    ensures !Passes(st.form) ==> Submit(st, outcome) == st.(errors := Validate(Trimmed(st.form)))
    ensures Passes(st.form) && outcome.Accepted? ==>
      Submit(st, outcome)
      == DialogState(false, InitialForm, NoErrors, st.sent + [Payload(Trimmed(st.form).message, st.form.feedbackType)])
    ensures Passes(st.form) && outcome.Failed? ==>
      Submit(st, outcome)
      == DialogState(st.open, st.form, FormErrors(None, Some(FailureError(outcome.status))),
                     st.sent + [Payload(Trimmed(st.form).message, st.form.feedbackType)])
  {
  }

  /** A refused form is not sent; the dialog stays as it was and shows why. */
  lemma SubmitRefused(st: DialogState, outcome: Outcome)
    requires !Passes(st.form)
    ensures var r := Submit(st, outcome);
      && r.sent == st.sent && r.open == st.open && r.form == st.form
      && r.errors.message.Some? && r.errors.general.None?
      && r.errors == Validate(st.form)
  {
    assert Submit(st, outcome) == st.(errors := Validate(Trimmed(st.form)));
    ValidateTrimmed(st.form);
    assert Validate(st.form).message.Some?;
  }

  /** A form that passes is sent once, with its message trimmed and its type. */
  lemma SubmitSends(st: DialogState, outcome: Outcome)
    requires Passes(st.form)
    ensures var r := Submit(st, outcome);
      && r.sent == st.sent + [Payload(Trim(st.form.message), st.form.feedbackType)]
      && |Trim(st.form.message)| >= MinMessageLength
      && r.errors.message.None?
  {
  }

  /** Success closes the dialog and resets it; a 401 asks to log in; any other failure says retry. */
  lemma SubmitOutcome(st: DialogState, status: Option<int>)
    requires Passes(st.form)
    ensures var r := Submit(st, Accepted);
      !r.open && r.form == InitialForm && r.errors == NoErrors
    ensures var r := Submit(st, Failed(status));
      && r.open == st.open && r.form == st.form
      && (status == Some(401) ==> r.errors.general == Some(LoginRequiredError))
      && (status != Some(401) ==> r.errors.general == Some(SendFailedError))
  {
  }

  /** Submitting keeps the dialog's invariant. */
  lemma SubmitKeepsValid(st: DialogState, outcome: Outcome)
    requires ValidDialog(st)
    ensures ValidDialog(Submit(st, outcome))
  {
    if Passes(st.form) {
      SubmitSends(st, outcome);
      AppendLongMessage(st.sent, Payload(Trim(st.form.message), st.form.feedbackType));
      if outcome.Failed? {
        SubmitOutcome(st, outcome.status);
      }
    } else {
      SubmitRefused(st, outcome);
    }
  }

  lemma AppendLongMessage(sent: seq<Payload>, p: Payload)
    requires AllLongEnough(sent) && |p.message| >= MinMessageLength
    ensures AllLongEnough(sent + [p])
  {
  }

  class Widget {
    var open: bool
    var form: FormState
    var errors: FormErrors
    var isSubmitting: bool
    /** Every payload handed to the server, oldest first. */
    var sent: seq<Payload>

    /** Between events nothing is being sent, and the dialog keeps its invariant. */
    ghost predicate Valid()
      reads this
    {
      !isSubmitting && ValidDialog(DialogState(open, form, errors, sent))
    }

    constructor()
      ensures !open && form == InitialForm && errors == NoErrors && sent == [] && !isSubmitting
      ensures Valid()
    {
      open := false;
      form := InitialForm;
      errors := NoErrors;
      isSubmitting := false;
      sent := [];
    }

    /** `handleOpenChange`: closing also resets the form and clears the errors. */
    method SetOpen(next: bool)
      modifies this
      ensures open == next
      ensures !next ==> form == InitialForm && errors == NoErrors
      ensures next ==> form == old(form) && errors == old(errors)
      ensures isSubmitting == old(isSubmitting) && sent == old(sent)
      ensures old(Valid()) ==> Valid()
    {
      open := next;
      if !next {
        form := InitialForm;
        errors := NoErrors;
      }
    }

    /** Typing in the message box of the open dialog. */
    method SetMessage(message: string)
      modifies this
      ensures form == old(form).(message := message)
      ensures open == old(open) && errors == old(errors)
      ensures isSubmitting == old(isSubmitting) && sent == old(sent)
      ensures old(Valid()) && open ==> Valid()
    {
      form := form.(message := message);
    }

    method SetFeedbackType(t: FeedbackType)
      modifies this
      ensures form == old(form).(feedbackType := t)
      ensures open == old(open) && errors == old(errors)
      ensures isSubmitting == old(isSubmitting) && sent == old(sent)
      ensures old(Valid()) && open ==> Valid()
    {
      form := form.(feedbackType := t);
    }

    /** `handleSubmit`, with the server's answer given; sending ends in every case. */
    method HandleSubmit(outcome: Outcome)
      modifies this
      ensures DialogState(open, form, errors, sent)
        == Submit(DialogState(old(open), old(form), old(errors), old(sent)), outcome)
      ensures !isSubmitting
    {
      ghost var pre := DialogState(open, form, errors, sent);
      SubmitCases(pre, outcome);
      var trimmed := Trimmed(form);
      if !Passes(form) {
        errors := Validate(trimmed);
        assert DialogState(open, form, errors, sent) == pre.(errors := Validate(Trimmed(pre.form)));
      } else {
        errors := NoErrors;
        var payload := Payload(trimmed.message, trimmed.feedbackType);
        isSubmitting := true;
        sent := sent + [payload];
        assert sent == pre.sent + [Payload(Trimmed(pre.form).message, pre.form.feedbackType)];
        match outcome {
          case Accepted =>
            open := false;
            form := InitialForm;
            errors := NoErrors;
          case Failed(status) =>
            errors := FormErrors(None, Some(FailureError(status)));
            assert DialogState(open, form, errors, sent)
              == DialogState(pre.open, pre.form, FormErrors(None, Some(FailureError(outcome.status))), sent);
        }
      }
      isSubmitting := false;
    }
  }
}
