/** The contact form: four text fields, two flags and a simulated send made of
    two deferred steps of 2000 ms each. Timers are not modelled as time: every
    delay the form schedules is an entry of `pending`, and the event loop
    delivers it later as a timer event. Both delays are 2000 ms long, so timers
    fire in the order they were scheduled and a FIFO queue is exact. */
module Contact {

  datatype Field = Name | Email | Subject | Message

  datatype FormData = FormData(name: string, email: string, subject: string, message: string)

  /** The two deferred steps of a submission: the simulated API call that
      `handleSubmit` awaits, and the reset scheduled after it. */
  datatype Timer = SendDelay | ResetDelay

  /** The toast a step raises, if any. */
  datatype Notice = NoNotice | MissingFieldsNotice | SentNotice

  datatype ContactState = ContactState(
    form: FormData,
    isSubmitting: bool,
    isSubmitted: bool,
    pending: seq<Timer>)

  function Value(d: FormData, f: Field): string
  {
    match f
    case Name => d.name
    case Email => d.email
    case Subject => d.subject
    case Message => d.message
  }

  const EmptyForm: FormData := FormData("", "", "", "")

  /** The record spread `{...prev, [name]: value}` of `handleInputChange`. */
  function WithField(d: FormData, f: Field, v: string): (r: FormData)
    ensures Value(r, f) == v
    ensures forall g :: g != f ==> Value(r, g) == Value(d, g)
  {
    match f
    case Name => d.(name := v)
    case Email => d.(email := v)
    case Subject => d.(subject := v)
    case Message => d.(message := v)
  }

  /** The guard of `handleSubmit`: a string is falsy exactly when it is empty,
      so only emptiness is rejected and whitespace passes. */
  function AllFilled(d: FormData): (ok: bool)
    ensures ok <==> forall f :: Value(d, f) != ""
  {
    assert Value(d, Name) == d.name && Value(d, Email) == d.email;
    assert Value(d, Subject) == d.subject && Value(d, Message) == d.message;
    d.name != "" && d.email != "" && d.subject != "" && d.message != ""
  }

  /** The state the component mounts with. */
  function Initial(): (s: ContactState)
    ensures forall f :: Value(s.form, f) == ""
    ensures !s.isSubmitting && !s.isSubmitted && s.pending == []
  {
    ContactState(EmptyForm, false, false, [])
  }

  /** `disabled={isSubmitting || isSubmitted}` on the submit button. */
  predicate ButtonDisabled(s: ContactState)
  {
    s.isSubmitting || s.isSubmitted
  }

  /** `handleInputChange` on the input whose name is `f`. */
  function InputChanged(s: ContactState, f: Field, v: string): (t: ContactState)
    ensures Value(t.form, f) == v
    ensures forall g :: g != f ==> Value(t.form, g) == Value(s.form, g)
    ensures t.isSubmitting == s.isSubmitting && t.isSubmitted == s.isSubmitted && t.pending == s.pending
  {
    s.(form := WithField(s.form, f, v))
  }

  /** `handleSubmit` up to its first `await`: an incomplete form raises the
      error notice and changes nothing; otherwise the form enters the
      submitting state and schedules the simulated send. */
  function Submitted(s: ContactState): (r: (ContactState, Notice))
    ensures !AllFilled(s.form) ==> r.0 == s && r.1 == MissingFieldsNotice
    ensures AllFilled(s.form) ==>
      r.0.form == s.form && r.0.isSubmitting && r.0.isSubmitted == s.isSubmitted &&
      r.0.pending == s.pending + [SendDelay] && r.1 == NoNotice
  {
    if !AllFilled(s.form) then (s, MissingFieldsNotice)
    else (s.(isSubmitting := true, pending := s.pending + [SendDelay]), NoNotice)
  }

  /** The oldest pending timer fires: after the send delay the form is
      submitted, shows the confirmation and schedules the reset; after the
      reset delay all four fields are cleared and the submitted flag drops. */
  function Fired(s: ContactState): (r: (ContactState, Notice))
    requires s.pending != []
    ensures s.pending[0] == SendDelay ==>
      r.0.form == s.form && !r.0.isSubmitting && r.0.isSubmitted &&
      r.0.pending == s.pending[1..] + [ResetDelay] && r.1 == SentNotice
    ensures s.pending[0] == ResetDelay ==>
      (forall f :: Value(r.0.form, f) == "") && !r.0.isSubmitted &&
      r.0.isSubmitting == s.isSubmitting && r.0.pending == s.pending[1..] && r.1 == NoNotice
  {
    match s.pending[0]
    case SendDelay =>
      (s.(isSubmitting := false, isSubmitted := true, pending := s.pending[1..] + [ResetDelay]), SentNotice)
    case ResetDelay =>
      (s.(form := EmptyForm, isSubmitted := false, pending := s.pending[1..]), NoNotice)
  }

  /** What the user and the event loop can do to the form. A submit event is
      the form's `onSubmit`: it comes from the submit button or from implicit
      submission, and the HTML standard lets neither happen while that button
      is disabled. A timer event delivers the oldest pending timer; with none
      pending there is nothing to deliver. */
  datatype Event = Input(field: Field, value: string) | Submit | TimerElapsed

  function Step(s: ContactState, e: Event): ContactState
  {
    match e
    case Input(f, v) => InputChanged(s, f, v)
    case Submit => if ButtonDisabled(s) then s else Submitted(s).0
    case TimerElapsed => if s.pending == [] then s else Fired(s).0
  }

  function Run(s: ContactState, evs: seq<Event>): ContactState
    decreases |evs|
  {
    if evs == [] then s else Run(Step(s, evs[0]), evs[1..])
  }

  /** The three phases a mounted form can be in: idle, submitting with the
      send delay pending, submitted with the reset pending. */
  ghost predicate Consistent(s: ContactState)
  {
    (s.pending == [] && !s.isSubmitting && !s.isSubmitted) ||
    (s.pending == [SendDelay] && s.isSubmitting && !s.isSubmitted) ||
    (s.pending == [ResetDelay] && !s.isSubmitting && s.isSubmitted)
  }

  lemma InitialIsConsistent()
    ensures Consistent(Initial())
  {
  }

  lemma StepKeepsConsistent(s: ContactState, e: Event)
    requires Consistent(s)
    ensures Consistent(Step(s, e))
  {
  }

  /** Invariant: whatever the user types and whenever the timers fire, the
      form never is submitting and submitted at once, and the submit button is
      disabled exactly while a send or a reset is pending. */
  lemma {:induction false} RunKeepsConsistent(s: ContactState, evs: seq<Event>)
    requires Consistent(s)
    ensures Consistent(Run(s, evs))
    ensures !(Run(s, evs).isSubmitting && Run(s, evs).isSubmitted)
    ensures ButtonDisabled(Run(s, evs)) <==> Run(s, evs).pending != []
    decreases |evs|
  {
    if evs != [] {
      StepKeepsConsistent(s, evs[0]);
      RunKeepsConsistent(Step(s, evs[0]), evs[1..]);
    }
  }

  predicate OnlyInputs(evs: seq<Event>)
  {
    forall i :: 0 <= i < |evs| ==> evs[i].Input?
  }

  /** Typing changes the fields and nothing else. */
  lemma {:induction false} InputsOnlyTouchFields(s: ContactState, evs: seq<Event>)
    requires OnlyInputs(evs)
    ensures Run(s, evs).isSubmitting == s.isSubmitting
    ensures Run(s, evs).isSubmitted == s.isSubmitted
    ensures Run(s, evs).pending == s.pending
    decreases |evs|
  {
    if evs != [] {
      InputsOnlyTouchFields(Step(s, evs[0]), evs[1..]);
    }
  }

  lemma {:induction false} RunAppend(s: ContactState, a: seq<Event>, b: seq<Event>)
    ensures Run(s, a + b) == Run(Run(s, a), b)
    decreases |a|
  {
    if a == [] {
      assert a + b == b;
    } else {
      assert (a + b)[1..] == a[1..] + b;
      RunAppend(Step(s, a[0]), a[1..], b);
    }
  }

  /** The whole simulated send: from the idle phase with all four fields
      filled, a submit enters submitting, the first timer makes it submitted,
      and the second one returns the form to its initial state, whatever was
      typed in the meantime. */
  lemma SubmitCycle(s: ContactState, typed1: seq<Event>, typed2: seq<Event>)
    requires Consistent(s) && s.pending == []
    requires AllFilled(s.form)
    requires OnlyInputs(typed1) && OnlyInputs(typed2)
    ensures Step(s, Submit).isSubmitting && Step(s, Submit).form == s.form
    ensures Run(s, [Submit] + typed1 + [TimerElapsed]).isSubmitted
    ensures !Run(s, [Submit] + typed1 + [TimerElapsed]).isSubmitting
    ensures Run(s, [Submit] + typed1 + [TimerElapsed] + typed2 + [TimerElapsed]) == Initial()
  {
    var s1 := Step(s, Submit);
    assert Run(s, [Submit]) == s1;
    InputsOnlyTouchFields(s1, typed1);
    var s2 := Run(s1, typed1);
    RunAppend(s, [Submit], typed1);
    RunAppend(s, [Submit] + typed1, [TimerElapsed]);
    var s3 := Step(s2, TimerElapsed);
    assert Run(s2, [TimerElapsed]) == s3;
    InputsOnlyTouchFields(s3, typed2);
    var s4 := Run(s3, typed2);
    RunAppend(s, [Submit] + typed1 + [TimerElapsed], typed2);
    RunAppend(s, [Submit] + typed1 + [TimerElapsed] + typed2, [TimerElapsed]);
    assert Run(s4, [TimerElapsed]) == Step(s4, TimerElapsed);
  }

  /** A submit with a missing field leaves the whole state as it was. */
  lemma RejectedSubmitChangesNothing(s: ContactState)
    requires !AllFilled(s.form)
    ensures Step(s, Submit) == s
  {
  }

  /** Only emptiness is checked: four blanks are accepted. */
  lemma WhitespaceIsAccepted()
    ensures AllFilled(FormData(" ", " ", " ", " "))
  {
  }

  /** The mounted `Contact` component. */
  class ContactForm {
    var formData: FormData
    var isSubmitting: bool
    var isSubmitted: bool
    var pending: seq<Timer>

    function State(): ContactState
      reads this
    {
      ContactState(formData, isSubmitting, isSubmitted, pending)
    }

    constructor ()
      ensures State() == Initial()
    {
      formData := EmptyForm;
      isSubmitting, isSubmitted := false, false;
      pending := [];
    }

    function SubmitDisabled(): (disabled: bool)
      reads this
      ensures disabled <==> isSubmitting || isSubmitted
    {
      ButtonDisabled(State())
    }

    method HandleInputChange(f: Field, v: string)
      modifies this
      ensures State() == InputChanged(old(State()), f, v)
    {
      formData := WithField(formData, f, v);
    }

    /** `handleSubmit` as written: it checks that every field is filled, but
        has no guard against a submission already in flight. */
    method HandleSubmit() returns (notice: Notice)
      modifies this
      ensures (State(), notice) == Submitted(old(State()))
    {
      if formData.name == "" || formData.email == "" || formData.subject == "" || formData.message == "" {
        return MissingFieldsNotice;
      }
      isSubmitting := true;
      pending := pending + [SendDelay];
      notice := NoNotice;
    }

    /** The form's submit event, which reaches `handleSubmit` only while the
        submit button is enabled. */
    method SubmitForm() returns (notice: Notice)
      requires Consistent(State())
      modifies this
      ensures State() == Step(old(State()), Submit) && Consistent(State())
      ensures old(SubmitDisabled()) ==> notice == NoNotice
      ensures !old(SubmitDisabled()) ==> (State(), notice) == Submitted(old(State()))
    {
      if SubmitDisabled() {
        return NoNotice;
      }
      notice := HandleSubmit();
    }

    /** The event loop delivers the oldest pending timer. */
    method TimerFired() returns (notice: Notice)
      requires pending != []
      modifies this
      ensures (State(), notice) == Fired(old(State()))
    {
      var t := pending[0];
      pending := pending[1..];
      match t
      case SendDelay =>
        isSubmitting := false;
        isSubmitted := true;
        notice := SentNotice;
        pending := pending + [ResetDelay];
      case ResetDelay =>
        formData := EmptyForm;
        isSubmitted := false;
        notice := NoNotice;
    }
  }
}
