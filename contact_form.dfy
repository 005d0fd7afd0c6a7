/** The simulated submission of the contact page's form: submit puts the
    button into its sending look and starts a timer; when the timer fires the
    form is hidden and the success message revealed. */
module ContactForm {
  import opened Pages

  const SendingOpacity := "0.7"
  const SendingCursor := "not-allowed"
  const SendingText := "Sending..."
  const HiddenClass := "hidden"

  /** The button's inline styles and text, both class lists, and the number
      of started timers that have not fired yet. */
  datatype FormState = FormState(
    btnOpacity: string,
    btnCursor: string,
    btnText: string,
    formClasses: set<string>,
    successClasses: set<string>,
    pendingTimers: nat)

  /** The `submit` listener. */
  function Submitted(s: FormState): FormState
  {
    s.(btnOpacity := SendingOpacity, btnCursor := SendingCursor, btnText := SendingText,
       pendingTimers := s.pendingTimers + 1)
  }

  /** One timer firing. */
  function TimerFired(s: FormState): FormState
    requires s.pendingTimers > 0
  {
    s.(formClasses := s.formClasses + {HiddenClass},
       successClasses := s.successClasses + {Active},
       pendingTimers := s.pendingTimers - 1)
  }

  predicate Sending(s: FormState)
  {
    s.btnOpacity == SendingOpacity && s.btnCursor == SendingCursor && s.btnText == SendingText
  }

  predicate Succeeded(s: FormState)
  {
    HiddenClass in s.formClasses && Active in s.successClasses
  }

  /** Submit shows the sending look and schedules one timer, but leaves both
      class lists as they were: the form is not hidden yet. */
  lemma SubmitStartsSending(s: FormState)
    ensures Sending(Submitted(s))
    ensures Submitted(s).formClasses == s.formClasses
    ensures Submitted(s).successClasses == s.successClasses
    ensures Submitted(s).pendingTimers == s.pendingTimers + 1
  {
  }

  /** A timer hides the form and reveals the success message. */
  lemma TimerShowsSuccess(s: FormState)
    requires s.pendingTimers > 0
    ensures Succeeded(TimerFired(s))
    ensures TimerFired(s).formClasses == s.formClasses + {HiddenClass}
    ensures TimerFired(s).successClasses == s.successClasses + {Active}
  {
  }

  /** No step leaves the success state: nothing removes either class. */
  lemma SuccessIsFinal(s: FormState)
    requires Succeeded(s)
    ensures Succeeded(Submitted(s))
    ensures s.pendingTimers > 0 ==> Succeeded(TimerFired(s))
  {
  }

  /** Neither step ever restores the idle button: once sending, always
      sending. */
  lemma SendingIsFinal(s: FormState)
    requires Sending(s)
    ensures Sending(Submitted(s))
    ensures s.pendingTimers > 0 ==> Sending(TimerFired(s))
  {
  }

  /** The handler has no guard: a second submit is accepted and starts a
      second timer, whose firing changes nothing more. */
  lemma SecondSubmitNotGuarded(s: FormState)
    ensures var twice := Submitted(Submitted(s));
      twice.pendingTimers == s.pendingTimers + 2 &&
      TimerFired(TimerFired(twice)) == TimerFired(Submitted(s))
  {
  }

  /** The form, its button, the button's text and the success message. */
  class ContactFormPage {
    var btnOpacity: string
    var btnCursor: string
    var btnText: string
    var formClasses: set<string>
    var successClasses: set<string>
    var pendingTimers: nat

    function State(): FormState
      reads this
    {
      FormState(btnOpacity, btnCursor, btnText, formClasses, successClasses, pendingTimers)
    }

    constructor (btnOpacity: string, btnCursor: string, btnText: string,
                 formClasses: set<string>, successClasses: set<string>)
      ensures State() == FormState(btnOpacity, btnCursor, btnText, formClasses, successClasses, 0)
    {
      this.btnOpacity := btnOpacity;
      this.btnCursor := btnCursor;
      this.btnText := btnText;
      this.formClasses := formClasses;
      this.successClasses := successClasses;
      pendingTimers := 0;
    }

    method Submit()
      modifies this
      ensures State() == Submitted(old(State()))
    {
      btnOpacity := SendingOpacity;
      btnCursor := SendingCursor;
      btnText := SendingText;
      pendingTimers := pendingTimers + 1;
    }

    method FireTimer()
      requires pendingTimers > 0
      modifies this
      ensures State() == TimerFired(old(State()))
    {
      formClasses := formClasses + {HiddenClass};
      successClasses := successClasses + {Active};
      pendingTimers := pendingTimers - 1;
    }
  }
}
