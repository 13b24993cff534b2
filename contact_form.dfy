/** The contact page's enquiry form: five text fields, a submission that is
    simulated by two timers (a loading spinner, then a success panel that
    clears the form when it goes away), and a pair of tabs that switch between
    the form and the office map.

    `ContactState` is one snapshot of the component's state; the functions
    after it give each event's effect on a snapshot, and `ContactSection`
    holds the same state in fields and performs the events in place. */
module ContactForm {

  datatype Fields = Fields(name: string, email: string, phone: string, subject: string, message: string)

  /** The inputs of the form, by their `name` attribute. */
  datatype Field = Name | Email | Phone | Subject | Message

  const EmptyFields := Fields("", "", "", "", "")

  function Get(f: Fields, k: Field): string {
    match k
    case Name => f.name
    case Email => f.email
    case Phone => f.phone
    case Subject => f.subject
    case Message => f.message
  }

  /** `handleChange`: `{ ...prev, [name]: value }`. */
  function WithField(f: Fields, k: Field, v: string): (g: Fields)
    ensures Get(g, k) == v
    ensures forall j :: j != k ==> Get(g, j) == Get(f, j)
  {
    match k
    case Name => f.(name := v)
    case Email => f.(email := v)
    case Phone => f.(phone := v)
    case Subject => f.(subject := v)
    case Message => f.(message := v)
  }

  datatype Tab = FormTab | MapTab

  datatype ContactState = ContactState(
    formData: Fields, isSubmitted: bool, isLoading: bool, activeTab: Tab)

  const Initial := ContactState(EmptyFields, false, false, FormTab)

  /** The form itself is rendered on the form tab until a submission
      succeeds; the success panel takes its place while `isSubmitted` holds. */
  predicate FormShown(s: ContactState) {
    s.activeTab == FormTab && !s.isSubmitted
  }

  predicate SuccessShown(s: ContactState) {
    s.activeTab == FormTab && s.isSubmitted
  }

  /** The three things the tab body can render. */
  datatype Panel = FormPanel | SuccessPanel | MapPanel

  /** The submit button exists only with the form and is disabled while
      loading. */
  predicate SubmitEnabled(s: ContactState) {
    FormShown(s) && !s.isLoading
  }

  /** Every input carries `required`: the browser refuses to submit while any
      of them is empty (the format check of the e-mail input is not modelled). */
  predicate AllFilled(f: Fields) {
    forall k :: Get(f, k) != ""
  }

  /** A submit that reaches `handleSubmit`. */
  predicate SubmitAccepted(s: ContactState) {
    SubmitEnabled(s) && AllFilled(s.formData)
  }

  /** At most one simulated submission is ever in flight. */
  predicate Inv(s: ContactState) {
    !(s.isLoading && s.isSubmitted)
  }

  datatype Phase = Idle | Loading | Submitted

  function PhaseOf(s: ContactState): Phase
    requires Inv(s)
  {
    if s.isLoading then Loading else if s.isSubmitted then Submitted else Idle
  }

  /** The order the submission moves through. */
  function NextPhase(p: Phase): Phase {
    match p
    case Idle => Loading
    case Loading => Submitted
    case Submitted => Idle
  }

  function OnChange(s: ContactState, k: Field, v: string): ContactState {
    s.(formData := WithField(s.formData, k, v))
  }

  /** `handleSubmit`: the spinner starts and the first timer is set. */
  function OnSubmit(s: ContactState): ContactState {
    s.(isLoading := true)
  }

  /** The first timer: loading ends and the success panel replaces the form. */
  function OnLoadingDone(s: ContactState): ContactState {
    s.(isLoading := false, isSubmitted := true)
  }

  /** The second timer: the panel goes away and every field is emptied. */
  function OnSuccessDone(s: ContactState): ContactState {
    s.(isSubmitted := false, formData := EmptyFields)
  }

  function OnTab(s: ContactState, t: Tab): ContactState {
    s.(activeTab := t)
  }

  datatype ContactEvent =
    | Change(field: Field, value: string)
    | Submit
    | LoadingTimer
    | SuccessTimer
    | SelectTab(tab: Tab)

  /** Whether an event can happen: a submit needs the enabled button and
      every field filled in, and
      each timer fires only while it is pending (the first while loading, the
      second while the success panel is up). */
  predicate Enabled(s: ContactState, e: ContactEvent) {
    match e
    case Submit => SubmitAccepted(s)
    case LoadingTimer => s.isLoading
    case SuccessTimer => s.isSubmitted
    case _ => true
  }

  function Step(s: ContactState, e: ContactEvent): ContactState
    requires Enabled(s, e)
  {
    match e
    case Change(k, v) => OnChange(s, k, v)
    case Submit => OnSubmit(s)
    case LoadingTimer => OnLoadingDone(s)
    case SuccessTimer => OnSuccessDone(s)
    case SelectTab(t) => OnTab(s, t)
  }

  /** A run of visitor actions and timer callbacks; an action that cannot
      happen in the current state (a click on the disabled button, a timer
      that is not pending) has no effect. */
  function Run(s: ContactState, events: seq<ContactEvent>): ContactState
    decreases |events|
  {
    if events == [] then s
    else Run(if Enabled(s, events[0]) then Step(s, events[0]) else s, events[1..])
  }

  /** Every enabled event keeps the invariant and either leaves the phase as
      it is or moves it one place along Idle, Loading, Submitted, Idle. */
  lemma StepPhase(s: ContactState, e: ContactEvent)
    requires Inv(s) && Enabled(s, e)
    ensures Inv(Step(s, e))
    ensures PhaseOf(Step(s, e)) == PhaseOf(s) || PhaseOf(Step(s, e)) == NextPhase(PhaseOf(s))
    ensures e.Submit? || e.LoadingTimer? || e.SuccessTimer? <==>
      PhaseOf(Step(s, e)) == NextPhase(PhaseOf(s))
  {
  }

  /** Loading and success are never both on, after any run of events. */
  lemma {:induction false} RunKeepsInv(s: ContactState, events: seq<ContactEvent>)
    requires Inv(s)
    ensures Inv(Run(s, events))
    decreases |events|
  {
    if events != [] {
      var s' := if Enabled(s, events[0]) then Step(s, events[0]) else s;
      if Enabled(s, events[0]) {
        StepPhase(s, events[0]);
      }
      RunKeepsInv(s', events[1..]);
    }
  }

  lemma InitialShowsForm()
    ensures Inv(Initial) && PhaseOf(Initial) == Idle
    ensures FormShown(Initial) && SubmitEnabled(Initial)
  {
  }

  /** A whole submission from the form: submit, the first timer, the second
      timer. The spinner blocks another submit, the panel replaces the form,
      and the end state is idle with every field empty, on the same tab. */
  lemma SubmissionCycle(s: ContactState)
    requires Inv(s) && SubmitAccepted(s)
    ensures var a := OnSubmit(s);
      && a.isLoading && !SubmitEnabled(a) && a.formData == s.formData
      && var b := OnLoadingDone(a);
      && !b.isLoading && b.isSubmitted && SuccessShown(b) && !FormShown(b)
      && var c := OnSuccessDone(b);
      && !c.isLoading && !c.isSubmitted && c.formData == EmptyFields
      && c.activeTab == s.activeTab && FormShown(c) && !SubmitAccepted(c)
    ensures Run(s, [Submit, LoadingTimer, SuccessTimer]) ==
      ContactState(EmptyFields, false, false, s.activeTab)
  {
    assert Get(EmptyFields, Name) == "";
    assert Run(s, [Submit, LoadingTimer, SuccessTimer])
      == Run(OnSubmit(s), [LoadingTimer, SuccessTimer]) by {
      assert [Submit, LoadingTimer, SuccessTimer][1..] == [LoadingTimer, SuccessTimer];
    }
    assert Run(OnSubmit(s), [LoadingTimer, SuccessTimer])
      == Run(OnLoadingDone(OnSubmit(s)), [SuccessTimer]) by {
      assert [LoadingTimer, SuccessTimer][1..] == [SuccessTimer];
    }
  }

  /** Once a submission has been made, the next one needs every field filled
      in again: in any run of events after the reset, a submit gets through
      only if a `Change` to each field precedes it. */
  lemma {:induction false} RefillBeforeResubmit(s: ContactState, events: seq<ContactEvent>, k: Field)
    requires Get(s.formData, k) == ""
    requires forall i :: 0 <= i < |events| ==> !(events[i].Change? && events[i].field == k)
    ensures Get(Run(s, events).formData, k) == ""
    ensures forall i :: 0 <= i < |events| ==> !SubmitAccepted(Run(s, events[..i]))
    decreases |events|
  {
    if events != [] {
      var s' := if Enabled(s, events[0]) then Step(s, events[0]) else s;
      assert Get(s'.formData, k) == "" by {
        if events[0].Change? {
          assert events[0].field != k by { assert !(events[0].Change? && events[0].field == k); }
        }
      }
      assert forall i :: 0 <= i < |events[1..]| ==>
          !(events[1..][i].Change? && events[1..][i].field == k) by {
        forall i | 0 <= i < |events[1..]|
          ensures !(events[1..][i].Change? && events[1..][i].field == k)
        {
          assert events[1..][i] == events[i + 1];
        }
      }
      RefillBeforeResubmit(s', events[1..], k);
      forall i | 0 <= i < |events|
        ensures !SubmitAccepted(Run(s, events[..i]))
      {
        if i == 0 {
          assert events[..0] == [];
          assert !AllFilled(s.formData);
        } else {
          assert events[..i][0] == events[0];
          assert events[..i][1..] == events[1..][..i - 1];
        }
      }
    }
  }

  /** Switching tabs changes only the tab; leaving the form tab hides both
      the form and the success panel, and coming back restores what was
      shown. */
  lemma TabSwitch(s: ContactState, t: Tab)
    ensures OnTab(s, t).formData == s.formData
    ensures OnTab(s, t).isLoading == s.isLoading && OnTab(s, t).isSubmitted == s.isSubmitted
    ensures t == MapTab ==> !FormShown(OnTab(s, t)) && !SuccessShown(OnTab(s, t))
    ensures t == FormTab ==> (FormShown(OnTab(s, t)) <==> !s.isSubmitted)
    ensures OnTab(OnTab(s, t), s.activeTab) == s
  {
  }

  /** The contact section in place: each field is one piece of the
      component's state, each method one handler or timer callback. */
  class ContactSection {
    var formData: Fields
    var isSubmitted: bool
    var isLoading: bool
    var activeTab: Tab

    function State(): ContactState
      reads this
    {
      ContactState(formData, isSubmitted, isLoading, activeTab)
    }

    ghost predicate Valid()
      reads this
    {
      Inv(State())
    }

    constructor ()
      ensures Valid() && State() == Initial
    {
      formData := EmptyFields;
      isSubmitted, isLoading := false, false;
      activeTab := FormTab;
    }

    method HandleChange(k: Field, v: string)
      requires Valid()
      modifies this
      ensures Valid() && State() == OnChange(old(State()), k, v)
    {
      formData := WithField(formData, k, v);
    }

    /** The form's submit, reachable only through the enabled button and
        with every field filled in. */
    method HandleSubmit()
      requires Valid() && SubmitAccepted(State())
      modifies this
      ensures Valid() && State() == OnSubmit(old(State()))
    {
      isLoading := true;
    }

    /** The first timer, pending while loading. */
    method LoadingTimerFires()
      requires Valid() && isLoading
      modifies this
      ensures Valid() && State() == OnLoadingDone(old(State()))
    {
      isLoading := false;
      isSubmitted := true;
    }

    /** The second timer, pending while the success panel is up. */
    method SuccessTimerFires()
      requires Valid() && isSubmitted
      modifies this
      ensures Valid() && State() == OnSuccessDone(old(State()))
    {
      isSubmitted := false;
      formData := EmptyFields;
    }

    method SetActiveTab(t: Tab)
      requires Valid()
      modifies this
      ensures Valid() && State() == OnTab(old(State()), t)
    {
      activeTab := t;
    }

    /** What the tab body renders: on the form tab the success panel once a
        submission has succeeded and the form before that, otherwise the
        office map. */
    method TabBody() returns (p: Panel)
      ensures p == FormPanel <==> FormShown(State())
      ensures p == SuccessPanel <==> SuccessShown(State())
      ensures p == MapPanel <==> activeTab == MapTab
    {
      if activeTab == FormTab {
        if isSubmitted {
          p := SuccessPanel;
        } else {
          p := FormPanel;
        }
      } else {
        p := MapPanel;
      }
    }
  }
}
