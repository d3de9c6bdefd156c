/**
 * The contact-form confirmation modal (`setupContactForm`, `showModal`,
 * `hideModal`).
 *
 * The state is four class flags, `hidden`/`flex` on the overlay and
 * `scale-95`/`scale-100` on its content, plus the timers still pending.
 * Showing removes `hidden`, adds `flex` and schedules a 10 ms timer that
 * swaps the content to `scale-100`; hiding swaps the content to `scale-95`
 * at once and schedules a 300 ms timer that adds `hidden` and removes
 * `flex`. A firing of each timer is an explicit event; a timer is never
 * cancelled.
 */
module ContactModal {

  /** The class flags and the number of scheduled, not yet fired, timers of each kind. */
  datatype ContactView = ContactView(
    hidden: bool, flex: bool, scale95: bool, scale100: bool,
    expandTimers: nat, hideTimers: nat)

  /** The events the modal reacts to, including its own timers firing. */
  datatype ContactEvent =
    | Submit                          // the form's submit event
    | CloseButton                     // a click on #close-modal
    | ModalClick(targetIsOverlay: bool)
    | KeyDown(key: string)
    | ExpandTimer                     // the 10 ms timer of showModal fires
    | HideTimer                       // the 300 ms timer of hideModal fires

  /** Each element carries exactly one of its two classes. */
  predicate Consistent(v: ContactView) {
    v.hidden != v.flex && v.scale95 != v.scale100
  }

  predicate Settled(v: ContactView) {
    v.expandTimers == 0 && v.hideTimers == 0
  }

  /** Fully shown: displayed and at full scale. */
  predicate IsOpen(v: ContactView) {
    !v.hidden && v.flex && v.scale100 && !v.scale95
  }

  /** Fully hidden: out of the layout and at reduced scale. */
  predicate IsClosed(v: ContactView) {
    v.hidden && !v.flex && v.scale95 && !v.scale100
  }

  /** `showModal` before its timer fires. */
  function Opening(v: ContactView): (r: ContactView)
    ensures !r.hidden && r.flex && r.expandTimers == v.expandTimers + 1
    ensures r.scale95 == v.scale95 && r.scale100 == v.scale100 && r.hideTimers == v.hideTimers
  {
    v.(hidden := false, flex := true, expandTimers := v.expandTimers + 1)
  }

  /** `hideModal` before its timer fires. */
  function Closing(v: ContactView): (r: ContactView)
    ensures r.scale95 && !r.scale100 && r.hideTimers == v.hideTimers + 1
    ensures r.hidden == v.hidden && r.flex == v.flex && r.expandTimers == v.expandTimers
  {
    v.(scale100 := false, scale95 := true, hideTimers := v.hideTimers + 1)
  }

  /**
   * One event. Escape hides only a modal without `hidden`; a click hides only
   * when it lands on the overlay itself; a timer event with no such timer
   * scheduled does nothing.
   */
  function Apply(v: ContactView, e: ContactEvent): (r: ContactView)
    ensures Consistent(v) ==> Consistent(r)
    ensures e.KeyDown? && (e.key != "Escape" || v.hidden) ==> r == v
    ensures e.ModalClick? && !e.targetIsOverlay ==> r == v
  {
    match e
    case Submit => Opening(v)
    case CloseButton => Closing(v)
    case ModalClick(onOverlay) => if onOverlay then Closing(v) else v
    case KeyDown(key) => if key == "Escape" && !v.hidden then Closing(v) else v
    case ExpandTimer =>
      if v.expandTimers == 0 then v
      else v.(scale95 := false, scale100 := true, expandTimers := v.expandTimers - 1)
    case HideTimer =>
      if v.hideTimers == 0 then v
      else v.(hidden := true, flex := false, hideTimers := v.hideTimers - 1)
  }

  function RunEvents(v: ContactView, events: seq<ContactEvent>): ContactView
    decreases |events|
  {
    if events == [] then v else RunEvents(Apply(v, events[0]), events[1..])
  }

  /** From consistent class lists, no sequence of events makes an element carry both or neither of its classes. */
  lemma {:induction false} RunKeepsConsistent(v: ContactView, events: seq<ContactEvent>)
    requires Consistent(v)
    ensures Consistent(RunEvents(v, events))
    decreases |events|
  {
    if events != [] {
      RunKeepsConsistent(Apply(v, events[0]), events[1..]);
    }
  }

  /** Submitting and letting the expand timer fire opens the modal fully, whatever it looked like. */
  lemma OpenSettles(v: ContactView)
    requires Settled(v)
    ensures var r := RunEvents(v, [Submit, ExpandTimer]);
      IsOpen(r) && Settled(r)
  {
    assert [Submit, ExpandTimer][1..] == [ExpandTimer];
  }

  /** Closing and letting the hide timer fire closes the modal fully, whatever it looked like. */
  lemma CloseSettles(v: ContactView, e: ContactEvent)
    requires Settled(v)
    requires e == CloseButton || e == ModalClick(true) || (e == KeyDown("Escape") && !v.hidden)
    ensures var r := RunEvents(v, [e, HideTimer]);
      IsClosed(r) && Settled(r)
  {
    var m := Apply(v, e);
    assert m.hideTimers == 1 && m.expandTimers == 0 && m.scale95 && !m.scale100;
    assert [e, HideTimer][1..] == [HideTimer] && [HideTimer][1..] == [];
    assert RunEvents(v, [e, HideTimer]) == RunEvents(m, [HideTimer]);
  }

  /** With the timers settled in between, open then close then open ends open: the last action wins. */
  lemma {:induction false} OpenCloseOpenSettled(v: ContactView)
    requires Settled(v)
    ensures var r := RunEvents(v, [Submit, ExpandTimer, CloseButton, HideTimer, Submit, ExpandTimer]);
      IsOpen(r) && Settled(r)
  {
    var a := RunEvents(v, [Submit, ExpandTimer]);
    OpenSettles(v);
    var b := RunEvents(a, [CloseButton, HideTimer]);
    CloseSettles(a, CloseButton);
    OpenSettles(b);
    RunEventsAppend(v, [Submit, ExpandTimer], [CloseButton, HideTimer]);
    RunEventsAppend(v, [Submit, ExpandTimer] + [CloseButton, HideTimer], [Submit, ExpandTimer]);
    assert [Submit, ExpandTimer] + [CloseButton, HideTimer] + [Submit, ExpandTimer] ==
      [Submit, ExpandTimer, CloseButton, HideTimer, Submit, ExpandTimer];
  }

  lemma {:induction false} RunEventsAppend(v: ContactView, xs: seq<ContactEvent>, ys: seq<ContactEvent>)
    ensures RunEvents(v, xs + ys) == RunEvents(RunEvents(v, xs), ys)
    decreases |xs|
  {
    if xs != [] {
      assert (xs + ys)[0] == xs[0] && (xs + ys)[1..] == xs[1..] + ys;
      assert RunEvents(v, xs + ys) == RunEvents(Apply(v, xs[0]), xs[1..] + ys);
      RunEventsAppend(Apply(v, xs[0]), xs[1..], ys);
    } else {
      assert xs + ys == ys;
    }
  }

  /**
   * No timer is cancelled: submitting again before the 300 ms hide timer of
   * a close has fired lets that timer hide the modal just reopened, and it
   * stays hidden although the last action was to open it. This holds from
   * every settled state and whichever of the two pending timers fires first.
   */
  lemma ReopenWithinHideDelayIsUndone(v: ContactView, hideFirst: bool)
    requires Settled(v)
    ensures var timers := if hideFirst then [HideTimer, ExpandTimer] else [ExpandTimer, HideTimer];
      var r := RunEvents(v, [CloseButton, Submit] + timers);
      r.hidden && !r.flex && r.scale100 && !r.scale95 && Settled(r)
  {
    var timers := if hideFirst then [HideTimer, ExpandTimer] else [ExpandTimer, HideTimer];
    var closing := Apply(v, CloseButton);
    var reopened := Apply(closing, Submit);
    var once := Apply(reopened, timers[0]);
    RunEventsCons(v, CloseButton, [Submit] + timers);
    RunEventsCons(closing, Submit, timers);
    RunEventsCons(reopened, timers[0], [timers[1]]);
    RunEventsCons(once, timers[1], []);
    assert [CloseButton] + ([Submit] + timers) == [CloseButton, Submit] + timers;
    assert [timers[0]] + [timers[1]] == timers;
  }

  /** Running a leading event first. */
  lemma RunEventsCons(v: ContactView, e: ContactEvent, events: seq<ContactEvent>)
    ensures RunEvents(v, [e] + events) == RunEvents(Apply(v, e), events)
  {
    assert ([e] + events)[1..] == events;
  }

  /** The modal's class lists and pending timers, with the page's listeners on it. */
  class Modal {
    var hidden: bool
    var flex: bool
    var scale95: bool
    var scale100: bool
    var expandTimers: nat
    var hideTimers: nat

    function State(): ContactView
      reads this
    {
      ContactView(hidden, flex, scale95, scale100, expandTimers, hideTimers)
    }

    /** The modal as the markup declares it, no timer pending. */
    constructor (hidden: bool, flex: bool, scale95: bool, scale100: bool)
      ensures State() == ContactView(hidden, flex, scale95, scale100, 0, 0)
    {
      this.hidden, this.flex := hidden, flex;
      this.scale95, this.scale100 := scale95, scale100;
      expandTimers, hideTimers := 0, 0;
    }

    method ShowModal()
      modifies this
      ensures State() == Opening(old(State()))
    {
      hidden := false;
      flex := true;
      expandTimers := expandTimers + 1;
    }

    method HideModal()
      modifies this
      ensures State() == Closing(old(State()))
    {
      scale100 := false;
      scale95 := true;
      hideTimers := hideTimers + 1;
    }

    /** The form's submit handler: the default submission is suppressed and nothing is sent. */
    method OnSubmit()
      modifies this
      ensures State() == Apply(old(State()), Submit)
    {
      ShowModal();
    }

    method OnCloseButton()
      modifies this
      ensures State() == Apply(old(State()), CloseButton)
    {
      HideModal();
    }

    method OnModalClick(targetIsOverlay: bool)
      modifies this
      ensures State() == Apply(old(State()), ModalClick(targetIsOverlay))
    {
      if targetIsOverlay {
        HideModal();
      }
    }

    method OnKeyDown(key: string)
      modifies this
      ensures State() == Apply(old(State()), KeyDown(key))
    {
      if key == "Escape" && !hidden {
        HideModal();
      }
    }

    /** One of the pending 10 ms timers fires. */
    method OnExpandTimer()
      modifies this
      ensures State() == Apply(old(State()), ExpandTimer)
    {
      if expandTimers > 0 {
        scale95 := false;
        scale100 := true;
        expandTimers := expandTimers - 1;
      }
    }

    /** One of the pending 300 ms timers fires. */
    method OnHideTimer()
      modifies this
      ensures State() == Apply(old(State()), HideTimer)
    {
      if hideTimers > 0 {
        hidden := true;
        flex := false;
        hideTimers := hideTimers - 1;
      }
    }
  }
}
