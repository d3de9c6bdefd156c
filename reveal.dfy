/**
 * Reveal on scroll (`setupIntersectionObserver`): every project card, skill
 * item and top-level section block is observed; the observer's callback
 * gives each intersecting entry's target the `fade-in-up` class and stops
 * observing it. Elements are numbered; whether an entry intersects (the
 * browser's 10% threshold and -50 px bottom margin) is an input flag.
 */
module Reveal {

  /** One IntersectionObserver entry. */
  datatype Entry = Entry(target: nat, isIntersecting: bool)

  /** The targets of the intersecting entries of a batch. */
  function Hits(entries: seq<Entry>): (r: set<nat>)
    ensures forall t :: t in r <==> exists i :: 0 <= i < |entries| && entries[i] == Entry(t, true)
    decreases |entries|
  {
    if entries == [] then {}
    else
      var last := entries[|entries| - 1];
      var init := entries[..|entries| - 1];
      assert forall i :: 0 <= i < |init| ==> init[i] == entries[i];
      Hits(init) + (if last.isIntersecting then {last.target} else {})
  }

  /** The elements still observed and those carrying `fade-in-up`. */
  datatype ObserverState = ObserverState(observed: set<nat>, revealed: set<nat>)

  /** One run of the observer callback over a batch. */
  function Callback(s: ObserverState, entries: seq<Entry>): (r: ObserverState)
    ensures r.revealed == s.revealed + Hits(entries)
    ensures r.observed == s.observed - Hits(entries)
  {
    ObserverState(s.observed - Hits(entries), s.revealed + Hits(entries))
  }

  /** Every element is either still observed or already revealed, never both. */
  predicate Valid(s: ObserverState, elements: set<nat>) {
    s.observed !! s.revealed && s.observed + s.revealed == elements
  }

  /** The browser reports entries only for targets that are still observed. */
  predicate Delivered(s: ObserverState, entries: seq<Entry>) {
    forall i :: 0 <= i < |entries| ==> entries[i].target in s.observed
  }

  /**
   * A delivered batch keeps the partition, reveals nothing that was revealed
   * before, never un-reveals, and leaves every element it does not hit as it
   * was.
   */
  lemma CallbackStep(s: ObserverState, entries: seq<Entry>, elements: set<nat>)
    requires Valid(s, elements) && Delivered(s, entries)
    ensures Valid(Callback(s, entries), elements)
    ensures s.revealed <= Callback(s, entries).revealed
    ensures Hits(entries) !! s.revealed
    ensures forall t :: t in elements && t !in Hits(entries) ==>
      (t in Callback(s, entries).observed <==> t in s.observed)
  {
    forall t | t in Hits(entries) ensures t in s.observed {
      var i :| 0 <= i < |entries| && entries[i] == Entry(t, true);
    }
  }

  /** A run of batches, each delivered for the targets observed at its time. */
  predicate AllDelivered(s: ObserverState, batches: seq<seq<Entry>>)
    decreases |batches|
  {
    batches == [] || (Delivered(s, batches[0]) && AllDelivered(Callback(s, batches[0]), batches[1..]))
  }

  function RunBatches(s: ObserverState, batches: seq<seq<Entry>>): ObserverState
    decreases |batches|
  {
    if batches == [] then s else RunBatches(Callback(s, batches[0]), batches[1..])
  }

  /**
   * Over any run of delivered batches the partition holds, the revealed set
   * only grows, and a revealed element is never observed again, so no later
   * entry can reveal it a second time.
   */
  lemma {:induction false} RevealIsMonotone(s: ObserverState, batches: seq<seq<Entry>>, elements: set<nat>)
    requires Valid(s, elements) && AllDelivered(s, batches)
    ensures Valid(RunBatches(s, batches), elements)
    ensures s.revealed <= RunBatches(s, batches).revealed
    decreases |batches|
  {
    if batches != [] {
      CallbackStep(s, batches[0], elements);
      RevealIsMonotone(Callback(s, batches[0]), batches[1..], elements);
    }
  }

  /** The revealed set only grows, over any run of batches whatever they report. */
  lemma {:induction false} RevealedOnlyGrows(s: ObserverState, batches: seq<seq<Entry>>)
    ensures s.revealed <= RunBatches(s, batches).revealed
    decreases |batches|
  {
    if batches != [] {
      RevealedOnlyGrows(Callback(s, batches[0]), batches[1..]);
    }
  }

  class Observer {
    ghost const elements: set<nat>
    var observed: set<nat>
    var revealed: set<nat>

    function State(): ObserverState
      reads this
    {
      ObserverState(observed, revealed)
    }

    /** `observer.observe(el)` for every animated element. */
    constructor (elements: set<nat>)
      ensures State() == ObserverState(elements, {}) && Valid(State(), this.elements)
      ensures this.elements == elements
    {
      this.elements := elements;
      observed := elements;
      revealed := {};
    }

    /** The observer callback: reveal and unobserve each intersecting entry's target. */
    method OnIntersection(entries: seq<Entry>)
      requires Valid(State(), elements) && Delivered(State(), entries)
      modifies this
      ensures State() == Callback(old(State()), entries)
      ensures Valid(State(), elements)
    {
      CallbackStep(State(), entries, elements);
      var i := 0;
      while i < |entries|
        invariant 0 <= i <= |entries|
        invariant revealed == old(revealed) + Hits(entries[..i])
        invariant observed == old(observed) - Hits(entries[..i])
      {
        var entry := entries[i];
        assert entries[..i + 1][..i] == entries[..i];
        if entry.isIntersecting {
          revealed := revealed + {entry.target};
          observed := observed - {entry.target};
        }
        i := i + 1;
      }
      assert entries[..i] == entries;
    }
  }
}
