/**
 * The hero-banner typing animation (`setupTypingAnimation` / `typeEffect`).
 *
 * Each tick either types one more character of the current phrase or erases
 * one, writes the resulting prefix to the banner, and chooses the delay
 * before the next tick. On reaching the full phrase it turns round to delete
 * after a long pause; on reaching the empty prefix it turns round to type the
 * next phrase of the cyclic list after a shorter pause.
 *
 * `Step` is one tick as a function of the state; `TypingAnimator` is the
 * closure state of the page script with `TypeEffect` proved to be `Step`.
 * The timer that re-runs `typeEffect` is not modelled: each firing is one
 * call of `TypeEffect`, and `Run`/`Trace` give the result of any number of
 * them.
 */
module Typing {
  import opened JsString

  /** The phrases the banner cycles through, in order. */
  const Phrases: seq<string> :=
    ["Full Stack Developer", "UI/UX Designer", "Problem Solver", "Adaptive"]

  /** Delays before the next tick, in milliseconds. */
  const TypingDelay: nat := 100
  const DeletingDelay: nat := 50
  const FullPhrasePause: nat := 2000
  const EmptyPhrasePause: nat := 500

  /** The closure variables that survive a tick (the delay is overwritten by every tick). */
  datatype TypingState = TypingState(phraseIndex: nat, charIndex: int, isDeleting: bool)

  /** What one tick leaves: the new state, the banner text and the delay to the next tick. */
  datatype Tick = Tick(next: TypingState, text: string, delay: nat)

  /** The state the script starts from. */
  const Start: TypingState := TypingState(0, 0, false)

  predicate NonEmptyPhrases(phrases: seq<string>) {
    |phrases| > 0 && forall i :: 0 <= i < |phrases| ==> |phrases[i]| > 0
  }

  /**
   * The animator invariant: the index names a phrase, the character count
   * lies within it, a deleting animator has something left to delete and a
   * typing one has something left to type.
   */
  predicate Inv(phrases: seq<string>, s: TypingState) {
    && s.phraseIndex < |phrases|
    && 0 <= s.charIndex <= |phrases[s.phraseIndex]|
    && (s.isDeleting ==> s.charIndex >= 1)
    && (!s.isDeleting ==> s.charIndex < |phrases[s.phraseIndex]|)
  }

  lemma PhrasesNonEmpty()
    ensures NonEmptyPhrases(Phrases) && |Phrases| == 4
  {
  }

  /**
   * One run of `typeEffect`. From a state satisfying the invariant, the new
   * character count is one more (typing) or one less (deleting), the text
   * shown is exactly the prefix of the tick's phrase of that length, the
   * direction flips exactly when the count reaches 0 or the full length,
   * the phrase advances cyclically exactly when a deletion reaches 0, the
   * delay is 100/50 ms or the 2000/500 ms pauses at the two ends, and the
   * invariant holds again.
   */
  function Step(phrases: seq<string>, s: TypingState): (r: Tick)
    requires s.phraseIndex < |phrases|
    ensures r.next.phraseIndex < |phrases|
    ensures NonEmptyPhrases(phrases) && Inv(phrases, s) ==>
      var p := phrases[s.phraseIndex];
      var c := r.next.charIndex;
      && Inv(phrases, r.next)
      && 0 <= c <= |p|
      && c == (if s.isDeleting then s.charIndex - 1 else s.charIndex + 1)
      && r.text == p[..c]
      && (r.next.isDeleting != s.isDeleting <==> c == 0 || c == |p|)
      && r.next.phraseIndex == (if c == 0 then (s.phraseIndex + 1) % |phrases| else s.phraseIndex)
      && r.delay == (if c == |p| then FullPhrasePause
                     else if c == 0 then EmptyPhrasePause
                     else if s.isDeleting then DeletingDelay
                     else TypingDelay)
  {
    var phrase := phrases[s.phraseIndex];
    var text := if s.isDeleting then Prefix(phrase, s.charIndex - 1) else Prefix(phrase, s.charIndex + 1);
    var charIndex := if s.isDeleting then s.charIndex - 1 else s.charIndex + 1;
    var speed := if s.isDeleting then DeletingDelay else TypingDelay;
    if !s.isDeleting && charIndex == |phrase| then
      Tick(TypingState(s.phraseIndex, charIndex, true), text, FullPhrasePause)
    else if s.isDeleting && charIndex == 0 then
      Tick(TypingState((s.phraseIndex + 1) % |phrases|, charIndex, false), text, EmptyPhrasePause)
    else
      Tick(TypingState(s.phraseIndex, charIndex, s.isDeleting), text, speed)
  }

  /** The state after `n` ticks. */
  function Run(phrases: seq<string>, s: TypingState, n: nat): (r: TypingState)
    requires s.phraseIndex < |phrases|
    ensures r.phraseIndex < |phrases|
    decreases n
  {
    if n == 0 then s else Run(phrases, Step(phrases, s).next, n - 1)
  }

  /** The `n` ticks taken from `s`, in order. */
  function Trace(phrases: seq<string>, s: TypingState, n: nat): (r: seq<Tick>)
    requires s.phraseIndex < |phrases|
    ensures |r| == n
    decreases n
  {
    if n == 0 then [] else [Step(phrases, s)] + Trace(phrases, Step(phrases, s).next, n - 1)
  }

  /** The invariant holds after any number of ticks. */
  lemma {:induction false} RunKeepsInv(phrases: seq<string>, s: TypingState, n: nat)
    requires NonEmptyPhrases(phrases) && Inv(phrases, s)
    ensures Inv(phrases, Run(phrases, s, n))
    decreases n
  {
    if n > 0 {
      RunKeepsInv(phrases, Step(phrases, s).next, n - 1);
    }
  }

  /**
   * The page's animator, for any number of ticks from its start: the phrase
   * index is one of the four, the character count stays within the current
   * phrase, and a deleting (typing) animator has a character left to delete
   * (to type).
   */
  lemma {:induction false} PageAnimatorBounds(n: nat)
    ensures var s := Run(Phrases, Start, n);
      && 0 <= s.phraseIndex < 4
      && 0 <= s.charIndex <= |Phrases[s.phraseIndex]|
      && (s.isDeleting ==> s.charIndex >= 1)
      && (!s.isDeleting ==> s.charIndex < |Phrases[s.phraseIndex]|)
  {
    PhrasesNonEmpty();
    RunKeepsInv(Phrases, Start, n);
  }

  /** Taking `a` ticks and then `b` more is taking `a + b` ticks. */
  lemma {:induction false} RunAppend(phrases: seq<string>, s: TypingState, a: nat, b: nat)
    requires s.phraseIndex < |phrases|
    ensures Run(phrases, s, a + b) == Run(phrases, Run(phrases, s, a), b)
    ensures Trace(phrases, s, a + b) == Trace(phrases, s, a) + Trace(phrases, Run(phrases, s, a), b)
    decreases a
  {
    if a > 0 {
      var t := Step(phrases, s);
      RunAppend(phrases, t.next, a - 1, b);
      assert a + b - 1 == (a - 1) + b;
      assert Trace(phrases, s, a + b) == [t] + Trace(phrases, t.next, (a - 1) + b);
    }
  }

  /**
   * Typing from count `k` reaches the full phrase after `|p| - k` ticks,
   * showing the prefixes of length k+1 .. |p| at 100 ms each except the
   * last, which pauses 2000 ms, and turns round there.
   */
  lemma {:induction false} TypingPhase(phrases: seq<string>, s: TypingState)
    requires NonEmptyPhrases(phrases) && Inv(phrases, s) && !s.isDeleting
    ensures var p := phrases[s.phraseIndex];
      var m := |p| - s.charIndex;
      var tr := Trace(phrases, s, m);
      && Run(phrases, s, m) == TypingState(s.phraseIndex, |p|, true)
      && (forall j :: 0 <= j < m ==> tr[j].text == p[..s.charIndex + 1 + j])
      && (forall j :: 0 <= j < m ==> tr[j].delay == if j == m - 1 then FullPhrasePause else TypingDelay)
    decreases |phrases[s.phraseIndex]| - s.charIndex
  {
    var p := phrases[s.phraseIndex];
    var m := |p| - s.charIndex;
    var t := Step(phrases, s);
    if m > 1 {
      assert t.next == TypingState(s.phraseIndex, s.charIndex + 1, false);
      TypingPhase(phrases, t.next);
      var tr := Trace(phrases, s, m);
      assert tr == [t] + Trace(phrases, t.next, m - 1);
      forall j | 1 <= j < m
        ensures tr[j].text == p[..s.charIndex + 1 + j]
        ensures tr[j].delay == if j == m - 1 then FullPhrasePause else TypingDelay
      {
        assert tr[j] == Trace(phrases, t.next, m - 1)[j - 1];
      }
    }
  }

  /**
   * Deleting from count `k` reaches the empty prefix after `k` ticks,
   * showing the prefixes of length k-1 .. 0 at 50 ms each except the last,
   * which pauses 500 ms, and moves on to type the next phrase.
   */
  lemma {:induction false} DeletingPhase(phrases: seq<string>, s: TypingState)
    requires NonEmptyPhrases(phrases) && Inv(phrases, s) && s.isDeleting
    ensures var p := phrases[s.phraseIndex];
      var m := s.charIndex;
      var tr := Trace(phrases, s, m);
      && Run(phrases, s, m) == TypingState((s.phraseIndex + 1) % |phrases|, 0, false)
      && (forall j :: 0 <= j < m ==> tr[j].text == p[..s.charIndex - 1 - j])
      && (forall j :: 0 <= j < m ==> tr[j].delay == if j == m - 1 then EmptyPhrasePause else DeletingDelay)
    decreases s.charIndex
  {
    var p := phrases[s.phraseIndex];
    var m := s.charIndex;
    var t := Step(phrases, s);
    if m > 1 {
      assert t.next == TypingState(s.phraseIndex, s.charIndex - 1, true);
      DeletingPhase(phrases, t.next);
      assert forall k {:trigger Trace(phrases, t.next, m - 1)[k]} :: 0 <= k < m - 1 ==>
        Trace(phrases, t.next, m - 1)[k].text == p[..m - 2 - k];
      var tr := Trace(phrases, s, m);
      assert tr == [t] + Trace(phrases, t.next, m - 1);
      forall j | 1 <= j < m
        ensures tr[j].text == p[..s.charIndex - 1 - j]
        ensures tr[j].delay == if j == m - 1 then EmptyPhrasePause else DeletingDelay
      {
        var rest := Trace(phrases, t.next, m - 1);
        assert tr[j] == rest[j - 1];
      }
    }
  }

  /**
   * One phrase of length L, started from the empty prefix, takes exactly
   * 2·L ticks: the banner shows its prefixes of length 1 .. L and then
   * L-1 .. 0, and the animator is then at the empty prefix of the next
   * phrase, typing.
   */
  lemma {:induction false} PhraseCycle(phrases: seq<string>, i: nat)
    requires NonEmptyPhrases(phrases) && i < |phrases|
    ensures var p := phrases[i];
      var tr := Trace(phrases, TypingState(i, 0, false), 2 * |p|);
      && Run(phrases, TypingState(i, 0, false), 2 * |p|) == TypingState((i + 1) % |phrases|, 0, false)
      && (forall j :: 0 <= j < |p| ==> tr[j].text == p[..j + 1])
      && (forall j :: |p| <= j < 2 * |p| ==> tr[j].text == p[..2 * |p| - 1 - j])
  {
    var p := phrases[i];
    var s := TypingState(i, 0, false);
    TypingPhase(phrases, s);
    var mid := Run(phrases, s, |p|);
    DeletingPhase(phrases, mid);
    RunAppend(phrases, s, |p|, |p|);
    var tr := Trace(phrases, s, 2 * |p|);
    assert tr == Trace(phrases, s, |p|) + Trace(phrases, mid, |p|);
    forall j | |p| <= j < 2 * |p| ensures tr[j].text == p[..2 * |p| - 1 - j] {
      assert tr[j] == Trace(phrases, mid, |p|)[j - |p|];
    }
  }

  /** The closure state of `setupTypingAnimation`, ticked by its timer. */
  class TypingAnimator {
    const phrases: seq<string>
    var phraseIndex: nat
    var charIndex: int
    var isDeleting: bool
    var typingSpeed: nat
    /** The banner element's text content. */
    var text: string

    function State(): TypingState
      reads this
    {
      TypingState(phraseIndex, charIndex, isDeleting)
    }

    ghost predicate Valid()
      reads this
    {
      NonEmptyPhrases(phrases) && Inv(phrases, State())
    }

    /** The closure variables as initialised when the banner element exists. */
    constructor (initialText: string)
      ensures Valid() && phrases == Phrases
      ensures State() == Start && typingSpeed == TypingDelay && text == initialText
    {
      PhrasesNonEmpty();
      phrases := Phrases;
      phraseIndex, charIndex, isDeleting := 0, 0, false;
      typingSpeed := TypingDelay;
      text := initialText;
    }

    /** One run of `typeEffect`; `typingSpeed` is the delay it schedules the next run with. */
    method TypeEffect()
      requires Valid()
      modifies this
      ensures Valid()
      ensures var t := Step(phrases, old(State()));
        State() == t.next && text == t.text && typingSpeed == t.delay
    {
      var currentPhrase := phrases[phraseIndex];
      if isDeleting {
        text := Prefix(currentPhrase, charIndex - 1);
        charIndex := charIndex - 1;
        typingSpeed := DeletingDelay;
      } else {
        text := Prefix(currentPhrase, charIndex + 1);
        charIndex := charIndex + 1;
        typingSpeed := TypingDelay;
      }
      if !isDeleting && charIndex == |currentPhrase| {
        typingSpeed := FullPhrasePause;
        isDeleting := true;
      } else if isDeleting && charIndex == 0 {
        isDeleting := false;
        phraseIndex := (phraseIndex + 1) % |phrases|;
        typingSpeed := EmptyPhrasePause;
      }
    }
  }
}
