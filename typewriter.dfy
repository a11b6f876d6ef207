/** The typewriter effect of the hero section (`startTypingEffect` in script.js
    and in portfolio.js).  The closure state of the JavaScript is the record
    `Cursor`; one call of the inner function `type` is the transition `Type`;
    the 2000 ms closure that sets `isDeleting` before calling `type` is
    `Resume`.  Instead of calling `setTimeout`, a transition returns the one
    timer it schedules. */
module Typewriter {
  import opened Text

  /** What a pending timer will run: the plain `type` step, or the 2000 ms
      closure that first sets `isDeleting`. */
  datatype Callback = RunType | RunBeginDelete

  /** One `setTimeout(callback, delay)`. */
  datatype Timer = Timer(delay: nat, callback: Callback)

  /** The closure variables `currentPhrase`, `currentChar`, `isDeleting`,
      `isPaused`, and the `textContent` of the typing element. */
  datatype Cursor = Cursor(phrase: nat, count: int, deleting: bool, paused: bool, text: string)

  /** The state after one callback and the timer it scheduled. */
  datatype Transition = Transition(after: Cursor, timer: Timer)

  const TypingDelay: nat := 100
  const DeletingDelay: nat := 50
  const NextPhraseDelay: nat := 500
  const ResumeDelay: nat := 1000
  const DwellDelay: nat := 2000

  /** `s.substring(0, n)`: JavaScript clamps `n` into the range `0..|s|`. */
  function Prefix(s: string, n: int): (r: string)
    ensures r <= s
    ensures |r| == if n <= 0 then 0 else if n >= |s| then |s| else n
  {
    if n <= 0 then [] else if n >= |s| then s else s[..n]
  }

  /** The phrase list the effect can run on: at least one phrase, and no
      empty phrase (the JavaScript crashes on an empty list and never stops
      typing an empty phrase). */
  predicate WellFormed(phrases: seq<string>) {
    |phrases| > 0 && forall i :: 0 <= i < |phrases| ==> |phrases[i]| > 0
  }

  /** The state the page is in when no callback is running. */
  predicate Invariant(phrases: seq<string>, c: Cursor) {
    && WellFormed(phrases)
    && c.phrase < |phrases|
    && 0 <= c.count <= |phrases[c.phrase]|
    && c.text == phrases[c.phrase][..c.count]
    && !(c.deleting && c.paused)
    && (c.paused ==> c.count == |phrases[c.phrase]|)
    && (c.deleting ==> c.count > 0)
    && (!c.deleting && !c.paused ==> c.count < |phrases[c.phrase]|)
  }

  /** The state `startTypingEffect` sets up before its first call of `type`;
      the element still shows whatever text the page had. */
  function Start(text: string): (c: Cursor)
    ensures c.phrase == 0 && c.count == 0 && !c.deleting && !c.paused && c.text == text
  {
    Cursor(0, 0, false, false, text)
  }

  /** One call of `type`. */
  function Type(phrases: seq<string>, c: Cursor): (r: Transition)
    requires c.phrase < |phrases|
    ensures r.after.phrase < |phrases|
    // a step taken while paused only clears the pause
    ensures c.paused ==> r.after == c.(paused := false) && r.timer == Timer(ResumeDelay, RunType)
    // a typing step shows one more character of the phrase
    ensures Invariant(phrases, c) && !c.paused && !c.deleting ==>
              && r.after.phrase == c.phrase && !r.after.deleting
              && r.after.count == c.count + 1
              && r.after.text == c.text + [phrases[c.phrase][c.count]]
              && (r.after.paused <==> r.after.count == |phrases[c.phrase]|)
              && r.timer == (if r.after.paused then Timer(DwellDelay, RunBeginDelete) else Timer(TypingDelay, RunType))
    // a deleting step removes the last character, and after the last one moves to the next phrase
    ensures Invariant(phrases, c) && c.deleting ==>
              && r.after.text == c.text[..c.count - 1] && !r.after.paused
              && (c.count > 1 ==>
                    r.after == c.(count := c.count - 1, text := c.text[..c.count - 1]) && r.timer == Timer(DeletingDelay, RunType))
              && (c.count == 1 ==>
                    r.after == Cursor((c.phrase + 1) % |phrases|, 0, false, false, []) && r.timer == Timer(NextPhraseDelay, RunType))
    // the invariant is kept, and the first step establishes it whatever the element showed
    ensures Invariant(phrases, c) && !c.paused ==> Invariant(phrases, r.after)
    ensures WellFormed(phrases) && c.count == 0 && !c.deleting && !c.paused ==> Invariant(phrases, r.after)
    ensures r.timer.callback == RunBeginDelete <==> r.after.paused && !c.paused
  {
    var current := phrases[c.phrase];
    if c.paused then
      Transition(c.(paused := false), Timer(ResumeDelay, RunType))
    else if c.deleting then
      var n := c.count - 1;
      if n == 0 then
        Transition(c.(phrase := (c.phrase + 1) % |phrases|, count := n, deleting := false, text := Prefix(current, n)),
                   Timer(NextPhraseDelay, RunType))
      else
        Transition(c.(count := n, text := Prefix(current, n)), Timer(DeletingDelay, RunType))
    else
      var n := c.count + 1;
      if n == |current| then
        Transition(c.(count := n, text := Prefix(current, n), paused := true), Timer(DwellDelay, RunBeginDelete))
      else
        Transition(c.(count := n, text := Prefix(current, n)), Timer(TypingDelay, RunType))
  }

  /** The 2000 ms closure: `isDeleting = true; type();`. */
  function Resume(phrases: seq<string>, c: Cursor): (r: Transition)
    requires c.phrase < |phrases|
    ensures r.after.phrase < |phrases|
    ensures c.paused ==> r.after == c.(deleting := true, paused := false) && r.timer == Timer(ResumeDelay, RunType)
    ensures Invariant(phrases, c) && c.paused ==> Invariant(phrases, r.after) && r.after.count == c.count
  {
    Type(phrases, c.(deleting := true))
  }

  /** The typing effect as a page object: the four closure variables and the
      text of the typing element, updated in place by each callback. */
  class TypingEffect {
    const phrases: seq<string>
    var currentPhrase: nat
    var currentChar: int
    var isDeleting: bool
    var isPaused: bool
    var text: string

    function State(): Cursor
      reads this
    {
      Cursor(currentPhrase, currentChar, isDeleting, isPaused, text)
    }

    ghost predicate Valid()
      reads this
    {
      Invariant(phrases, State())
    }

    /** The set-up part of `startTypingEffect`, before the first `type()`. */
    constructor (phrases: seq<string>, text: string)
      requires WellFormed(phrases)
      ensures this.phrases == phrases && State() == Start(text)
    {
      this.phrases := phrases;
      currentPhrase, currentChar := 0, 0;
      isDeleting, isPaused := false, false;
      this.text := text;
    }

    /** `type`: one transition; returns the timer it schedules. */
    method Step() returns (timer: Timer)
      requires currentPhrase < |phrases|
      modifies this
      ensures State() == Type(phrases, old(State())).after
      ensures timer == Type(phrases, old(State())).timer
      ensures old(Valid()) && !old(isPaused) ==> Valid()
    {
      var current := phrases[currentPhrase];
      if isPaused {
        isPaused := false;
        return Timer(ResumeDelay, RunType);
      }
      if isDeleting {
        text := Prefix(current, currentChar - 1);
        currentChar := currentChar - 1;
        if currentChar == 0 {
          isDeleting := false;
          currentPhrase := (currentPhrase + 1) % |phrases|;
          return Timer(NextPhraseDelay, RunType);
        }
      } else {
        text := Prefix(current, currentChar + 1);
        currentChar := currentChar + 1;
        if currentChar == |current| {
          isPaused := true;
          return Timer(DwellDelay, RunBeginDelete);
        }
      }
      var speed := if isDeleting then DeletingDelay else TypingDelay;
      timer := Timer(speed, RunType);
    }

    /** The 2000 ms closure scheduled when a phrase is complete. */
    method BeginDelete() returns (timer: Timer)
      requires currentPhrase < |phrases|
      modifies this
      ensures State() == Resume(phrases, old(State())).after
      ensures timer == Resume(phrases, old(State())).timer
      ensures old(Valid()) && old(isPaused) ==> Valid() && isDeleting && !isPaused
    {
      isDeleting := true;
      timer := Step();
    }
  }

  /** `startTypingEffect` of portfolio.js: with no typing element it returns
      at once, creating no state and scheduling nothing; otherwise it sets up
      the state and makes the first call of `type`. */
  method StartTypingEffect(phrases: seq<string>, element: Option<string>) returns (effect: TypingEffect?, first: Option<Timer>)
    requires element.Some? ==> WellFormed(phrases)
    ensures element.None? ==> effect == null && first.None?
    ensures element.Some? ==>
              && effect != null && fresh(effect) && effect.phrases == phrases && effect.Valid()
              && first == Some(Type(phrases, Start(element.value)).timer)
              && effect.State() == Type(phrases, Start(element.value)).after
  {
    if element.None? {
      return null, None;
    }
    effect := new TypingEffect(phrases, element.value);
    var timer := effect.Step();
    first := Some(timer);
  }
}
