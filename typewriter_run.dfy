/** The typewriter effect over time: the page runs one callback, which
    schedules exactly one more, forever.  `Run` follows that chain of timers;
    the lemmas describe a whole type / pause / delete cycle and a full
    rotation through the phrases. */
module TypewriterRun {
  import opened Typewriter

  /** The closure state and the one callback that is pending. */
  datatype Machine = Machine(cursor: Cursor, pending: Callback)

  /** What `startTypingEffect` leaves behind just before its own call of `type`. */
  function Launch(text: string): Machine {
    Machine(Start(text), RunType)
  }

  /** The state at the start of phrase `i`, once the previous phrase is deleted. */
  function PhraseStart(i: nat): Machine {
    Machine(Cursor(i, 0, false, false, []), RunType)
  }

  /** Between two callbacks: the state keeps its invariant and the pending
      callback is the 2000 ms closure exactly when the effect is paused. */
  predicate Settled(phrases: seq<string>, m: Machine) {
    Invariant(phrases, m.cursor) && (m.pending == RunBeginDelete <==> m.cursor.paused)
  }

  function Fire(phrases: seq<string>, m: Machine): Transition
    requires m.cursor.phrase < |phrases|
  {
    match m.pending
    case RunType => Type(phrases, m.cursor)
    case RunBeginDelete => Resume(phrases, m.cursor)
  }

  /** Run the pending callback. */
  function Tick(phrases: seq<string>, m: Machine): (r: Machine)
    requires m.cursor.phrase < |phrases|
    ensures r.cursor.phrase < |phrases|
    ensures Settled(phrases, m) ==> Settled(phrases, r)
  {
    var t := Fire(phrases, m);
    Machine(t.after, t.timer.callback)
  }

  /** The delay of the timer the pending callback schedules. */
  function TickDelay(phrases: seq<string>, m: Machine): nat
    requires m.cursor.phrase < |phrases|
  {
    Fire(phrases, m).timer.delay
  }

  /** Run `n` callbacks, each the one its predecessor scheduled. */
  function Run(phrases: seq<string>, m: Machine, n: nat): (r: Machine)
    requires m.cursor.phrase < |phrases|
    ensures r.cursor.phrase < |phrases|
    decreases n
  {
    if n == 0 then m else Run(phrases, Tick(phrases, m), n - 1)
  }

  /** The delays of the `n` timers scheduled while running `n` callbacks. */
  function Delays(phrases: seq<string>, m: Machine, n: nat): (r: seq<nat>)
    requires m.cursor.phrase < |phrases|
    ensures |r| == n
    decreases n
  {
    if n == 0 then [] else [TickDelay(phrases, m)] + Delays(phrases, Tick(phrases, m), n - 1)
  }

  function Repeat(d: nat, n: nat): (r: seq<nat>)
    ensures |r| == n && forall k :: 0 <= k < n ==> r[k] == d
  {
    seq(n, _ => d)
  }

  /** Running `a` callbacks and then `b` more is running `a + b`. */
  lemma {:induction false} RunSplit(phrases: seq<string>, m: Machine, a: nat, b: nat)
    requires m.cursor.phrase < |phrases|
    ensures Run(phrases, m, a + b) == Run(phrases, Run(phrases, m, a), b)
    ensures Delays(phrases, m, a + b) == Delays(phrases, m, a) + Delays(phrases, Run(phrases, m, a), b)
    decreases a
  {
    if a > 0 {
      RunSplit(phrases, Tick(phrases, m), a - 1, b);
      assert a + b - 1 == (a - 1) + b;
    }
  }

  /** Between any two callbacks the displayed text is the first `count`
      characters of the current phrase (and the rest of the invariant). */
  lemma {:induction false} RunKeepsSettled(phrases: seq<string>, m: Machine, n: nat)
    requires Settled(phrases, m)
    ensures Settled(phrases, Run(phrases, m, n))
    decreases n
  {
    if n > 0 {
      RunKeepsSettled(phrases, Tick(phrases, m), n - 1);
    }
  }

  /** From page load on, after every callback the invariant holds, whatever
      text the element showed at first. */
  lemma AlwaysSettled(phrases: seq<string>, text: string, n: nat)
    requires WellFormed(phrases) && n > 0
    ensures Settled(phrases, Run(phrases, Launch(text), n))
    ensures Run(phrases, Launch(text), n).cursor.text
            == phrases[Run(phrases, Launch(text), n).cursor.phrase][..Run(phrases, Launch(text), n).cursor.count]
  {
    var m := Launch(text);
    RunSplit(phrases, m, 1, n - 1);
    assert Run(phrases, m, 1) == Tick(phrases, m);
    RunKeepsSettled(phrases, Tick(phrases, m), n - 1);
  }

  /** The typing half of a cycle on phrase `i`: each of the first `k`
      callbacks adds one character and schedules 100 ms, except that the one
      completing the phrase pauses and schedules the 2000 ms closure. */
  lemma {:induction false} TypingPhase(phrases: seq<string>, i: nat, text: string, k: nat)
    requires WellFormed(phrases) && i < |phrases|
    requires 1 <= k <= |phrases[i]|
    ensures var m := Machine(Cursor(i, 0, false, false, text), RunType);
            var L := |phrases[i]|;
            && Run(phrases, m, k) == (if k < L then Machine(Cursor(i, k, false, false, phrases[i][..k]), RunType)
                                      else Machine(Cursor(i, L, false, true, phrases[i]), RunBeginDelete))
            && Delays(phrases, m, k) == Repeat(TypingDelay, k - 1) + [if k < L then TypingDelay else DwellDelay]
    decreases k
  {
    var m := Machine(Cursor(i, 0, false, false, text), RunType);
    if k == 1 {
      assert Run(phrases, m, 1) == Tick(phrases, m);
    } else {
      TypingPhase(phrases, i, text, k - 1);
      RunSplit(phrases, m, k - 1, 1);
      var prev := Run(phrases, m, k - 1);
      assert Run(phrases, prev, 1) == Tick(phrases, prev);
      assert Invariant(phrases, prev.cursor);
      assert Repeat(TypingDelay, k - 2) + [TypingDelay] == Repeat(TypingDelay, k - 1);
    }
  }

  /** The deleting half of a cycle on phrase `i`: each callback removes one
      character and schedules 50 ms, and the one removing the last character
      moves to the next phrase and schedules 500 ms. */
  lemma {:induction false} DeletingPhase(phrases: seq<string>, i: nat, k: nat)
    requires WellFormed(phrases) && i < |phrases|
    requires 1 <= k <= |phrases[i]|
    ensures var m := Machine(Cursor(i, |phrases[i]|, true, false, phrases[i]), RunType);
            var L := |phrases[i]|;
            && Run(phrases, m, k) == (if k < L then Machine(Cursor(i, L - k, true, false, phrases[i][..L - k]), RunType)
                                      else PhraseStart((i + 1) % |phrases|))
            && Delays(phrases, m, k) == Repeat(DeletingDelay, k - 1) + [if k < L then DeletingDelay else NextPhraseDelay]
    decreases k
  {
    var m := Machine(Cursor(i, |phrases[i]|, true, false, phrases[i]), RunType);
    assert phrases[i][..|phrases[i]|] == phrases[i];
    if k == 1 {
      assert Run(phrases, m, 1) == Tick(phrases, m);
    } else {
      DeletingPhase(phrases, i, k - 1);
      RunSplit(phrases, m, k - 1, 1);
      var prev := Run(phrases, m, k - 1);
      assert Run(phrases, prev, 1) == Tick(phrases, prev);
      assert Invariant(phrases, prev.cursor);
      assert Repeat(DeletingDelay, k - 2) + [DeletingDelay] == Repeat(DeletingDelay, k - 1);
    }
  }

  /** Number of callbacks in one cycle on phrase `i`: `L` typing steps, the
      2000 ms closure, `L` deleting steps. */
  function CycleLength(phrases: seq<string>, i: nat): nat
    requires i < |phrases|
  {
    2 * |phrases[i]| + 1
  }

  /** One full cycle on phrase `i` returns to character 0, neither deleting
      nor paused, on phrase `(i + 1) mod N`, with the timers
      100 ... 100, 2000, 1000, 50 ... 50, 500. */
  lemma Cycle(phrases: seq<string>, i: nat, text: string)
    requires WellFormed(phrases) && i < |phrases|
    ensures var m := Machine(Cursor(i, 0, false, false, text), RunType);
            var L := |phrases[i]|;
            && Run(phrases, m, CycleLength(phrases, i)) == PhraseStart((i + 1) % |phrases|)
            && Delays(phrases, m, CycleLength(phrases, i))
               == Repeat(TypingDelay, L - 1) + [DwellDelay, ResumeDelay] + Repeat(DeletingDelay, L - 1) + [NextPhraseDelay]
  {
    var m := Machine(Cursor(i, 0, false, false, text), RunType);
    var L := |phrases[i]|;
    TypingPhase(phrases, i, text, L);
    var typed := Run(phrases, m, L);
    var deleting := Tick(phrases, typed);
    assert deleting == Machine(Cursor(i, L, true, false, phrases[i]), RunType) by {
      assert phrases[i][..L] == phrases[i];
    }
    assert Run(phrases, typed, 1) == deleting && Delays(phrases, typed, 1) == [ResumeDelay];
    RunSplit(phrases, m, L, 1);
    DeletingPhase(phrases, i, L);
    RunSplit(phrases, m, L + 1, L);
    assert L + 1 + L == CycleLength(phrases, i);
  }

  /** Callbacks needed to cycle through phrases `0 .. k - 1`. */
  function RotationLength(phrases: seq<string>, k: nat): nat
    requires k <= |phrases|
  {
    if k == 0 then 0 else RotationLength(phrases, k - 1) + CycleLength(phrases, k - 1)
  }

  /** After the cycles of the first `k` phrases the effect is at the start
      of phrase `k mod N`; after all `N` it is back at phrase 0 with an empty
      text. */
  lemma {:induction false} Rotation(phrases: seq<string>, text: string, k: nat)
    requires WellFormed(phrases) && 1 <= k <= |phrases|
    ensures Run(phrases, Launch(text), RotationLength(phrases, k)) == PhraseStart(k % |phrases|)
    decreases k
  {
    var n := |phrases|;
    if k == 1 {
      Cycle(phrases, 0, text);
      assert RotationLength(phrases, 1) == CycleLength(phrases, 0);
    } else {
      var before, cycle := RotationLength(phrases, k - 1), CycleLength(phrases, k - 1);
      Rotation(phrases, text, k - 1);
      assert (k - 1) % n == k - 1;
      RunSplit(phrases, Launch(text), before, cycle);
      Cycle(phrases, k - 1, []);
      assert RotationLength(phrases, k) == before + cycle;
    }
  }

  /** The two-phrase example: after two full cycles of ["Hi", "Yo"] (ten
      callbacks) the phrase index is 0 again. */
  lemma TwoPhraseExample(text: string)
    ensures Run(["Hi", "Yo"], Launch(text), 10) == PhraseStart(0)
  {
    var phrases := ["Hi", "Yo"];
    assert WellFormed(phrases);
    Rotation(phrases, text, 2);
    assert RotationLength(phrases, 2) == 10;
  }

  /** The taglines of data.js, the phrases portfolio.js cycles through. */
  const Taglines: seq<string> := [
    "Building scalable, user-centric iOS applications",
    "SwiftUI specialist with modern Apple standards",
    "5+ years mobile dev, 1.5+ years iOS expertise",
    "Creating App Store success stories"
  ]

  /** With the data.js taglines, one rotation through all four phrases
      returns to the first one with an empty text. */
  lemma TaglinesRotate(text: string)
    ensures WellFormed(Taglines)
    ensures Run(Taglines, Launch(text), RotationLength(Taglines, 4)) == PhraseStart(0)
  {
    assert WellFormed(Taglines);
    Rotation(Taglines, text, 4);
  }

  /** The taglines of the data object script.js declares for itself, the
      phrases its own copy of the effect cycles through. */
  const ScriptTaglines: seq<string> := [
    "Crafting exceptional mobile experiences",
    "From Android to iOS, building the future",
    "Where code meets creativity",
    "Turning ideas into app store success"
  ]

  /** With the script.js taglines, one rotation returns to the first one. */
  lemma ScriptTaglinesRotate(text: string)
    ensures WellFormed(ScriptTaglines)
    ensures Run(ScriptTaglines, Launch(text), RotationLength(ScriptTaglines, 4)) == PhraseStart(0)
  {
    assert WellFormed(ScriptTaglines);
    Rotation(ScriptTaglines, text, 4);
  }
}
