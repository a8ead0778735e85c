/** Input events as the main loop sees them. SDL polling is replaced by an
    input sequence: each iteration of the main loop drains one batch. */
module Input {

  datatype EventType = QuitEvent | KeyDownEvent | KeyUpEvent | OtherEvent

  /** An SDL event: its type and, for keyboard events, the key symbol. */
  datatype Event = Event(kind: EventType, sym: int)

  /** SDL key codes used by the loop (SDLK_ESCAPE is '\x1B', SDLK_SPACE is ' '). */
  const SDLK_ESCAPE: int := 27
  const SDLK_SPACE: int := 32

  /** `isKeyDown`: a key-down event for exactly the key `code`. No quit,
      key-up or other event qualifies. */
  predicate IsKeyDown(e: Event, code: int)
    ensures IsKeyDown(e, code) ==> e.kind != QuitEvent && e.kind != KeyUpEvent && e.kind != OtherEvent
  {
    e.kind == KeyDownEvent && e.sym == code
  }

  /** An event is a key-down of at most one key. */
  lemma KeyDownOfOneKey(e: Event, a: int, b: int)
    ensures IsKeyDown(e, a) && IsKeyDown(e, b) ==> a == b
  {
  }

  /** The event makes the loop stop: a window quit, or Escape pressed. */
  predicate IsQuit(e: Event)
  {
    e.kind == QuitEvent || IsKeyDown(e, SDLK_ESCAPE)
  }

  /** A Space key-down is not a quit, and a key-up of any key, Escape
      included, is neither a quit nor a Space toggle. */
  lemma OnlyKeyDownCounts(e: Event)
    ensures IsKeyDown(e, SDLK_SPACE) ==> !IsQuit(e)
    ensures e.kind == KeyUpEvent ==> !IsQuit(e) && !IsKeyDown(e, SDLK_SPACE)
  {
  }

  predicate QuitRequested(batch: seq<Event>)
  {
    exists i :: 0 <= i < |batch| && IsQuit(batch[i])
  }

  /** Space key-downs in a batch, counted from the front. */
  function SpaceCount(batch: seq<Event>): (n: nat)
    ensures n <= |batch|
  {
    if batch == [] then 0
    else SpaceCount(batch[..|batch| - 1]) + (if IsKeyDown(batch[|batch| - 1], SDLK_SPACE) then 1 else 0)
  }

  /** Space key-downs over consecutive batches. */
  function TotalSpaces(batches: seq<seq<Event>>): nat
  {
    if batches == [] then 0
    else TotalSpaces(batches[..|batches| - 1]) + SpaceCount(batches[|batches| - 1])
  }

  /** Which of the two pipeline variants is selected: 0 or 1. */
  type ShaderIndex = s: int | 0 <= s < 2

  /** The one-step toggle of the selected shader. */
  function Toggle(s: ShaderIndex): (t: ShaderIndex)
    ensures t != s
  {
    (s + 1) % 2
  }

  /** `n` toggles applied to `s`. */
  function Toggled(s: ShaderIndex, n: nat): ShaderIndex
  {
    if n == 0 then s else Toggle(Toggled(s, n - 1))
  }

  /** After `n` toggles from `s` the selection is `(s + n) mod 2`; from 0 it is `n mod 2`. */
  lemma {:induction false} ToggledParity(s: ShaderIndex, n: nat)
    ensures Toggled(s, n) == (s + n) % 2
  {
    if n == 1 {
      assert Toggled(s, 1) == Toggle(s);
    } else if n >= 2 {
      ToggledParity(s, n - 2);
      var t := Toggled(s, n - 2);
      assert Toggled(s, n) == Toggle(Toggle(t)) == t;
      var m := s + n - 2;
      assert m % 2 == (m + 2) % 2 by {
        assert m == 2 * (m / 2) + m % 2;
        assert m + 2 == 2 * (m / 2 + 1) + m % 2;
      }
    }
  }

  predicate HasQuitBatch(batches: seq<seq<Event>>)
  {
    exists k :: 0 <= k < |batches| && QuitRequested(batches[k])
  }

  /** Index of the first batch holding a quit request. */
  function FirstQuit(batches: seq<seq<Event>>): nat
    requires HasQuitBatch(batches)
  {
    if QuitRequested(batches[0]) then 0
    else
      assert HasQuitBatch(batches[1..]) by {
        var k :| 0 <= k < |batches| && QuitRequested(batches[k]);
        assert k > 0 && batches[1..][k - 1] == batches[k];
      }
      1 + FirstQuit(batches[1..])
  }

  /** FirstQuit is a batch with a quit request, and no earlier batch has one. */
  lemma {:induction false} FirstQuitSpec(batches: seq<seq<Event>>)
    requires HasQuitBatch(batches)
    ensures FirstQuit(batches) < |batches|
    ensures QuitRequested(batches[FirstQuit(batches)])
    ensures forall i :: 0 <= i < FirstQuit(batches) ==> !QuitRequested(batches[i])
  {
    if !QuitRequested(batches[0]) {
      var rest := batches[1..];
      assert HasQuitBatch(rest) by {
        var k :| 0 <= k < |batches| && QuitRequested(batches[k]);
        assert k > 0 && rest[k - 1] == batches[k];
      }
      FirstQuitSpec(rest);
      forall i | 0 <= i < FirstQuit(batches)
        ensures !QuitRequested(batches[i])
      {
        if i > 0 {
          assert batches[i] == rest[i - 1];
        }
      }
    }
  }

  /** Toggling `a` times and then `b` times is toggling `a + b` times. */
  lemma {:induction false} ToggledAdd(s: ShaderIndex, a: nat, b: nat)
    ensures Toggled(s, a + b) == Toggled(Toggled(s, a), b)
  {
    if b > 0 {
      ToggledAdd(s, a, b - 1);
    }
  }

  /** The loop runs exactly `RunLength` iterations when no draw aborts: up to
      and including the first batch with a quit request, or all of them. */
  function RunLength(batches: seq<seq<Event>>): (m: nat)
    ensures m <= |batches|
  {
    if HasQuitBatch(batches) then FirstQuitSpec(batches); FirstQuit(batches) + 1 else |batches|
  }

  /** A batch with a quit request and none before it is the first one. */
  lemma FirstQuitAt(batches: seq<seq<Event>>, j: nat)
    requires j < |batches| && QuitRequested(batches[j])
    requires forall k :: 0 <= k < j ==> !QuitRequested(batches[k])
    ensures HasQuitBatch(batches) && FirstQuit(batches) == j && RunLength(batches) == j + 1
  {
    FirstQuitSpec(batches);
  }

  /** A TotalSpaces step: one more batch adds its space key-downs. */
  lemma TotalSpacesStep(batches: seq<seq<Event>>, i: nat)
    requires i < |batches|
    ensures TotalSpaces(batches[..i + 1]) == TotalSpaces(batches[..i]) + SpaceCount(batches[i])
  {
    assert batches[..i + 1][..i] == batches[..i];
  }

  /** Polling batch `i` after batches `0..i` toggles the selection as many
      times in total as the space key-downs of batches `0..i+1`. */
  lemma ToggledBatches(s0: ShaderIndex, batches: seq<seq<Event>>, i: nat)
    requires i < |batches|
    ensures Toggled(s0, TotalSpaces(batches[..i + 1])) == Toggled(Toggled(s0, TotalSpaces(batches[..i])), SpaceCount(batches[i]))
  {
    TotalSpacesStep(batches, i);
    ToggledAdd(s0, TotalSpaces(batches[..i]), SpaceCount(batches[i]));
  }

  /** With no quit request in the first `i` batches, the loop runs at least
      `i` iterations, and all of them when `i` is every batch. */
  lemma RunLengthBound(batches: seq<seq<Event>>, i: nat)
    requires i <= |batches|
    requires forall k :: 0 <= k < i ==> !QuitRequested(batches[k])
    ensures i <= RunLength(batches)
    ensures i == |batches| ==> !HasQuitBatch(batches) && RunLength(batches) == |batches|
  {
    if HasQuitBatch(batches) {
      FirstQuitSpec(batches);
    }
  }
}
