/** The keyboard half of the input sampler: a level reading ("is the key down")
    and an edge reading ("was it pressed", true once per continuous hold). */
module Input {

  /** A key code as the browser reports it ("Enter", "KeyF", "ArrowUp", ...). */
  type KeyCode = string

  /** A raw key event, as delivered to the keydown and keyup listeners. */
  datatype KeyEvent = Down(code: KeyCode) | Up(code: KeyCode)

  /** Truthiness of `m[c]` in a dictionary of booleans: a code never seen reads
      as `undefined`, which counts as false. */
  predicate Held(m: map<KeyCode, bool>, c: KeyCode)
  {
    c in m && m[c]
  }

  /** The two dictionaries of the sampler: `keys` (level) and `keysPressed`
      (the edge of the current hold has already been reported). */
  datatype KeyboardState = KeyboardState(keys: map<KeyCode, bool>, keysPressed: map<KeyCode, bool>)

  /** The state before any event. */
  const Initial := KeyboardState(map[], map[])

  /** Only a key that is down can have its edge marked consumed. */
  predicate Consistent(k: KeyboardState)
  {
    forall c | c in k.keysPressed :: k.keysPressed[c] ==> Held(k.keys, c)
  }

  /** An edge poll of `c` reports true: the key is down and its edge is not yet consumed. */
  predicate Fires(k: KeyboardState, c: KeyCode)
  {
    Held(k.keys, c) && !Held(k.keysPressed, c)
  }

  /** The keydown handler: the key is down; the consumed flags are left alone,
      so a key-repeat keydown during a hold does not re-arm the edge. */
  function AfterKeyDown(k: KeyboardState, c: KeyCode): (r: KeyboardState)
    ensures Held(r.keys, c)
    ensures r.keysPressed == k.keysPressed
    ensures forall d :: d != c ==> Held(r.keys, d) == Held(k.keys, d)
  {
    k.(keys := k.keys[c := true])
  }

  /** The keyup handler: the key is up and its consumed flag is cleared, so the
      next keydown makes the edge fire again. */
  function AfterKeyUp(k: KeyboardState, c: KeyCode): (r: KeyboardState)
    ensures !Held(r.keys, c) && !Held(r.keysPressed, c)
    ensures Fires(AfterKeyDown(r, c), c)
    ensures forall d :: d != c ==> Held(r.keys, d) == Held(k.keys, d)
    ensures forall d :: d != c ==> Held(r.keysPressed, d) == Held(k.keysPressed, d)
  {
    KeyboardState(k.keys[c := false], k.keysPressed[c := false])
  }

  /** The state after an edge poll of `c`: a firing poll marks the edge
      consumed, so a second poll before the keyup does not fire. */
  function AfterPoll(k: KeyboardState, c: KeyCode): (r: KeyboardState)
    ensures r.keys == k.keys
    ensures !Fires(r, c)
    ensures Held(r.keysPressed, c) == (Held(k.keysPressed, c) || Held(k.keys, c))
    ensures forall d :: d != c ==> Held(r.keysPressed, d) == Held(k.keysPressed, d)
  {
    if Fires(k, c) then k.(keysPressed := k.keysPressed[c := true]) else k
  }

  /** The dictionary `keys` after a run of key events from the empty one. */
  function KeysAfter(events: seq<KeyEvent>): map<KeyCode, bool>
  {
    if events == [] then map[]
    else
      var e := events[|events| - 1];
      KeysAfter(events[..|events| - 1])[e.code := e.Down?]
  }

  /** Independent reading of "down": the latest event for `c` is a keydown. */
  predicate LastIsDown(events: seq<KeyEvent>, c: KeyCode)
  {
    if events == [] then false
    else if events[|events| - 1].code == c then events[|events| - 1].Down?
    else LastIsDown(events[..|events| - 1], c)
  }

  /** The level reading agrees with the latest event for the key. */
  lemma {:induction false} KeysFollowLastEvent(events: seq<KeyEvent>, c: KeyCode)
    ensures Held(KeysAfter(events), c) == LastIsDown(events, c)
  {
    if events != [] {
      KeysFollowLastEvent(events[..|events| - 1], c);
    }
  }

  /** One thing that can happen to the sampler: a key event or an edge poll. */
  datatype Action = Key(event: KeyEvent) | Poll(code: KeyCode)

  function Step(k: KeyboardState, a: Action): KeyboardState
  {
    match a
    case Key(Down(c)) => AfterKeyDown(k, c)
    case Key(Up(c)) => AfterKeyUp(k, c)
    case Poll(c) => AfterPoll(k, c)
  }

  /** Every key event and every poll keeps a consumed flag only on a key that is down. */
  lemma StepKeepsConsistent(k: KeyboardState, a: Action)
    requires Consistent(k)
    ensures Consistent(Step(k, a))
  {
  }

  /** A key that goes from up to down fires on the next poll of it. */
  lemma PressFromUpFires(k: KeyboardState, c: KeyCode)
    requires Consistent(k) && !Held(k.keys, c)
    ensures Fires(AfterKeyDown(k, c), c)
  {
  }

  /** The results of the polls of a run, in order. */
  function PollResults(k: KeyboardState, acts: seq<Action>): seq<bool>
    decreases |acts|
  {
    if acts == [] then []
    else
      var rest := PollResults(Step(k, acts[0]), acts[1..]);
      if acts[0].Poll? then [Fires(k, acts[0].code)] + rest else rest
  }

  /** How many polls of `c` in a run report true. */
  function FireCount(k: KeyboardState, acts: seq<Action>, c: KeyCode): nat
    decreases |acts|
  {
    if acts == [] then 0
    else (if acts[0] == Poll(c) && Fires(k, c) then 1 else 0) + FireCount(Step(k, acts[0]), acts[1..], c)
  }

  /** The run holds no keyup of `c`. */
  predicate NoRelease(acts: seq<Action>, c: KeyCode)
  {
    forall i :: 0 <= i < |acts| ==> acts[i] != Key(Up(c))
  }

  /** Without a keyup of `c`, polls of `c` report true at most once, and never
      if the edge was already consumed when the run began. */
  lemma {:induction false} FiresAtMostOncePerHold(k: KeyboardState, acts: seq<Action>, c: KeyCode)
    requires NoRelease(acts, c)
    ensures FireCount(k, acts, c) <= if Held(k.keysPressed, c) then 0 else 1
    decreases |acts|
  {
    if acts != [] {
      var k' := Step(k, acts[0]);
      assert acts[0] != Key(Up(c));
      assert Held(k.keysPressed, c) ==> Held(k'.keysPressed, c);
      assert acts[0] == Poll(c) && Fires(k, c) ==> Held(k'.keysPressed, c);
      assert NoRelease(acts[1..], c) by {
        forall i | 0 <= i < |acts| - 1 ensures acts[1..][i] != Key(Up(c)) {
          assert acts[1..][i] == acts[i + 1];
        }
      }
      FiresAtMostOncePerHold(k', acts[1..], c);
    }
  }

  /** A key that is down with its edge not yet consumed, and that stays down
      (no keyup) through a run that polls it, is reported exactly once. */
  lemma {:induction false} PolledHoldFiresOnce(k: KeyboardState, acts: seq<Action>, c: KeyCode)
    requires Fires(k, c)
    requires NoRelease(acts, c)
    requires Poll(c) in acts
    ensures FireCount(k, acts, c) == 1
    decreases |acts|
  {
    var k' := Step(k, acts[0]);
    assert acts[0] != Key(Up(c));
    assert NoRelease(acts[1..], c) by {
      forall i | 0 <= i < |acts| - 1 ensures acts[1..][i] != Key(Up(c)) {
        assert acts[1..][i] == acts[i + 1];
      }
    }
    if acts[0] == Poll(c) {
      FiresAtMostOncePerHold(k', acts[1..], c);
    } else {
      assert Fires(k', c);
      assert Poll(c) in acts[1..] by {
        var i :| 0 <= i < |acts| && acts[i] == Poll(c);
        assert acts[1..][i - 1] == acts[i];
      }
      PolledHoldFiresOnce(k', acts[1..], c);
    }
  }

  /** From any consistent state in which `c` is up, a keydown of `c` followed
      by a run that polls it and does not release it reports `c` exactly once. */
  lemma {:induction false} HoldFromUpFiresOnce(k: KeyboardState, acts: seq<Action>, c: KeyCode)
    requires Consistent(k) && !Held(k.keys, c)
    requires NoRelease(acts, c)
    requires Poll(c) in acts
    ensures FireCount(k, [Key(Down(c))] + acts, c) == 1
  {
    var run := [Key(Down(c))] + acts;
    assert run[0] == Key(Down(c)) && run[1..] == acts;
    PressFromUpFires(k, c);
    PolledHoldFiresOnce(AfterKeyDown(k, c), acts, c);
  }

  /** The sequence keydown, poll, poll, keyup, keydown, poll reports true,
      false, true: one edge per hold. */
  lemma EdgeOncePerHold(c: KeyCode)
    ensures PollResults(Initial, [Key(Down(c)), Poll(c), Poll(c), Key(Up(c)), Key(Down(c)), Poll(c)])
         == [true, false, true]
  {
    var k1 := AfterKeyDown(Initial, c);
    var k2 := AfterPoll(k1, c);
    var k3 := AfterPoll(k2, c);
    var k4 := AfterKeyUp(k3, c);
    var k5 := AfterKeyDown(k4, c);
    assert Fires(k1, c) && !Fires(k2, c) && Fires(k5, c);
    var acts := [Key(Down(c)), Poll(c), Poll(c), Key(Up(c)), Key(Down(c)), Poll(c)];
    assert acts[1..] == [Poll(c), Poll(c), Key(Up(c)), Key(Down(c)), Poll(c)];
    assert acts[2..] == acts[1..][1..];
    assert acts[3..] == acts[2..][1..];
    assert acts[4..] == acts[3..][1..];
    assert acts[5..] == acts[4..][1..];
    assert PollResults(k5, acts[5..]) == [true];
    assert PollResults(k4, acts[4..]) == [true];
    assert PollResults(k3, acts[3..]) == [true];
    assert PollResults(k2, acts[2..]) == [false, true];
    assert PollResults(k1, acts[1..]) == [true, false, true];
  }

  /** The sampler's keyboard state, updated in place by the listeners and by edge polls. */
  class InputState {
    var keys: map<KeyCode, bool>
    var keysPressed: map<KeyCode, bool>
    /** Every keydown and keyup seen so far, oldest first. */
    ghost var events: seq<KeyEvent>

    ghost predicate Valid()
      reads this
    {
      keys == KeysAfter(events) && Consistent(State())
    }

    function State(): KeyboardState
      reads this
    {
      KeyboardState(keys, keysPressed)
    }

    constructor ()
      ensures Valid() && events == [] && State() == Initial
    {
      keys := map[];
      keysPressed := map[];
      events := [];
    }

    /** Body of the keydown listener. */
    method KeyDown(code: KeyCode)
      requires Valid()
      modifies this
      ensures Valid() && events == old(events) + [Down(code)]
      ensures State() == AfterKeyDown(old(State()), code)
      ensures !Held(old(keys), code) ==> Fires(State(), code)
    {
      keys := keys[code := true];
      events := events + [Down(code)];
      assert events[..|events| - 1] == old(events);
    }

    /** Body of the keyup listener. */
    method KeyUp(code: KeyCode)
      requires Valid()
      modifies this
      ensures Valid() && events == old(events) + [Up(code)]
      ensures State() == AfterKeyUp(old(State()), code)
    {
      keys := keys[code := false];
      keysPressed := keysPressed[code := false];
      events := events + [Up(code)];
      assert events[..|events| - 1] == old(events);
    }

    /** Level reading: true exactly when the latest event for the key was a keydown. */
    function IsDown(code: KeyCode): (r: bool)
      reads this
      requires Valid()
      ensures r == LastIsDown(events, code)
    {
      KeysFollowLastEvent(events, code);
      code in keys && keys[code] == true
    }

    /** Edge reading: true on the first poll of a hold, consuming the edge. */
    method IsPressed(code: KeyCode) returns (pressed: bool)
      requires Valid()
      modifies this
      ensures Valid() && events == old(events)
      ensures pressed == Fires(old(State()), code)
      ensures State() == AfterPoll(old(State()), code)
    {
      if Held(keys, code) && !Held(keysPressed, code) {
        keysPressed := keysPressed[code := true];
        return true;
      }
      return false;
    }
  }
}
