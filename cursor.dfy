/** The joystick drawing of main.c: drawOled moves a cursor on the OLED one
    pixel per active call in the pressed directions, plots it when it has
    moved, clears the screen on a centre press, and acts on only every
    fourth call. */
module Cursor {
  import opened Platform

  /** Joystick state bits, as the joystick driver reports them. */
  const Center: bv8 := 0x01
  const Up: bv8 := 0x02
  const Down: bv8 := 0x04
  const Left: bv8 := 0x08
  const Right: bv8 := 0x10

  /** OLED_DISPLAY_WIDTH and OLED_DISPLAY_HEIGHT of the 96 x 64 display. */
  const Width: nat := 96
  const Height: nat := 64

  predicate Pressed(joy: bv8, flag: bv8)
  {
    joy & flag != 0
  }

  /** The static variables of drawOled: the call counter, the cursor and the
      last point plotted. */
  datatype State = State(wait: int, x: Byte, y: Byte, lastX: Byte, lastY: Byte)

  /** Their initial values. */
  const Start: State := State(0, 48, 32, 0, 0)

  /** What one call leaves behind and what it does to the screen. */
  datatype Outcome = Outcome(state: State, events: seq<Event>)

  /** The states drawOled can be in: the counter runs 0..3 and the cursor
      and the last plotted point are on the screen. */
  predicate OnScreen(s: State)
  {
    0 <= s.wait <= 3 && s.x < Width && s.y < Height && s.lastX < Width && s.lastY < Height
  }

  /** The cursor row after the up and then the down test. */
  function NewY(joy: bv8, y: Byte): Byte
  {
    var up := if Pressed(joy, Up) && y > 0 then y - 1 else y;
    if Pressed(joy, Down) && up < Height - 1 then up + 1 else up
  }

  /** The cursor column after the right and then the left test. */
  function NewX(joy: bv8, x: Byte): Byte
  {
    var right := if Pressed(joy, Right) && x < Width - 1 then x + 1 else x;
    if Pressed(joy, Left) && right > 0 then right - 1 else right
  }

  /** One call of drawOled with joystick state joy. */
  function Step(s: State, joy: bv8): Outcome
  {
    if Pressed(joy, Center) then Outcome(s, [ClearScreen])
    else if s.wait < 3 then Outcome(s.(wait := s.wait + 1), [])
    else
      var x, y := NewX(joy, s.x), NewY(joy, s.y);
      if s.lastX != x || s.lastY != y then Outcome(State(0, x, y, x, y), [PutPixel(x, y)])
      else Outcome(State(0, x, y, s.lastX, s.lastY), [])
  }

  /** A sequence of calls, their screen operations in order. */
  function Run(s: State, joys: seq<bv8>): Outcome
    decreases |joys|
  {
    if joys == [] then Outcome(s, [])
    else
      var first := Step(s, joys[0]);
      var rest := Run(first.state, joys[1..]);
      Outcome(rest.state, first.events + rest.events)
  }

  lemma StartOnScreen()
    ensures OnScreen(Start)
  {
  }

  /** drawOled keeps the cursor and the plotted points on the screen. */
  lemma StepOnScreen(s: State, joy: bv8)
    requires OnScreen(s)
    ensures OnScreen(Step(s, joy).state)
  {
  }

  /** A centre press clears the screen and changes nothing else, not even
      the call counter. */
  lemma CenterClears(s: State, joy: bv8)
    requires Pressed(joy, Center)
    ensures Step(s, joy).state == s
    ensures Step(s, joy).events == [ClearScreen]
  {
  }

  /** The first three calls after an active one only count. */
  lemma WaitingCallsOnlyCount(s: State, joy: bv8)
    requires !Pressed(joy, Center) && s.wait < 3
    ensures Step(s, joy).state == s.(wait := s.wait + 1)
    ensures Step(s, joy).events == []
  {
  }

  /** Four calls without a centre press from a fresh counter: the first three
      leave the screen alone and the fourth is an active call. */
  lemma EveryFourthCallActs(s: State, j0: bv8, j1: bv8, j2: bv8, j3: bv8)
    requires s.wait == 0
    requires !Pressed(j0, Center) && !Pressed(j1, Center) && !Pressed(j2, Center) && !Pressed(j3, Center)
    ensures Run(s, [j0, j1, j2]) == Outcome(s.(wait := 3), [])
    ensures Run(s, [j0, j1, j2, j3]) == Step(s.(wait := 3), j3)
  {
    var s1, s2, s3 := s.(wait := 1), s.(wait := 2), s.(wait := 3);
    var last := Step(s3, j3);
    assert Step(s, j0) == Outcome(s1, []);
    assert Step(s1, j1) == Outcome(s2, []);
    assert Step(s2, j2) == Outcome(s3, []);
    assert [j0, j1, j2][1..] == [j1, j2] && [j1, j2][1..] == [j2] && [j2][1..] == [];
    assert Run(s2, [j2]) == Outcome(s3, []);
    assert Run(s1, [j1, j2]) == Outcome(s3, []);
    assert [j0, j1, j2, j3][1..] == [j1, j2, j3] && [j1, j2, j3][1..] == [j2, j3] && [j2, j3][1..] == [j3];
    assert Run(s3, [j3]) == last by {
      assert [j3][1..] == [];
      assert last.events + [] == last.events;
    }
    assert Run(s2, [j2, j3]) == last;
    assert Run(s1, [j1, j2, j3]) == last;
  }

  /** An active call moves the cursor by at most one pixel on each axis, and
      only in a pressed direction. */
  lemma ActiveCallMovesOne(s: State, joy: bv8)
    requires !Pressed(joy, Center) && s.wait >= 3
    ensures var t := Step(s, joy).state;
      -1 <= t.x - s.x <= 1 && -1 <= t.y - s.y <= 1
      && (t.y < s.y ==> Pressed(joy, Up)) && (t.y > s.y ==> Pressed(joy, Down))
      && (t.x > s.x ==> Pressed(joy, Right)) && (t.x < s.x ==> Pressed(joy, Left))
  {
  }

  /** A single direction pressed away from the edge it points at moves the
      cursor exactly one pixel that way. */
  lemma SinglePressMoves(s: State, joy: bv8)
    requires s.wait >= 3 && OnScreen(s)
    ensures joy == Up && s.y > 0 ==> Step(s, joy).state.y == s.y - 1 && Step(s, joy).state.x == s.x
    ensures joy == Down && s.y < Height - 1 ==> Step(s, joy).state.y == s.y + 1 && Step(s, joy).state.x == s.x
    ensures joy == Right && s.x < Width - 1 ==> Step(s, joy).state.x == s.x + 1 && Step(s, joy).state.y == s.y
    ensures joy == Left && s.x > 0 ==> Step(s, joy).state.x == s.x - 1 && Step(s, joy).state.y == s.y
  {
  }

  /** Up and down together cancel, except on the top row, where the up test
      fails and the down test then moves the cursor down. */
  lemma UpAndDownAtTopMovesDown(s: State)
    requires s.wait >= 3 && s.y == 0
    ensures Step(s, Up | Down).state.y == 1
  {
    assert Pressed(Up | Down, Down);
  }

  /** After an active call the last plotted point is the cursor, and a pixel
      is plotted exactly when the cursor differs from the point plotted before. */
  lemma ActiveCallPlotsCursor(s: State, joy: bv8)
    requires !Pressed(joy, Center) && s.wait >= 3
    ensures var r := Step(s, joy);
      r.state.wait == 0 && r.state.lastX == r.state.x && r.state.lastY == r.state.y
      && (r.events == [PutPixel(r.state.x, r.state.y)] <==> (s.lastX, s.lastY) != (r.state.x, r.state.y))
      && (r.events == [] <==> (s.lastX, s.lastY) == (r.state.x, r.state.y))
  {
  }

  /** drawOled's state: its five static variables. */
  class Drawing {
    var wait: int
    var currX: Byte
    var currY: Byte
    var lastX: Byte
    var lastY: Byte

    function Current(): State
      reads this
    {
      State(wait, currX, currY, lastX, lastY)
    }

    constructor ()
      ensures Current() == Start
    {
      wait, currX, currY, lastX, lastY := 0, 48, 32, 0, 0;
    }

    /** drawOled: one call with joystick state joyState. */
    method DrawOled(joyState: bv8) returns (events: seq<Event>)
      modifies this
      ensures Outcome(Current(), events) == Step(old(Current()), joyState)
    {
      events := [];
      if joyState & Center != 0 {
        events := [ClearScreen];
        return;
      }
      var counted := wait;
      wait := wait + 1;
      if counted < 3 {
        return;
      }
      wait := 0;
      if joyState & Up != 0 && currY > 0 {
        currY := currY - 1;
      }
      if joyState & Down != 0 && currY < Height - 1 {
        currY := currY + 1;
      }
      if joyState & Right != 0 && currX < Width - 1 {
        currX := currX + 1;
      }
      if joyState & Left != 0 && currX > 0 {
        currX := currX - 1;
      }
      assert currX == NewX(joyState, old(currX)) && currY == NewY(joyState, old(currY));
      if lastX != currX || lastY != currY {
        events := [PutPixel(currX, currY)];
        lastX := currX;
        lastY := currY;
      }
    }
  }
}
