/** What key presses and releases do to the player's velocity and crouch height. */
module KeyRules {
  import opened Constants

  /** The keys the game reacts to; every other key is `OtherKey`. */
  datatype Key = Up | Space | W | Left | A | Right | D | Down | S | OtherKey(code: int)

  /**
   * The state a key event can change: the player's velocity and height, and
   * the number of jumps the game has reported to the physics engine.
   */
  datatype Controls = Controls(changeX: real, changeY: real, height: real, jumps: nat)

  predicate IsJumpKey(key: Key) { key.Up? || key.Space? || key.W? }
  predicate IsLeftKey(key: Key) { key.Left? || key.A? }
  predicate IsRightKey(key: Key) { key.Right? || key.D? }
  predicate IsDownKey(key: Key) { key.Down? || key.S? }

  /** A key press, given the engine's answers to "on a ladder?" and "may jump?". */
  function Press(c: Controls, key: Key, onLadder: bool, canJump: bool): (r: Controls)
    ensures r.jumps == c.jumps || (r.jumps == c.jumps + 1 && IsJumpKey(key) && !onLadder && canJump)
    ensures r.height != c.height ==> IsDownKey(key) && !onLadder
    ensures r.changeX != c.changeX ==> IsLeftKey(key) || IsRightKey(key)
  {
    if IsJumpKey(key) then
      if onLadder then c.(changeY := PlayerMovementSpeed)
      else if canJump then c.(changeY := PlayerJumpSpeed, jumps := c.jumps + 1)
      else c
    else if IsLeftKey(key) then c.(changeX := -PlayerMovementSpeed)
    else if IsRightKey(key) then c.(changeX := PlayerMovementSpeed)
    else if IsDownKey(key) then
      if onLadder then c.(changeY := -PlayerMovementSpeed)
      else c.(height := c.height * 0.5)
    else c
  }

  /** A key release, given the engine's answer to "on a ladder?". */
  function Release(c: Controls, key: Key, onLadder: bool): (r: Controls)
    ensures r.jumps == c.jumps
    ensures r.height != c.height ==> IsDownKey(key) && !onLadder
    ensures r.changeY != c.changeY ==> onLadder && r.changeY == 0.0
  {
    if key.Up? || key.W? then
      if onLadder then c.(changeY := 0.0) else c
    else if IsDownKey(key) then
      if onLadder then c.(changeY := 0.0)
      else c.(height := c.height * 2.0)
    else if IsLeftKey(key) || IsRightKey(key) then c.(changeX := 0.0)
    else c
  }

  /** Jumping: climb on a ladder, jump (and count it) when allowed, else nothing. */
  lemma JumpKeyRules(c: Controls, key: Key, onLadder: bool, canJump: bool)
    requires IsJumpKey(key)
    ensures var r := Press(c, key, onLadder, canJump);
            && (onLadder ==> r == c.(changeY := 10.0))
            && (!onLadder && canJump ==> r == c.(changeY := 15.0, jumps := c.jumps + 1))
            && (!onLadder && !canJump ==> r == c)
  {
  }

  /** Horizontal keys set the horizontal speed and touch nothing else. */
  lemma HorizontalPress(c: Controls, key: Key, onLadder: bool, canJump: bool)
    requires IsLeftKey(key) || IsRightKey(key)
    ensures var r := Press(c, key, onLadder, canJump);
            r == c.(changeX := if IsLeftKey(key) then -10.0 else 10.0)
  {
  }

  /** DOWN or S climbs down a ladder at 10, and off a ladder halves the height. */
  lemma DownPress(c: Controls, key: Key, onLadder: bool, canJump: bool)
    requires IsDownKey(key)
    ensures var r := Press(c, key, onLadder, canJump);
            && (onLadder ==> r == c.(changeY := -10.0))
            && (!onLadder ==> r == c.(height := c.height / 2.0))
  {
  }

  /** Releasing DOWN or S off a ladder doubles the height. */
  lemma DownRelease(c: Controls, key: Key)
    requires IsDownKey(key)
    ensures Release(c, key, false) == c.(height := c.height * 2.0)
  {
  }

  /** Crouching off a ladder and standing up again off a ladder restores the height. */
  lemma CrouchRoundTrip(c: Controls, down: Key, up: Key, canJump: bool)
    requires IsDownKey(down) && IsDownKey(up)
    ensures Release(Press(c, down, false, canJump), up, false) == c
  {
  }

  /** A crouch released while on a ladder leaves the player at half height. */
  lemma CrouchReleasedOnLadder(c: Controls, canJump: bool)
    ensures var r := Release(Press(c, Down, false, canJump), Down, true);
            r.height == c.height / 2.0 && r.changeY == 0.0
  {
  }

  /** Releasing a horizontal key always stops horizontal movement. */
  lemma ReleaseStops(c: Controls, key: Key, onLadder: bool)
    requires IsLeftKey(key) || IsRightKey(key)
    ensures Release(c, key, onLadder) == c.(changeX := 0.0)
  {
  }

  /** On a ladder, releasing a vertical key stops vertical movement. */
  lemma ReleaseOnLadder(c: Controls, key: Key)
    requires key.Up? || key.W? || IsDownKey(key)
    ensures Release(c, key, true) == c.(changeY := 0.0)
  {
  }

  /** Releasing UP or W off a ladder, SPACE, or a key the game ignores changes nothing. */
  lemma ReleaseNoEffect(c: Controls, key: Key, onLadder: bool)
    requires key.Space? || key.OtherKey? || ((key.Up? || key.W?) && !onLadder)
    ensures Release(c, key, onLadder) == c
  {
  }

  /** Pressing then releasing the same horizontal key leaves the player standing still. */
  lemma BalancedHorizontal(c: Controls, key: Key, l1: bool, l2: bool, canJump: bool)
    requires IsLeftKey(key) || IsRightKey(key)
    ensures Release(Press(c, key, l1, canJump), key, l2) == c.(changeX := 0.0)
  {
  }
}
