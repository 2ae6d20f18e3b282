/** The player sprite and the choice of the texture it shows each frame. */
module PlayerSprite {
  import opened Constants

  /** Which picture of the player is shown; a walk picture carries its frame. */
  datatype TextureKind = Idle | Jump | Fall | Ladder | Climb | Walk(frame: int)

  /** A picture together with the index (left or right) of its mirror pair. */
  datatype Texture = Texture(kind: TextureKind, facing: int)

  /** The animation state of a player: facing index, walk counter, shown texture. */
  datatype Anim = Anim(face: int, cur: int, texture: Texture)

  predicate IsFacing(face: int) {
    face == TextureLeft || face == TextureRight
  }

  function Abs(x: real): (r: real)
    ensures r >= 0.0 && (r == x || r == -x)
  {
    if x < 0.0 then -x else x
  }

  /** The facing index after a frame moving horizontally at `changeX`. */
  function NextFacing(face: int, changeX: real): (f: int)
    requires IsFacing(face)
    ensures IsFacing(f)
    ensures changeX < 0.0 ==> f == TextureLeft
    ensures changeX > 0.0 ==> f == TextureRight
    ensures changeX == 0.0 ==> f == face
  {
    if changeX < 0.0 && face == TextureRight then TextureLeft
    else if changeX > 0.0 && face == TextureLeft then TextureRight
    else face
  }

  /** The walk counter after one more walking frame: it cycles through 0, 1, 2. */
  function NextFrame(cur: int): (n: int)
    ensures 0 <= cur <= 2 ==> 0 <= n <= 2 && n == (cur + 1) % 3
  {
    if cur + 1 > 2 then 0 else cur + 1
  }

  /**
   * The animation state after one frame, given the ladder flag and the
   * velocity: climb, ladder, jump, fall, idle and walk, in that priority.
   */
  function Animate(a: Anim, onLadder: bool, changeX: real, changeY: real): (r: Anim)
    requires IsFacing(a.face)
    ensures r.face == NextFacing(a.face, changeX)
    ensures r.texture.facing == r.face
    ensures r.texture.kind == Climb <==> onLadder && Abs(changeY) > 1.0
    ensures r.texture.kind == Ladder <==> onLadder && Abs(changeY) <= 1.0
    ensures r.texture.kind == Jump <==> !onLadder && changeY > 0.0
    ensures r.texture.kind == Fall <==> !onLadder && changeY < 0.0
    ensures r.texture.kind == Idle <==> !onLadder && changeY == 0.0 && changeX == 0.0
    ensures r.texture.kind.Walk? <==> !onLadder && changeY == 0.0 && changeX != 0.0
    ensures r.texture.kind.Walk? ==> r.cur == NextFrame(a.cur) && r.texture.kind.frame == r.cur
    ensures !r.texture.kind.Walk? ==> r.cur == a.cur
    ensures 0 <= a.cur <= 2 ==> 0 <= r.cur <= 2
  {
    var face := NextFacing(a.face, changeX);
    if onLadder && Abs(changeY) > 1.0 then Anim(face, a.cur, Texture(Climb, face))
    else if onLadder then Anim(face, a.cur, Texture(Ladder, face))
    else if changeY > 0.0 then Anim(face, a.cur, Texture(Jump, face))
    else if changeY < 0.0 then Anim(face, a.cur, Texture(Fall, face))
    else if changeX == 0.0 then Anim(face, a.cur, Texture(Idle, face))
    else
      var next := NextFrame(a.cur);
      Anim(face, next, Texture(Walk(next), face))
  }

  /** Three walking frames in a row show frames 0, 1 and 2 and bring the counter back. */
  lemma WalkCycle(a: Anim, changeX: real)
    requires IsFacing(a.face) && 0 <= a.cur <= 2 && changeX != 0.0
    ensures var a1 := Animate(a, false, changeX, 0.0);
            var a2 := Animate(a1, false, changeX, 0.0);
            var a3 := Animate(a2, false, changeX, 0.0);
            a3.cur == a.cur && {a1.cur, a2.cur, a3.cur} == {0, 1, 2}
  {
  }

  /** Facing is decided by the sign of `changeX` alone, whatever the old facing was. */
  lemma FacingBySign(f1: int, f2: int, changeX: real)
    requires IsFacing(f1) && IsFacing(f2) && changeX != 0.0
    ensures NextFacing(f1, changeX) == NextFacing(f2, changeX)
  {
  }

  /** The player's sprite: position, velocity, crouch height and animation state. */
  class Player {
    var centerX: real
    var centerY: real
    var changeX: real
    var changeY: real
    var height: real
    var faceDirection: int
    var curTexture: int
    var texture: Texture
    var isOnLadder: bool
    var climbing: bool

    /** Facing is a texture-pair index and the walk counter stays in 0..2. */
    ghost predicate Valid()
      reads this
    {
      IsFacing(faceDirection) && 0 <= curTexture <= 2
    }

    function Animation(): Anim
      reads this
    {
      Anim(faceDirection, curTexture, texture)
    }

    /** The state of a newly made sprite: facing right, showing the first idle texture. */
    ghost predicate Unanimated()
      reads this
    {
      && faceDirection == TextureRight
      && curTexture == 0
      && texture == Texture(Idle, TextureLeft)
      && !isOnLadder
      && !climbing
    }

    /** A new player sprite; `baseHeight` is the height of its scaled texture. */
    constructor (baseHeight: real)
      ensures Valid() && Unanimated()
      ensures centerX == 0.0 && centerY == 0.0 && changeX == 0.0 && changeY == 0.0
      ensures height == baseHeight
    {
      centerX, centerY := 0.0, 0.0;
      changeX, changeY := 0.0, 0.0;
      height := baseHeight;
      curTexture := 0;
      faceDirection := TextureRight;
      texture := Texture(Idle, TextureLeft);
      isOnLadder := false;
      climbing := false;
    }

    /** Turns the player by the sign of `changeX`, then picks and shows a texture. */
    method UpdateAnimation()
      requires Valid()
      modifies this`faceDirection, this`curTexture, this`texture
      ensures Valid()
      ensures Animation() == Animate(old(Animation()), isOnLadder, changeX, changeY)
    {
      if changeX < 0.0 && faceDirection == TextureRight {
        faceDirection := TextureLeft;
      } else if changeX > 0.0 && faceDirection == TextureLeft {
        faceDirection := TextureRight;
      }

      if isOnLadder && Abs(changeY) > 1.0 {
        texture := Texture(Climb, faceDirection);
        return;
      }
      if isOnLadder {
        texture := Texture(Ladder, faceDirection);
        return;
      }

      if changeY > 0.0 && !isOnLadder {
        texture := Texture(Jump, faceDirection);
        return;
      } else if changeY < 0.0 && !isOnLadder {
        texture := Texture(Fall, faceDirection);
        return;
      }

      if changeX == 0.0 {
        texture := Texture(Idle, faceDirection);
        return;
      }

      curTexture := curTexture + 1;
      if curTexture > 2 {
        curTexture := 0;
      }
      texture := Texture(Walk(curTexture), faceDirection);
    }
  }
}
