/** The game window: the session state and the callbacks the engine calls. */
module Window {
  import opened Constants
  import opened PlayerSprite
  import opened KeyRules
  import opened CameraRules
  import opened Progression

  class MyGame {
    /** Height of the player's scaled texture, which every new player sprite gets. */
    const spriteHeight: real
    /** The tile map of each level, as the level files give it. */
    const maps: int -> LevelMap

    var endOfMap: real
    var level: int
    var score: nat
    var resetScore: bool
    /** The Coins layer of the current scene. */
    var coins: seq<CoinId>
    /** No player exists before the first setup. */
    var player: Player?
    /** The jump counter of the current physics engine. */
    var jumpCounter: nat
    /** Where the scrolling camera has been moved to. */
    var cameraX: real
    var cameraY: real

    /** Between callbacks a player exists and the score flag is set. */
    ghost predicate Valid()
      reads this, player
    {
      player != null && player.Valid() && resetScore
    }

    function CurrentSession(): Session
      reads this
    {
      Session(level, score, resetScore)
    }

    function State(): World
      reads this, player
      requires player != null
    {
      World(CurrentSession(), Body(player.centerX, player.centerY, player.changeX, player.changeY, player.height),
            endOfMap, coins, jumpCounter)
    }

    function CurrentControls(): Controls
      reads this, player
      requires player != null
    {
      Controls(player.changeX, player.changeY, player.height, jumpCounter)
    }

    /** The window before any level is set up: level 1, score 0, flag set. */
    constructor (baseHeight: real, levelMaps: int -> LevelMap)
      ensures spriteHeight == baseHeight && maps == levelMaps && player == null
      ensures CurrentSession() == Session(1, 0, true)
      ensures endOfMap == 0.0 && coins == [] && jumpCounter == 0
      ensures cameraX == 0.0 && cameraY == 0.0
    {
      spriteHeight := baseHeight;
      maps := levelMaps;
      endOfMap := 0.0;
      level := 1;
      player := null;
      score := 0;
      resetScore := true;
      coins := [];
      jumpCounter := 0;
      cameraX, cameraY := 0.0, 0.0;
    }

    /**
     * Sets up the current level from its map: new cameras, coins and
     * physics engine, the score rule, and a new player at the start.
     */
    method Setup()
      modifies this
      ensures Valid() && fresh(player) && player.Unanimated()
      ensures CurrentSession() == SetupSession(old(CurrentSession()))
      ensures State() == World(SetupSession(old(CurrentSession())), StartBody(spriteHeight),
                               EndOfMap(maps(level)), maps(level).coins, 0)
      ensures cameraX == 0.0 && cameraY == 0.0
    {
      cameraX, cameraY := 0.0, 0.0;
      var m := maps(level);
      coins := m.coins;

      if resetScore {
        score := 0;
      }
      resetScore := true;

      player := new Player(spriteHeight);
      player.centerX := PlayerStartX;
      player.centerY := PlayerStartY;

      jumpCounter := 0;
      endOfMap := EndOfMap(m);
    }

    /** A key press, given the engine's ladder and jump queries. */
    method OnKeyPress(key: Key, onLadder: bool, canJump: bool)
      requires Valid()
      modifies player`changeX, player`changeY, player`height, this`jumpCounter
      ensures Valid()
      ensures CurrentControls() == Press(old(CurrentControls()), key, onLadder, canJump)
    {
      if key.Up? || key.Space? || key.W? {
        if onLadder {
          player.changeY := PlayerMovementSpeed;
        } else if canJump {
          player.changeY := PlayerJumpSpeed;
          jumpCounter := jumpCounter + 1;
        }
      } else if key.Left? || key.A? {
        player.changeX := -PlayerMovementSpeed;
      } else if key.Right? || key.D? {
        player.changeX := PlayerMovementSpeed;
      } else if key.Down? || key.S? {
        if onLadder {
          player.changeY := -PlayerMovementSpeed;
        } else {
          player.height := player.height * 0.5;
        }
      }
    }

    /** A key release, given the engine's ladder query. */
    method OnKeyRelease(key: Key, onLadder: bool)
      requires Valid()
      modifies player`changeX, player`changeY, player`height
      ensures Valid()
      ensures CurrentControls() == Release(old(CurrentControls()), key, onLadder)
    {
      if key.Up? || key.W? {
        if onLadder {
          player.changeY := 0.0;
        }
      } else if key.Down? || key.S? {
        if onLadder {
          player.changeY := 0.0;
        } else {
          player.height := player.height * 2.0;
        }
      } else if key.Left? || key.A? {
        player.changeX := 0.0;
      } else if key.Right? || key.D? {
        player.changeX := 0.0;
      }
    }

    /** Moves the camera so the player is centred, without showing anything left of or below 0. */
    method CenterCameraToPlayer()
      requires player != null
      modifies this`cameraX, this`cameraY
      ensures cameraX == CameraTarget(player.centerX, ScreenWidth)
      ensures cameraY == CameraTarget(player.centerY, ScreenHeight)
    {
      var screenCenterX := player.centerX - ScreenWidth / 2.0;
      var screenCenterY := player.centerY - ScreenHeight / 2.0;
      if screenCenterX < 0.0 {
        screenCenterX := 0.0;
      }
      if screenCenterY < 0.0 {
        screenCenterY := 0.0;
      }
      cameraX, cameraY := screenCenterX, screenCenterY;
    }

    /** Takes each coin of `hits` out of the Coins layer and counts it. */
    method CollectCoins(hits: seq<CoinId>)
      modifies this`coins, this`score
      ensures coins == Remaining(old(coins), hits)
      ensures score == old(score) + |hits|
    {
      var i := 0;
      while i < |hits|
        invariant 0 <= i <= |hits|
        invariant coins == Remaining(old(coins), hits[..i])
        invariant score == old(score) + i
      {
        assert hits[..i + 1][..i] == hits[..i];
        coins := Without(coins, hits[i]);
        score := score + 1;
        i := i + 1;
      }
      assert hits[..|hits|] == hits;
    }

    /** The engine's physics step and ladder query, then the player's animation. */
    method ApplyEngineStep(moved: Motion, onLadder: bool)
      requires Valid()
      modifies player
      ensures Valid()
      ensures State() == old(State()).(body := Body(moved.x, moved.y, moved.changeX, moved.changeY, old(player.height)))
      ensures player.isOnLadder == onLadder && player.climbing == old(player.climbing)
      ensures player.Animation() == Animate(old(player.Animation()), onLadder, moved.changeX, moved.changeY)
    {
      player.centerX, player.centerY := moved.x, moved.y;
      player.changeX, player.changeY := moved.changeX, moved.changeY;
      if onLadder {
        player.isOnLadder := true;
      } else {
        player.isOnLadder := false;
      }
      player.UpdateAnimation();
    }

    /** A player below the fall limit is put back at the start position. */
    method CheckFall()
      requires Valid()
      modifies player`centerX, player`centerY
      ensures Valid()
      ensures State() == FallCheck(old(State()))
    {
      if player.centerY < FallLimit {
        player.centerX := PlayerStartX;
        player.centerY := PlayerStartY;
      }
    }

    /** Touching the Don't Touch layer stops the player and sets the level up again. */
    method CheckHazard(hazard: bool)
      requires Valid()
      modifies this, player
      ensures Valid()
      ensures State() == HazardCheck(old(State()), hazard, maps, spriteHeight)
      ensures hazard ==> fresh(player) && player.Unanimated() && cameraX == 0.0 && cameraY == 0.0
      ensures !hazard ==> player == old(player) && unchanged(this, player)
    {
      if hazard {
        player.changeX := 0.0;
        player.changeY := 0.0;
        player.centerX := PlayerStartX;
        player.centerY := PlayerStartY;
        Setup();
      }
    }

    /** Reaching the right edge of the map sets the next level up, keeping the score. */
    method CheckMapEdge()
      requires Valid()
      modifies this
      ensures Valid()
      ensures State() == EdgeCheck(old(State()), maps, spriteHeight)
      ensures var edge := old(player.centerX) >= old(endOfMap);
              && (edge ==> fresh(player) && player.Unanimated() && cameraX == 0.0 && cameraY == 0.0)
              && (!edge ==> player == old(player) && unchanged(this))
    {
      if player.centerX >= endOfMap {
        level := level + 1;
        resetScore := false;
        Setup();
      }
    }

    /** Touching the End layer sets the next level up, keeping the score. */
    method CheckEnd(endContact: bool)
      requires Valid()
      modifies this
      ensures Valid()
      ensures State() == EndCheck(old(State()), endContact, maps, spriteHeight)
      ensures endContact ==> fresh(player) && player.Unanimated() && cameraX == 0.0 && cameraY == 0.0
      ensures !endContact ==> player == old(player) && unchanged(this)
    {
      if endContact {
        level := level + 1;
        resetScore := false;
        Setup();
      }
    }

    /**
     * One frame. The engine's physics step is given as `moved`, its ladder
     * query as `onLadder`, and its collision queries as `hits` (coins),
     * `hazard` (the Don't Touch layer) and `endContact` (the End layer, asked
     * after the earlier checks).
     */
    method OnUpdate(moved: Motion, onLadder: bool, hits: seq<CoinId>, hazard: bool, endContact: bool)
      requires Valid()
      modifies this, player
      ensures Valid()
      ensures State() == Frame(old(State()), moved, hits, hazard, endContact, maps, spriteHeight)
      ensures var stepped := old(State()).(body := Body(moved.x, moved.y, moved.changeX, moved.changeY, old(player.height)));
              var reloads := Reloads(Collect(stepped, hits), hazard, endContact, maps, spriteHeight);
              && (reloads ==> fresh(player) && player.Unanimated() && cameraX == 0.0 && cameraY == 0.0)
              && (!reloads ==> && player == old(player) && player.isOnLadder == onLadder
                               && player.Animation() == Animate(old(player.Animation()), onLadder, moved.changeX, moved.changeY)
                               && cameraX == CameraTarget(moved.x, ScreenWidth)
                               && cameraY == CameraTarget(moved.y, ScreenHeight))
    {
      ApplyEngineStep(moved, onLadder);
      ghost var stepped := State();
      CollectCoins(hits);
      assert State() == Collect(stepped, hits);
      CenterCameraToPlayer();
      CheckFall();
      CheckHazard(hazard);
      CheckMapEdge();
      CheckEnd(endContact);
    }
  }

  /** Opens the window and sets up the first level. */
  method Launch(baseHeight: real, levelMaps: int -> LevelMap) returns (g: MyGame)
    ensures fresh(g) && g.Valid() && g.maps == levelMaps
    ensures g.CurrentSession() == Session(1, 0, true)
    ensures g.State() == World(Session(1, 0, true), StartBody(baseHeight), EndOfMap(levelMaps(1)), levelMaps(1).coins, 0)
  {
    g := new MyGame(baseHeight, levelMaps);
    g.Setup();
  }
}
