/**
 * The per-frame bookkeeping of the game on plain values: coin collection,
 * falling off, touching a hazard, reaching the end of a level, and what
 * setting a level up does to the score.
 */
module Progression {
  import opened Constants

  /** Coins are told apart by an identity of their own. */
  type CoinId = nat

  /** The current level, the score and the "zero the score on the next setup" flag. */
  datatype Session = Session(level: int, score: nat, resetScore: bool)

  /** The player's position, velocity and crouch height. */
  datatype Body = Body(x: real, y: real, changeX: real, changeY: real, height: real)

  /** Position and velocity of the player after the physics engine's step. */
  datatype Motion = Motion(x: real, y: real, changeX: real, changeY: real)

  /** What the tile map of a level provides: its width in tiles and its coins. */
  datatype LevelMap = LevelMap(widthInTiles: nat, coins: seq<CoinId>)

  /** Everything the frame rules read and write. */
  datatype World = World(session: Session, body: Body, endOfMap: real, coins: seq<CoinId>, jumps: nat)

  predicate Distinct(s: seq<CoinId>) {
    forall i, j :: 0 <= i < j < |s| ==> s[i] != s[j]
  }

  /** The right edge of a level's map in pixels. */
  function EndOfMap(m: LevelMap): (e: real)
    ensures e >= 0.0
    ensures e == 64.0 * m.widthInTiles as real
  {
    m.widthInTiles as real * GridPixelSize
  }

  /** A newly set-up player, standing still at the start position. */
  function StartBody(baseHeight: real): (b: Body)
    ensures b.x == PlayerStartX && b.y == PlayerStartY
    ensures b.changeX == 0.0 && b.changeY == 0.0 && b.height == baseHeight
  {
    Body(PlayerStartX, PlayerStartY, 0.0, 0.0, baseHeight)
  }

  // ---------------------------------------------------------------- coins

  /** The coin layer with coin `c` taken out of it. */
  function Without(s: seq<CoinId>, c: CoinId): (r: seq<CoinId>)
    ensures forall x :: x in r <==> x in s && x != c
    ensures c !in s ==> r == s
    ensures Distinct(s) ==> Distinct(r) && (c in s ==> |r| == |s| - 1)
  {
    if s == [] then []
    else if s[0] == c then Without(s[1..], c)
    else
      var rest := Without(s[1..], c);
      assert Distinct(s) ==> s[0] !in s[1..] && Distinct(s[1..]) by {
        if Distinct(s) {
          forall i | 0 <= i < |s[1..]| ensures s[1..][i] != s[0] { assert s[1..][i] == s[i + 1]; }
        }
      }
      [s[0]] + rest
  }

  /** The coin layer after the coins of `hits` were taken out, one after the other. */
  function Remaining(layer: seq<CoinId>, hits: seq<CoinId>): (r: seq<CoinId>)
    decreases |hits|
    ensures forall x :: x in r <==> x in layer && x !in hits
    ensures Distinct(layer) ==> Distinct(r)
    ensures Distinct(layer) && Distinct(hits) && (forall x :: x in hits ==> x in layer)
            ==> |r| == |layer| - |hits|
  {
    if hits == [] then layer
    else Without(Remaining(layer, hits[..|hits| - 1]), hits[|hits| - 1])
  }

  /** Each coin hit this frame leaves the coin layer and adds one to the score. */
  function Collect(w: World, hits: seq<CoinId>): (r: World)
    ensures r.session.score == w.session.score + |hits|
    ensures forall x :: x in r.coins <==> x in w.coins && x !in hits
    ensures r.session.level == w.session.level && r.session.resetScore == w.session.resetScore
    ensures r.body == w.body && r.endOfMap == w.endOfMap && r.jumps == w.jumps
  {
    w.(session := w.session.(score := w.session.score + |hits|),
       coins := Remaining(w.coins, hits))
  }

  /**
   * When the engine reports each hit coin once and only coins of the layer,
   * the score goes up by exactly the number of coins that left the layer.
   */
  lemma CollectExactly(w: World, hits: seq<CoinId>)
    requires Distinct(w.coins) && Distinct(hits)
    requires forall x :: x in hits ==> x in w.coins
    ensures var r := Collect(w, hits);
            && r.session.score - w.session.score == |w.coins| - |r.coins| == |hits|
            && Distinct(r.coins)
  {
  }

  // ---------------------------------------------------------------- setup

  /** Setting up a level zeroes the score only when the flag asks for it; the flag is then set. */
  function SetupSession(s: Session): (r: Session)
    ensures r.resetScore && r.level == s.level
    ensures r.score == (if s.resetScore then 0 else s.score)
  {
    Session(s.level, if s.resetScore then 0 else s.score, true)
  }

  /** A second setup in a row always zeroes the score. */
  lemma SetupTwice(s: Session)
    ensures SetupSession(SetupSession(s)) == Session(s.level, 0, true)
  {
  }

  /** Setting up the current level from its map: new player, new coins, new engine. */
  function SetupWorld(w: World, m: LevelMap, baseHeight: real): (r: World)
    ensures r.session == SetupSession(w.session)
    ensures r.body == StartBody(baseHeight)
    ensures r.endOfMap == EndOfMap(m) && r.coins == m.coins && r.jumps == 0
  {
    World(SetupSession(w.session), StartBody(baseHeight), EndOfMap(m), m.coins, 0)
  }

  /** Moving on to the next level: count it up, keep the score, set it up. */
  function Advance(w: World, maps: int -> LevelMap, baseHeight: real): (r: World)
    ensures r.session == Session(w.session.level + 1, w.session.score, true)
    ensures r.body == StartBody(baseHeight)
    ensures r.endOfMap == EndOfMap(maps(w.session.level + 1))
    ensures r.coins == maps(w.session.level + 1).coins
  {
    var next := w.session.(level := w.session.level + 1, resetScore := false);
    SetupWorld(w.(session := next), maps(next.level), baseHeight)
  }

  // ---------------------------------------------------------------- the checks, in order

  /** Below the fall limit the player is put back at the start; nothing else changes. */
  function FallCheck(w: World): (r: World)
    ensures w.body.y < FallLimit ==> r == w.(body := w.body.(x := PlayerStartX, y := PlayerStartY))
    ensures w.body.y >= FallLimit ==> r == w
  {
    if w.body.y < FallLimit then w.(body := w.body.(x := PlayerStartX, y := PlayerStartY))
    else w
  }

  /** Touching a hazard stops the player, puts it at the start and sets the level up again. */
  function HazardCheck(w: World, hazard: bool, maps: int -> LevelMap, baseHeight: real): (r: World)
    ensures hazard ==> && r.session == SetupSession(w.session)
                       && r.body == StartBody(baseHeight)
                       && r.endOfMap == EndOfMap(maps(w.session.level))
                       && r.coins == maps(w.session.level).coins && r.jumps == 0
    ensures !hazard ==> r == w
  {
    if hazard then
      var stopped := w.body.(changeX := 0.0, changeY := 0.0, x := PlayerStartX, y := PlayerStartY);
      SetupWorld(w.(body := stopped), maps(w.session.level), baseHeight)
    else w
  }

  /** Reaching the right edge of the map advances the level. */
  function EdgeCheck(w: World, maps: int -> LevelMap, baseHeight: real): (r: World)
    ensures w.body.x >= w.endOfMap ==>
              && r.session == Session(w.session.level + 1, w.session.score, true)
              && r.body == StartBody(baseHeight)
              && r.coins == maps(w.session.level + 1).coins && r.jumps == 0
    ensures w.body.x < w.endOfMap ==> r == w
  {
    if w.body.x >= w.endOfMap then Advance(w, maps, baseHeight) else w
  }

  /** Touching the End layer advances the level. */
  function EndCheck(w: World, endContact: bool, maps: int -> LevelMap, baseHeight: real): (r: World)
    ensures endContact ==>
              && r.session == Session(w.session.level + 1, w.session.score, true)
              && r.body == StartBody(baseHeight)
              && r.coins == maps(w.session.level + 1).coins && r.jumps == 0
    ensures !endContact ==> r == w
  {
    if endContact then Advance(w, maps, baseHeight) else w
  }

  /**
   * The checks after coin collection, in the game's order: fall, hazard,
   * map edge, End layer. `endContact` is the answer of the End query, which
   * is asked of the player and level as they are after the earlier checks.
   */
  function Progress(w: World, hazard: bool, endContact: bool, maps: int -> LevelMap, baseHeight: real): (r: World)
    ensures w.session.level <= r.session.level <= w.session.level + 2
    ensures w.session.resetScore ==> r.session.resetScore
    ensures !hazard && w.session.resetScore ==> r.session.score == w.session.score
  {
    EndCheck(EdgeCheck(HazardCheck(FallCheck(w), hazard, maps, baseHeight), maps, baseHeight),
             endContact, maps, baseHeight)
  }

  /** The engine's step, then the coins, then the checks. */
  function Frame(w: World, moved: Motion, hits: seq<CoinId>, hazard: bool, endContact: bool,
                 maps: int -> LevelMap, baseHeight: real): (r: World)
    ensures w.session.level <= r.session.level <= w.session.level + 2
    ensures w.session.resetScore ==> r.session.resetScore
    ensures !hazard && w.session.resetScore ==> r.session.score == w.session.score + |hits|
  {
    var stepped := w.(body := Body(moved.x, moved.y, moved.changeX, moved.changeY, w.body.height));
    Progress(Collect(stepped, hits), hazard, endContact, maps, baseHeight)
  }

  /** Whether any of the checks sets a level up (and so replaces the player). */
  predicate Reloads(w: World, hazard: bool, endContact: bool, maps: int -> LevelMap, baseHeight: real)
    ensures !Reloads(w, hazard, endContact, maps, baseHeight) ==>
              Progress(w, hazard, endContact, maps, baseHeight) == FallCheck(w)
  {
    hazard || endContact || HazardCheck(FallCheck(w), hazard, maps, baseHeight).body.x
                              >= HazardCheck(FallCheck(w), hazard, maps, baseHeight).endOfMap
  }

  // ---------------------------------------------------------------- what the checks promise

  /**
   * While the flag is set between frames, a frame zeroes the score exactly
   * when a hazard is touched, and leaves the flag set.
   */
  lemma ProgressScore(w: World, hazard: bool, endContact: bool,
                      maps: int -> LevelMap, baseHeight: real)
    requires w.session.resetScore
    ensures var r := Progress(w, hazard, endContact, maps, baseHeight);
            && r.session.resetScore
            && r.session.score == (if hazard then 0 else w.session.score)
  {
  }

  /** A frame advances the level by the number of end conditions met, at most two. */
  lemma ProgressLevel(w: World, hazard: bool, endContact: bool,
                      maps: int -> LevelMap, baseHeight: real)
    ensures var h := HazardCheck(FallCheck(w), hazard, maps, baseHeight);
            var r := Progress(w, hazard, endContact, maps, baseHeight);
            r.session.level == w.session.level + (if h.body.x >= h.endOfMap then 1 else 0)
                                                + (if endContact then 1 else 0)
  {
  }

  /** A frame with none of the conditions leaves everything but the coins and score as it was. */
  lemma QuietFrame(w: World, maps: int -> LevelMap, baseHeight: real)
    requires w.body.y >= FallLimit && w.body.x < w.endOfMap
    ensures Progress(w, false, false, maps, baseHeight) == w
  {
  }

  /**
   * Falling off only moves the player back to the start: velocity, score,
   * level and coins stay, and no setup happens (if the start is not past the edge).
   */
  lemma FallOnlyMoves(w: World, maps: int -> LevelMap, baseHeight: real)
    requires w.body.y < FallLimit && PlayerStartX < w.endOfMap
    ensures Progress(w, false, false, maps, baseHeight)
            == w.(body := w.body.(x := PlayerStartX, y := PlayerStartY))
  {
  }

  /**
   * A hazard resets the player to a standing start, zeroes the score and
   * keeps the level, unless the restarted level is itself finished at once.
   */
  lemma HazardResets(w: World, maps: int -> LevelMap, baseHeight: real)
    requires w.session.resetScore
    requires PlayerStartX < EndOfMap(maps(w.session.level))
    ensures var r := Progress(w, true, false, maps, baseHeight);
            && r.session == Session(w.session.level, 0, true)
            && r.body == StartBody(baseHeight)
            && r.coins == maps(w.session.level).coins
  {
  }

  /** Reaching the right edge moves to the next level with the score kept. */
  lemma EdgeAdvances(w: World, maps: int -> LevelMap, baseHeight: real)
    requires w.session.resetScore
    requires w.body.y >= FallLimit && w.body.x >= w.endOfMap
    requires PlayerStartX < EndOfMap(maps(w.session.level + 1))
    ensures var r := Progress(w, false, false, maps, baseHeight);
            && r.session == Session(w.session.level + 1, w.session.score, true)
            && r.body == StartBody(baseHeight)
            && r.coins == maps(w.session.level + 1).coins
  {
  }

  /** Touching the End layer moves to the next level with the score kept. */
  lemma EndAdvances(w: World, maps: int -> LevelMap, baseHeight: real)
    requires w.session.resetScore
    requires w.body.y >= FallLimit && w.body.x < w.endOfMap
    ensures var r := Progress(w, false, true, maps, baseHeight);
            && r.session == Session(w.session.level + 1, w.session.score, true)
            && r.body == StartBody(baseHeight)
            && r.coins == maps(w.session.level + 1).coins
  {
  }

  /**
   * Touching a hazard and the End layer in the same frame: the hazard is
   * handled first, and the level advances only if the End query, asked of
   * the restarted player, still reports contact.
   */
  lemma HazardBeforeEnd(w: World, endContact: bool, maps: int -> LevelMap, baseHeight: real)
    requires w.session.resetScore
    requires PlayerStartX < EndOfMap(maps(w.session.level))
    ensures var r := Progress(w, true, endContact, maps, baseHeight);
            && r.session.score == 0
            && (r.session.level == w.session.level <==> !endContact)
  {
  }

  /** Reloads says exactly when the player ends up at a standing start with a fresh engine. */
  lemma ReloadsResetsBody(w: World, hazard: bool, endContact: bool, maps: int -> LevelMap, baseHeight: real)
    requires Reloads(w, hazard, endContact, maps, baseHeight)
    ensures var r := Progress(w, hazard, endContact, maps, baseHeight);
            r.body == StartBody(baseHeight) && r.jumps == 0
  {
  }
}
