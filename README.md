# Platformer game bookkeeping, modelled in Dafny

This project models the game's own logic in `game_mymap.py`. That file is a
tutorial platformer built on the `arcade` engine, and its logic sits on top
of the engine's calls:

- the player sprite's animation selector (facing, texture priority, walk counter);
- the keyboard handlers, which set the player's velocity and crouch height and count jumps;
- the per-frame rules: coins go into the score, falling off the map, touching a hazard
  (the "Don't Touch" layer), and advancing at the map edge or the End layer;
- the score rule of `setup` and its `reset_score` flag;
- the camera clamp.

The engine's answers to its queries become inputs of the model:

- `is_on_ladder()` and `can_jump()` are booleans;
- the collision queries are a hit list of coin ids and two booleans;
- the position and velocity after `player_sprite.update()` (which moves the sprite by its velocity) and the physics engine's step are together a `Motion` value;
- the tile map of each level is a `LevelMap` (width in tiles, coin ids). The game holds a fixed function from level number to map, standing for the level files `WORLD<n>.tmx`.

Positions, velocities and heights are `real`, not floating point.

Files and modules:

- `constants.dfy` (`Constants`): the numbers of the game. Speeds are 10 and 15, the start is (256, 225), the fall limit is -100 and a tile is 64 pixels.
- `player.dfy` (`PlayerSprite`): the texture datatypes, the `Animate` specification and the `Player` class with `UpdateAnimation`.
- `keys.dfy` (`KeyRules`): `Press` and `Release` on a `Controls` value (velocity, height, jump count), and lemmas about them.
- `camera.dfy` (`CameraRules`): the clamp of one camera coordinate.
- `progression.dfy` (`Progression`): the frame rules on values. A `World` holds the level, score, flag, player body, map edge, coin layer and jump count. The module defines the four checks in the game's order and lemmas about them.
- `game.dfy` (`Window`): the `MyGame` class. Its key handlers, `Setup` and `OnUpdate` are proved equal to the value-level functions.

Behaviour of `game_mymap.py` worth knowing:

- Falling below y = -100 (lines 374-378) only moves the player back to the start. It does not zero velocity or the score, and it does not set the level up again (`FallOnlyMoves`).
- After a hazard's setup (lines 381-390), the map-edge test (line 392) and the End query (line 403) still run. They see the restarted player and the reloaded level, so the level advances if the End query still reports contact (`HazardBeforeEnd`).
- The map-edge test (line 392) and the End test (line 403) are separate `if`s. Both can fire in one frame, so the level can rise by two (`ProgressLevel`).
- A jump press increments the physics engine's jump counter (line 296). Nothing in the game's code decrements it.

## Model

| member | source | states |
|---|---|---|
| PlayerSprite.NextFacing | game_mymap.py:76-80 | facing becomes LEFT for `change_x < 0`, RIGHT for `change_x > 0`, and is kept for `change_x == 0` |
| PlayerSprite.FacingBySign | game_mymap.py:76-80 | for any non-zero `change_x` the new facing does not depend on the old one |
| PlayerSprite.NextFrame | game_mymap.py:107-109 | the walk counter advances by one modulo 3 and stays in 0..2 |
| PlayerSprite.Animate | game_mymap.py:74-112 | texture priority: climb iff on a ladder with \|change_y\| > 1; ladder iff on a ladder otherwise; then jump iff change_y > 0, fall iff < 0, idle iff change_x == 0, else walk. The texture uses the new facing index. The counter advances only in the walk case, the walk texture shows the new counter, and the counter stays in 0..2 |
| PlayerSprite.WalkCycle | game_mymap.py:106-112 | three walking frames show frames 0, 1 and 2 and return the counter to its start |
| PlayerSprite.Player.constructor | game_mymap.py:50-66 | a new sprite faces RIGHT, has counter 0, shows idle texture index 0, is not on a ladder and stands still |
| PlayerSprite.Player.UpdateAnimation | game_mymap.py:74-112 | the sprite's facing, counter and texture become `Animate` of their old values, and the sprite stays valid |
| KeyRules.Press | game_mymap.py:288-305 | the jump count rises only on a jump key off a ladder when jumping is allowed, and then by one. Height changes only for DOWN/S off a ladder. `change_x` changes only for LEFT/A/RIGHT/D |
| KeyRules.JumpKeyRules | game_mymap.py:290-296 | UP/SPACE/W sets change_y to 10 on a ladder with the counter untouched. Otherwise, if a jump is allowed, it sets 15 and adds one to the counter. Otherwise nothing changes |
| KeyRules.HorizontalPress | game_mymap.py:297-300 | LEFT/A sets change_x to -10 and RIGHT/D to +10, and nothing else changes |
| KeyRules.Release | game_mymap.py:307-320 | a release never changes the jump count. Height changes only for DOWN/S off a ladder. change_y changes only on a ladder, and then to 0 |
| KeyRules.DownPress | game_mymap.py:301-305 | DOWN/S sets change_y to -10 on a ladder and halves the height off a ladder; nothing else changes |
| KeyRules.DownRelease | game_mymap.py:312-316 | releasing DOWN/S off a ladder doubles the height and changes nothing else |
| KeyRules.CrouchRoundTrip | game_mymap.py:301-316 | pressing then releasing DOWN/S off a ladder restores the original controls, height included |
| KeyRules.CrouchReleasedOnLadder | game_mymap.py:301-316 | a crouch pressed off a ladder and released on one leaves the height halved and change_y 0 |
| KeyRules.ReleaseStops | game_mymap.py:317-320 | releasing LEFT/A/RIGHT/D sets change_x to 0 and nothing else |
| KeyRules.ReleaseOnLadder | game_mymap.py:309-314 | on a ladder, releasing UP/W/DOWN/S sets change_y to 0 and nothing else |
| KeyRules.ReleaseNoEffect | game_mymap.py:307-320 | releasing SPACE or an unhandled key, or UP/W off a ladder, changes nothing |
| KeyRules.BalancedHorizontal | game_mymap.py:297-320 | pressing and releasing the same horizontal key leaves change_x at 0, whatever the ladder state |
| Window.MyGame.OnKeyPress | game_mymap.py:288-305 | the player's velocity, height and the jump counter become `Press` of their old values |
| Window.MyGame.OnKeyRelease | game_mymap.py:307-320 | the player's velocity and height become `Release` of their old values |
| CameraRules.CameraTarget | game_mymap.py:324-333 | a camera coordinate is the least value that is both >= 0 and >= position minus half the viewport |
| CameraRules.CameraCentres | game_mymap.py:325-332 | the camera sits at position minus half the viewport exactly when that difference is non-negative |
| CameraRules.CameraMonotone | game_mymap.py:325-332 | a player further along never has the camera further back |
| Window.MyGame.CenterCameraToPlayer | game_mymap.py:324-335 | the camera moves to `CameraTarget` of the player's x (viewport width 1000) and y (viewport height 650) |
| Progression.EndOfMap | game_mymap.py:256-257 | the map edge is 64 pixels per tile of map width, and is non-negative |
| Progression.Without | game_mymap.py:363-365 | removing a coin leaves exactly the other coins, changes nothing if the coin is absent, and shrinks a duplicate-free layer by one |
| Progression.Remaining | game_mymap.py:357-369 | after the hit coins are removed in turn, exactly the layer coins that were not hit remain. For a duplicate-free layer and hit list within it, the layer shrinks by the number of hits |
| Progression.Collect | game_mymap.py:357-369 | the score rises by the length of the hit list, exactly the hit coins leave the layer, and nothing else changes |
| Progression.CollectExactly | game_mymap.py:357-369 | when each hit coin is in the layer and is reported once, the score gain equals the number of coins that left the layer |
| Window.MyGame.CollectCoins | game_mymap.py:362-369 | the loop leaves the layer equal to `Remaining` of the old layer and raises the score by the number of hits |
| Progression.SetupSession | game_mymap.py:220-223 | after setup the flag is set and the level is kept. The score is 0 if the flag was set before and unchanged otherwise |
| Progression.SetupTwice | game_mymap.py:220-223 | two setups in a row always leave the score at 0 |
| Progression.SetupWorld | game_mymap.py:220-257 | setup applies the score rule and puts a still player at (256, 225). It loads the map's coins and edge and starts a fresh jump counter |
| Window.MyGame.Setup | game_mymap.py:164-257 | the game's state becomes `SetupWorld` of the old session and the current level's map. The player is a new unanimated sprite and the camera is back at (0, 0) |
| Progression.Advance | game_mymap.py:392-401 | advancing counts the level up and sets it up with the score kept and the flag set again |
| Progression.StartBody | game_mymap.py:230-232 | a new player stands still at (256, 225) with the sprite's base height |
| Progression.HazardCheck | game_mymap.py:380-390 | on contact: the session is set up again, the player stands still at the start, and the level's map and a fresh counter are loaded; otherwise nothing changes (see `HazardResets`) |
| Progression.EdgeCheck | game_mymap.py:391-401 | at x >= end_of_map: the next level is set up with the score kept and the player at the start; otherwise nothing changes (see `EdgeAdvances`) |
| Progression.EndCheck | game_mymap.py:403-408 | on End contact: the next level is set up with the score kept and the player at the start; otherwise nothing changes (see `EndAdvances`) |
| Progression.Progress | game_mymap.py:373-408 | the four checks in order. The level rises by at most two, the flag stays set, and without a hazard the score is kept (see `ProgressScore`, `ProgressLevel`) |
| Progression.Frame | game_mymap.py:337-408 | engine step, coins, then the checks. The level rises by at most two, and without a hazard the score rises by the number of coins hit |
| Progression.Reloads | game_mymap.py:380-408 | when no check sets a level up, the checks amount to the fall rule alone (see `ReloadsResetsBody` for the other case) |
| Progression.FallCheck | game_mymap.py:373-376 | below y = -100 only the position is reset to (256, 225); otherwise nothing changes |
| Progression.ProgressScore | game_mymap.py:380-408 | with the flag set on entry, a frame ends with the flag set. The score is 0 after a hazard and kept otherwise |
| Progression.ProgressLevel | game_mymap.py:391-408 | the level rises by one for the map-edge test and by one for the End test, counting only the tests that fire |
| Progression.QuietFrame | game_mymap.py:373-408 | with no fall, hazard, edge or End contact the checks change nothing |
| Progression.FallOnlyMoves | game_mymap.py:373-378 | falling off with no other condition changes only the position. Velocity, score, level and coins are kept |
| Progression.HazardResets | game_mymap.py:380-390 | a hazard leaves a still player at the start, score 0, the same level and the level's coins reloaded |
| Progression.EdgeAdvances | game_mymap.py:391-401 | reaching the map edge moves to the next level with the score kept and the player at the start |
| Progression.EndAdvances | game_mymap.py:403-408 | touching the End layer moves to the next level with the score kept and the player at the start |
| Progression.HazardBeforeEnd | game_mymap.py:380-408 | with a hazard in the frame the score ends at 0. The level advances iff the End query, asked after the hazard's setup, reports contact |
| Progression.ReloadsResetsBody | game_mymap.py:380-408 | whenever any check sets a level up, the frame ends with a still player at the start and a fresh jump counter |
| Window.MyGame.constructor | game_mymap.py:118-154 | before any setup: level 1, score 0, flag set, map edge 0, no player, and the level maps fixed |
| Window.MyGame.ApplyEngineStep | game_mymap.py:339-355 | the engine's step sets position and velocity and the ladder flag mirrors the engine's query. The animation becomes `Animate` of its old value |
| Window.MyGame.CheckFall | game_mymap.py:373-378 | the game's state becomes `FallCheck` of the old state |
| Window.MyGame.CheckHazard | game_mymap.py:380-390 | the state becomes the hazard rule applied to the old state. On contact the player is replaced, otherwise nothing changes |
| Window.MyGame.CheckMapEdge | game_mymap.py:391-401 | the state becomes the map-edge rule applied to the old state |
| Window.MyGame.CheckEnd | game_mymap.py:403-408 | the state becomes the End rule applied to the old state |
| Window.MyGame.OnUpdate | game_mymap.py:337-408 | a frame turns the state into `Frame` of the old state: engine step, coins, then the fall, hazard, edge and End rules. If no level is set up, the same player holds the new animation and the camera follows it. Otherwise a fresh player stands at the start and the camera is at (0, 0) |
| Window.Launch | game_mymap.py:410-414 | the window opens on level 1 with score 0, set up from level 1's map |

## Left out

- The physics engine (gravity, `PhysicsEnginePlatformer.update`, multi-jump internals): engine code. Its results are the `moved` input, and `is_on_ladder()`/`can_jump()` are boolean inputs.
- The engine's own resets of its jump counter (on ground contact inside `can_jump`) are engine code. The model counts the game's `increment_jump_counter()` calls, and a new engine from `setup` starts at 0.
- Collision detection (`check_for_collision_with_list`): engine code. Its results are the coin hit list and two booleans.
- Tile-map loading (`load_tilemap`, `Scene.from_tilemap`, the level files): file I/O. A level's width in tiles and its coin ids are given by the `maps` function.
- The crash when a level has no map file, or its map has no "Don't Touch" or "End" layer (lines 175, 210, 382, 404 raise, and the program ends): the model assumes every level reached has a map with these layers, because `maps` is total.
- The sprite's height following its texture: in the engine, the texture assigned each frame also resets the sprite's size, so a crouch may be undone at the next frame. The model's height is independent of the texture and is changed only by the DOWN/S keys and setup.
- The Platforms, Ladders, Moving Platforms, Foreground and Background layers, and `scene.update` of moving platforms: only the engine reads them.
- Texture loading and sound loading and playback: foreign I/O. Textures are named by kind and facing index, and sounds are not modelled.
- Drawing (`on_draw`, the score text) and the GUI camera: rendering. Only the scrolling camera's target position is modelled.
- The sprite's texture height, which decides its initial height, comes from an image. It is the `baseHeight` parameter.
- The animation of layers other than the player (`scene.update_animation` on Coins and Background): engine code.
- `arcade.run()` and the event loop: engine code. The callbacks are methods called by the caller.
- `game.py` and `02-Add-sprites/02_add_sprites.py` are not part of this model. They are earlier revisions whose key handling is a subset of the rules modelled here.
- Window.Launch: covers `main()` up to the first setup only.
