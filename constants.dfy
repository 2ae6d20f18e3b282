/** The game's tuning constants, as exact numbers. */
module Constants {
  /** Window size; the scrolling camera's viewport has the same size. */
  const ScreenWidth: real := 1000.0
  const ScreenHeight: real := 650.0

  /** Movement speed in pixels per frame, and the vertical speed of a jump. */
  const PlayerMovementSpeed: real := 10.0
  const PlayerJumpSpeed: real := 15.0

  /** One tile of the map is this many pixels wide once scaled. */
  const SpritePixelSize: real := 128.0
  const TileScaling: real := 0.5
  const GridPixelSize: real := SpritePixelSize * TileScaling

  /** Where the player is put at the start of a level and after falling off. */
  const PlayerStartX: real := 256.0
  const PlayerStartY: real := 225.0

  /** A player whose centre is below this height has fallen off the map. */
  const FallLimit: real := -100.0

  /** Index of the texture in a left/right pair. */
  const TextureLeft: int := 0
  const TextureRight: int := 1
}
