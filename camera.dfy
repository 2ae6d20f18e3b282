/** Where the scrolling camera is moved to so that it follows the player. */
module CameraRules {

  /**
   * One camera coordinate: the player coordinate less half the viewport,
   * but never below 0.
   */
  function CameraTarget(p: real, viewport: real): (r: real)
    ensures r >= 0.0 && r >= p - viewport / 2.0
    ensures r == 0.0 || r == p - viewport / 2.0
  {
    var c := p - viewport / 2.0;
    if c < 0.0 then 0.0 else c
  }

  /** The camera centres on the player exactly when the player is past half a viewport. */
  lemma CameraCentres(p: real, viewport: real)
    ensures CameraTarget(p, viewport) == p - viewport / 2.0 <==> p - viewport / 2.0 >= 0.0
  {
  }

  /** A player further along never has the camera further back. */
  lemma CameraMonotone(p: real, q: real, viewport: real)
    requires p <= q
    ensures CameraTarget(p, viewport) <= CameraTarget(q, viewport)
  {
  }
}
