/** The camera of Game.update: it eases a tenth of the way toward a point
    30% of the canvas width left of the player, and never shows anything
    left of the world's origin. */
module Camera {
  import opened Geometry

  /** The offset at which the player sits 30% into the view. */
  function CameraTarget(playerX: real): real
  {
    playerX - CANVAS_WIDTH * 0.3
  }

  function FollowCamera(cameraX: real, playerX: real): (r: real)
    ensures r >= 0.0
    ensures r > 0.0 ==> CameraTarget(playerX) - r == 0.9 * (CameraTarget(playerX) - cameraX)
    ensures r == 0.0 ==> cameraX + (CameraTarget(playerX) - cameraX) * 0.1 <= 0.0
  {
    var eased := cameraX + (CameraTarget(playerX) - cameraX) * 0.1;
    if eased < 0.0 then 0.0 else eased
  }

  /** The camera after n ticks with the player standing at playerX. */
  function Follow(cameraX: real, playerX: real, n: nat): real
    decreases n
  {
    if n == 0 then cameraX else Follow(FollowCamera(cameraX, playerX), playerX, n - 1)
  }

  /** With the player standing at the origin the camera returns to offset 0
      and stays there: from offset c it needs at most c / 38.4 ticks. */
  lemma {:induction false} CameraSettlesAtOrigin(cameraX: real, n: nat)
    requires 0.0 <= cameraX <= 38.4 * n as real
    ensures Follow(cameraX, 0.0, n) == 0.0
    decreases n
  {
    if n > 0 {
      var next := FollowCamera(cameraX, 0.0);
      assert next <= 38.4 * (n - 1) as real;
      CameraSettlesAtOrigin(next, n - 1);
    }
  }
}
