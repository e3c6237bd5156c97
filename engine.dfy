/**
 * The engine-owned transform of a game object, reduced to what the boids
 * core reads and writes: its world position and its forward direction.
 */
module Engine {
  import opened Vectors

  class Transform {
    var position: Vec3
    /** `transform.forward`; the model never rotates a transform. */
    var forward: Vec3

    constructor (position: Vec3, forward: Vec3)
      ensures this.position == position && this.forward == forward
    {
      this.position := position;
      this.forward := forward;
    }
  }
}
