/** The game objects, as far as the octree looks at them. */
module Objects {
  import opened Geometry

  class GameObject {
    var box: Box
    var dirty: bool
    var marked: bool
    const noun: nat

    constructor (box: Box, noun: nat)
      ensures this.box == box && this.noun == noun && !dirty && !marked
    {
      this.box, this.noun, dirty, marked := box, noun, false, false;
    }

    /** `SetPositionSimulated`: the octree hears of a move through the dirty flag. */
    method SetPosition(position: Vec3)
      modifies this`box, this`dirty
      ensures box == old(box).(center := position)
      ensures dirty == (old(dirty) || box != old(box))
    {
      var moved := position != box.center;
      box := box.(center := position);
      if moved {
        dirty := true;
      }
    }

    method SetExtent(extent: Vec3)
      modifies this`box, this`dirty
      ensures box.center == old(box).center && box.NonNegative()
      ensures extent.Magnitude() == box.extent
      ensures old(dirty) ==> dirty
      ensures old(box).NonNegative() ==> dirty || box == old(box)
    {
      var resized := extent != box.extent;
      box := box.(extent := extent.Magnitude());
      if resized {
        dirty := true;
      }
    }
  }
}
