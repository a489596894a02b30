/** The point-and-click teleport: on a button-down edge, move the body to the
    floor point under the cursor ray unless furniture is in the way. */
module TeleportModule {
  import opened Wrappers
  import opened Vectors

  /** What the frame offers the teleport: the button-down edge, whether the
      furniture raycast along the cursor ray hit, and the floor raycast's hit
      point if it hit. The engine only asks the floor when the furniture ray
      missed; a floor answer given alongside a furniture hit is ignored. */
  datatype TeleportInput = TeleportInput(buttonDown: bool, furnitureHit: bool, floor: Option<Vec3>)

  /** The body's position after one frame. */
  function Teleport(body: Vec3, inp: TeleportInput): (r: Vec3)
    ensures r.y == body.y
    ensures !inp.buttonDown ==> r == body
    ensures inp.furnitureHit ==> r == body
    ensures inp.floor.None? ==> r == body
    ensures inp.buttonDown && !inp.furnitureHit && inp.floor.Some? ==>
              r.x == inp.floor.value.x && r.z == inp.floor.value.z
  {
    if inp.buttonDown && !inp.furnitureHit && inp.floor.Some? then
      Vec3(inp.floor.value.x, body.y, inp.floor.value.z)
    else
      body
  }

  /** Teleporting twice towards the same hit is the same as teleporting once. */
  lemma TeleportIdempotent(body: Vec3, inp: TeleportInput)
    ensures Teleport(Teleport(body, inp), inp) == Teleport(body, inp)
  {
  }

  /** A furniture hit blocks the move whatever the floor query would answer. */
  lemma FurnitureBlocks(body: Vec3, inp: TeleportInput, floor: Option<Vec3>)
    requires inp.furnitureHit
    ensures Teleport(body, inp) == Teleport(body, inp.(floor := floor)) == body
  {
  }
}
