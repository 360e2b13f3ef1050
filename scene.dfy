/** The scene (Scene): the list of entities to draw and the camera, which the scene
    steers from the keyboard and the mouse. The camera's own motion math is not
    modelled: the camera is the ordered record of the commands it receives. */
module Scenes {
  import opened Input
  import opened Transforms
  import opened Meshes
  import opened Materials
  import opened Seqs

  datatype CameraMovement = Forward | Backward | Left | Right | Up | Down

  /** A command the scene gives the camera: Camera::processKeyboard or
      Camera::processMouseMovement, with its arguments. */
  datatype CameraCommand =
    | ProcessKeyboard(direction: CameraMovement, deltaTime: real)
    | ProcessMouseMovement(xOffset: real, yOffset: real)

  /** An entity: its own copy of a transform, and shared, possibly null, mesh and
      material. */
  datatype Entity = Entity(transform: Transform, mesh: Mesh?, material: Material?)

  /** Where a movement comes in the order Scene::onUpdate checks the keys. */
  function Rank(m: CameraMovement): nat
  {
    match m
    case Forward => 0
    case Backward => 1
    case Left => 2
    case Right => 3
    case Up => 4
    case Down => 5
  }

  /** The movement m if its key is held, else nothing. */
  function Only(held: bool, m: CameraMovement): seq<CameraMovement>
  {
    if held then [m] else []
  }

  /** The movements Scene::onUpdate issues for the keys held down: forward for Up or
      W, backward for Down or S, left for Left or A, right for Right or D, in that
      order. */
  function Movements(held: set<KeyCode>): seq<CameraMovement>
  {
    Only(KEY_UP in held || KEY_W in held, Forward)
    + Only(KEY_DOWN in held || KEY_S in held, Backward)
    + Only(KEY_LEFT in held || KEY_A in held, Left)
    + Only(KEY_RIGHT in held || KEY_D in held, Right)
  }

  /** Each direction is issued exactly when one of its two keys is held, and up and
      down never are. */
  lemma MovementsFollowKeys(held: set<KeyCode>)
    ensures Forward in Movements(held) <==> KEY_UP in held || KEY_W in held
    ensures Backward in Movements(held) <==> KEY_DOWN in held || KEY_S in held
    ensures Left in Movements(held) <==> KEY_LEFT in held || KEY_A in held
    ensures Right in Movements(held) <==> KEY_RIGHT in held || KEY_D in held
    ensures Up !in Movements(held) && Down !in Movements(held)
  {
  }

  /** The directions come in the order forward, backward, left, right. */
  lemma MovementsInOrder(held: set<KeyCode>)
    ensures forall i, j | 0 <= i < j < |Movements(held)| :: Rank(Movements(held)[i]) < Rank(Movements(held)[j])
  {
  }

  /** The keyboard commands for a sequence of movements, each with the frame's time step. */
  function KeyboardCommands(ms: seq<CameraMovement>, dt: real): (cs: seq<CameraCommand>)
    ensures |cs| == |ms|
    ensures forall i | 0 <= i < |ms| :: cs[i] == ProcessKeyboard(ms[i], dt)
  {
    seq(|ms|, i requires 0 <= i < |ms| => ProcessKeyboard(ms[i], dt))
  }

  /** The commands for the four tests of Scene::onUpdate, issued one after the other,
      are the commands for Movements. */
  lemma MovementsCommands(held: set<KeyCode>, dt: real)
    ensures KeyboardCommands(Movements(held), dt)
      == KeyboardCommands(Only(KEY_UP in held || KEY_W in held, Forward), dt)
       + KeyboardCommands(Only(KEY_DOWN in held || KEY_S in held, Backward), dt)
       + KeyboardCommands(Only(KEY_LEFT in held || KEY_A in held, Left), dt)
       + KeyboardCommands(Only(KEY_RIGHT in held || KEY_D in held, Right), dt)
  {
  }

  /** Movements are issued at most once each per frame. */
  lemma MovementsDistinct(held: set<KeyCode>, i: nat, j: nat)
    requires i < j < |Movements(held)|
    ensures Movements(held)[i] != Movements(held)[j]
  {
  }

  class Scene {
    var entities: seq<Entity>
    /** The commands the camera has received, oldest first. */
    ghost var camera: seq<CameraCommand>

    constructor ()
      ensures entities == [] && camera == []
    {
      entities := [];
      camera := [];
    }

    /** Scene::addEntity: append one entity holding a copy of the transform and the
        given mesh and material; the entities already there keep their places. */
    method AddEntity(mesh: Mesh?, material: Material?, transform: Transform)
      modifies this
      ensures |entities| == |old(entities)| + 1
      ensures entities[..|old(entities)|] == old(entities)
      ensures var e := entities[|old(entities)|];
        && e.mesh == mesh && e.material == material
        && fresh(e.transform)
        && e.transform.position == transform.position && e.transform.rotation == transform.rotation
        && e.transform.scale == transform.scale
        && e.transform.dirty == transform.dirty && e.transform.cachedMatrix == transform.cachedMatrix
        && (transform.Valid() ==> e.transform.Valid())
      ensures camera == old(camera)
    {
      var copy := new Transform.CopyOf(transform);
      entities := entities + [Entity(copy, mesh, material)];
    }

    /** Scene::onUpdate: move the camera forward, backward, left and right, in that
        order, for each direction whose key (arrow or W/S/A/D) is held. */
    method OnUpdate(dt: real, held: set<KeyCode>)
      modifies this
      ensures camera == old(camera) + KeyboardCommands(Movements(held), dt)
      ensures entities == old(entities)
    {
      ghost var start := camera;
      ghost var forward := KeyboardCommands(Only(KEY_UP in held || KEY_W in held, Forward), dt);
      ghost var backward := KeyboardCommands(Only(KEY_DOWN in held || KEY_S in held, Backward), dt);
      ghost var left := KeyboardCommands(Only(KEY_LEFT in held || KEY_A in held, Left), dt);
      ghost var right := KeyboardCommands(Only(KEY_RIGHT in held || KEY_D in held, Right), dt);
      MoveWhen(KEY_UP in held || KEY_W in held, Forward, dt);
      MoveWhen(KEY_DOWN in held || KEY_S in held, Backward, dt);
      MoveWhen(KEY_LEFT in held || KEY_A in held, Left, dt);
      MoveWhen(KEY_RIGHT in held || KEY_D in held, Right, dt);
      assert camera == start + forward + backward + left + right;
      MovementsCommands(held, dt);
      AppendAssoc4(start, forward, backward, left, right);
    }

    /** One test of Scene::onUpdate: move the camera in direction m if its key is held. */
    method MoveWhen(held: bool, m: CameraMovement, dt: real)
      modifies this
      ensures camera == old(camera) + KeyboardCommands(Only(held, m), dt)
      ensures entities == old(entities)
    {
      if held {
        camera := camera + [ProcessKeyboard(m, dt)];
      }
    }

    /** Scene::onMouseView: hand both offsets to the camera unchanged. */
    method OnMouseView(xOffset: real, yOffset: real)
      modifies this
      ensures camera == old(camera) + [ProcessMouseMovement(xOffset, yOffset)]
      ensures entities == old(entities)
    {
      camera := camera + [ProcessMouseMovement(xOffset, yOffset)];
    }
  }

  /** Holding W and the left arrow moves the camera forward, then left. */
  method DiagonalScenario(dt: real)
  {
    var scene := new Scene();
    scene.OnUpdate(dt, {KEY_W, KEY_LEFT});
    assert Movements({KEY_W, KEY_LEFT}) == [Forward, Left];
    assert scene.camera == [ProcessKeyboard(Forward, dt), ProcessKeyboard(Left, dt)];
  }
}
