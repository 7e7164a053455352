/** PlayerController: the gravity direction (down or up along Y) flipped by
    the switch key behind a cooldown flag, the velocity reset on a flip, and
    horizontal movement that keeps the speed along the gravity axis. */
module Player {
  import opened Vectors

  // Real-valued helpers for Mathf.Approximately; the integer Max and Min
  // are in Progress.

  function Abs(a: real): real {
    if a < 0.0 then -a else a
  }

  function MaxReal(a: real, b: real): real {
    if a < b then b else a
  }

  /** Mathf.Approximately(a, b) */
  predicate Approximately(a: real, b: real) {
    Abs(b - a) < MaxReal(0.000001 * MaxReal(Abs(a), Abs(b)), MathfEpsilon * 8.0)
  }

  /** An input counts as "no input" exactly when it is smaller in magnitude
      than eight times Mathf.Epsilon. */
  lemma ApproximatelyZero(a: real)
    ensures Approximately(a, 0.0) <==> Abs(a) < MathfEpsilon * 8.0
  {
    if Abs(a) > 0.0 {
      assert 0.000001 * Abs(a) < Abs(a);
    }
  }

  /** The part of the controller the switch logic touches. */
  datatype GravityState = GravityState(direction: Vec3, canChange: bool, velocity: Vec3)

  const Spawned: GravityState := GravityState(Down, true, Zero)

  /** SwitchGravity with gravity on the Y axis: negate the direction and
      drop the vertical part of the velocity. */
  function Switched(s: GravityState): GravityState {
    s.(direction := Negated(s.direction), velocity := Vec3(s.velocity.x, 0.0, s.velocity.z))
  }

  /** HandleGravitySwitchInput in a frame where the key is or is not
      pressed. */
  function OnSwitchKey(s: GravityState, pressed: bool): GravityState {
    if pressed && s.canChange then Switched(s).(canChange := false) else s
  }

  /** ResetGravityCooldown, when the delayed call fires. */
  function OnCooldownElapsed(s: GravityState): GravityState {
    s.(canChange := true)
  }

  /** What can happen to the controller between switches. */
  datatype Event = Frame(switchPressed: bool) | CooldownElapsed

  function Apply(s: GravityState, e: Event): GravityState {
    match e
    case Frame(pressed) => OnSwitchKey(s, pressed)
    case CooldownElapsed => OnCooldownElapsed(s)
  }

  function Run(s: GravityState, events: seq<Event>): GravityState
    decreases |events|
  {
    if events == [] then s else Run(Apply(s, events[0]), events[1..])
  }

  /** Negation keeps a direction on the Y axis. */
  lemma NegatedStaysVertical(g: Vec3)
    requires IsVerticalUnit(g)
    ensures IsVerticalUnit(Negated(g))
  {
  }

  /** Negation turns a direction on the Y axis around. */
  lemma NegatedDiffers(g: Vec3)
    requires IsVerticalUnit(g)
    ensures Negated(g) != g
  {
  }

  /** A switch keeps the direction straight up or straight down. */
  lemma SwitchKeepsVertical(s: GravityState)
    requires IsVerticalUnit(s.direction)
    ensures IsVerticalUnit(Switched(s).direction)
  {
    NegatedStaysVertical(s.direction);
  }

  /** A switch always changes the direction. */
  lemma SwitchChangesDirection(s: GravityState)
    requires IsVerticalUnit(s.direction)
    ensures Switched(s).direction != s.direction
  {
    NegatedDiffers(s.direction);
  }

  /** Two switches restore the direction and leave the velocity with no
      vertical part. */
  lemma SwitchTwiceRestores(s: GravityState)
    ensures Switched(Switched(s)) == s.(velocity := Vec3(s.velocity.x, 0.0, s.velocity.z))
  {
    NegatedTwice(s.direction);
  }

  /** Whatever happens, the direction stays straight up or straight down. */
  lemma {:induction false} RunStaysVertical(s: GravityState, events: seq<Event>)
    requires IsVerticalUnit(s.direction)
    ensures IsVerticalUnit(Run(s, events).direction)
    decreases |events|
  {
    if events != [] {
      var next := Apply(s, events[0]);
      assert IsVerticalUnit(next.direction) by {
        SwitchKeepsVertical(s);
      }
      RunStaysVertical(next, events[1..]);
    }
  }

  predicate NoCooldownReset(events: seq<Event>) {
    forall k :: 0 <= k < |events| ==> events[k].Frame?
  }

  /** While cooling down, key presses change nothing until the cooldown
      reset arrives. */
  lemma {:induction false} CoolingDownIgnoresPresses(s: GravityState, events: seq<Event>)
    requires !s.canChange && NoCooldownReset(events)
    ensures Run(s, events) == s
    decreases |events|
  {
    if events != [] {
      CoolingDownIgnoresPresses(s, events[1..]);
    }
  }

  /** A switch happens in a frame exactly when the key is pressed and the
      flag allows it, and leaves the flag down. */
  lemma SwitchGate(s: GravityState, pressed: bool)
    requires IsVerticalUnit(s.direction)
    ensures OnSwitchKey(s, pressed).direction != s.direction <==> pressed && s.canChange
    ensures pressed && s.canChange ==> !OnSwitchKey(s, pressed).canChange
    ensures !(pressed && s.canChange) ==> OnSwitchKey(s, pressed) == s
  {
    SwitchChangesDirection(s);
  }

  /** With gravity on the Y axis, Right projected on the plane of gravity
      is Right itself, a unit vector, so normalising it changes nothing. */
  lemma PlaneDirectionIsRight(gravity: Vec3)
    requires IsVerticalUnit(gravity)
    ensures SqrMagnitude(ProjectOnPlane(Right, gravity)) == 1.0
    ensures Normalized(ProjectOnPlane(Right, gravity)) == Right
  {
    VerticalProjections(Right, gravity);
  }

  lemma ScaledRight(k: real)
    ensures Scale(Right, k) == Vec3(k, 0.0, 0.0)
  {
  }

  /** A vector along X is perpendicular to a vertical gravity. */
  lemma AlongXPerpendicular(gravity: Vec3, k: real)
    requires IsVerticalUnit(gravity)
    ensures Dot(Vec3(k, 0.0, 0.0), gravity) == 0.0
  {
  }

  /** The horizontal velocity, the normalised movement direction scaled by
      a speed `k`, lies in the plane perpendicular to gravity. */
  lemma HorizontalPerpendicular(gravity: Vec3, k: real)
    requires IsVerticalUnit(gravity)
    ensures SqrMagnitude(ProjectOnPlane(Right, gravity)) == 1.0
    ensures Dot(Scale(Normalized(ProjectOnPlane(Right, gravity)), k), gravity) == 0.0
  {
    PlaneDirectionIsRight(gravity);
    ScaledRight(k);
    AlongXPerpendicular(gravity, k);
  }

  class PlayerController {
    const moveSpeed: real
    var currentGravityDirection: Vec3
    var canChangeGravity: bool
    /** rb.velocity */
    var velocity: Vec3

    function State(): GravityState
      reads this
    {
      GravityState(currentGravityDirection, canChangeGravity, velocity)
    }

    constructor (moveSpeed: real, velocity: Vec3)
      ensures IsVerticalUnit(currentGravityDirection)
      ensures State() == Spawned.(velocity := velocity)
      ensures this.moveSpeed == moveSpeed
    {
      this.moveSpeed := moveSpeed;
      currentGravityDirection := Down;
      canChangeGravity := true;
      this.velocity := velocity;
    }

    /** Called every frame with whether the switch key went down. */
    method HandleGravitySwitchInput(switchPressed: bool)
      requires IsVerticalUnit(currentGravityDirection)
      modifies this
      ensures IsVerticalUnit(currentGravityDirection)
      ensures State() == OnSwitchKey(old(State()), switchPressed)
    {
      if switchPressed && canChangeGravity {
        SwitchGravity();
        canChangeGravity := false;
      }
    }

    method SwitchGravity()
      requires IsVerticalUnit(currentGravityDirection)
      modifies this`currentGravityDirection, this`velocity
      ensures IsVerticalUnit(currentGravityDirection)
      ensures currentGravityDirection == Negated(old(currentGravityDirection))
      ensures velocity == Vec3(old(velocity).x, 0.0, old(velocity).z)
    {
      var newDirection := Negated(currentGravityDirection);
      NegatedStaysVertical(currentGravityDirection);
      VerticalProjections(velocity, newDirection);
      var projected := ProjectOnPlane(velocity, newDirection);
      assert projected == Vec3(velocity.x, 0.0, velocity.z);
      currentGravityDirection := newDirection;
      velocity := projected;
    }

    method ResetGravityCooldown()
      modifies this`canChangeGravity
      ensures State() == OnCooldownElapsed(old(State()))
    {
      canChangeGravity := true;
    }

    /** Called every physics step with Input.GetAxis("Horizontal"); gravity
        stays as it is. */
    method HandleMovement(horizontalInput: real)
      requires IsVerticalUnit(currentGravityDirection)
      modifies this`velocity
      ensures Approximately(horizontalInput, 0.0) ==> velocity == old(velocity)
      ensures !Approximately(horizontalInput, 0.0) ==>
        velocity == Vec3(horizontalInput * moveSpeed, old(velocity).y, 0.0)
    {
      if Approximately(horizontalInput, 0.0) {
        return;
      }
      velocity := MovementVelocity(velocity, currentGravityDirection, horizontalInput * moveSpeed);
    }

    /** The velocity HandleMovement sets for a speed `k` (input times
        moveSpeed): `k` along X, and the old speed along the gravity axis. */
    static method MovementVelocity(velocity: Vec3, gravity: Vec3, k: real) returns (newVelocity: Vec3)
      requires IsVerticalUnit(gravity)
      ensures newVelocity == Vec3(k, velocity.y, 0.0)
    {
      var movementDirection := Right;
      PlaneDirectionIsRight(gravity);
      movementDirection := Normalized(ProjectOnPlane(movementDirection, gravity));
      ScaledRight(k);
      var horizontalVelocity := Scale(movementDirection, k);
      VerticalProjections(velocity, gravity);
      var currentVerticalSpeed := Project(velocity, gravity);
      newVelocity := Add(horizontalVelocity, currentVerticalSpeed);
    }
  }
}
