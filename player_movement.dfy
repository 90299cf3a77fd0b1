/**
 * The player's position on the quest map: every position the service
 * stores is clamped into the map bounds, the bounds follow the canvas with
 * a 50-pixel margin, and the walking speed is kept between 50 and 500
 * pixels per second.
 */
module PlayerMovement {
  import opened Wrappers

  /** A point on the map in pixels. */
  datatype Position = Position(x: int, y: int)

  /** `MAP_BOUNDS`. */
  datatype Bounds = Bounds(minX: int, maxX: int, minY: int, maxY: int)

  datatype Direction = Up | Down | Left | Right | Idle

  const Margin: int := 50
  const MinSpeed: int := 50
  const MaxSpeed: int := 500
  const InitialBounds: Bounds := Bounds(50, 974, 50, 718)
  const InitialPosition: Position := Position(512, 400)
  const InitialSpeed: int := 200

  function Max(a: int, b: int): int { if a >= b then a else b }
  function Min(a: int, b: int): int { if a <= b then a else b }

  /** `Math.max(lo, Math.min(hi, v))`. */
  function ClampTo(lo: int, hi: int, v: int): int { Max(lo, Min(hi, v)) }

  /** Bounds a point can lie within: not inverted on either axis. */
  predicate WellFormed(b: Bounds) { b.minX <= b.maxX && b.minY <= b.maxY }

  predicate InBounds(b: Bounds, p: Position) {
    b.minX <= p.x <= b.maxX && b.minY <= p.y <= b.maxY
  }

  /** `clampPosition(position)`. */
  function ClampPosition(b: Bounds, p: Position): Position {
    Position(ClampTo(b.minX, b.maxX, p.x), ClampTo(b.minY, b.maxY, p.y))
  }

  /** `updateMapBounds(canvasWidth, canvasHeight)`. */
  function BoundsFor(canvasWidth: int, canvasHeight: int): Bounds {
    Bounds(Margin, canvasWidth - Margin, Margin, canvasHeight - Margin)
  }

  /** `Math.max(50, Math.min(500, speed))`. */
  function ClampSpeed(speed: int): int { ClampTo(MinSpeed, MaxSpeed, speed) }

  // ------------------------------------------------------------- clamping

  /**
   * On well-formed bounds a clamped position lies within them; a position
   * already inside is left alone, and on each axis the clamped coordinate
   * is the nearest one in range.
   */
  lemma ClampIntoBounds(b: Bounds, p: Position)
    requires WellFormed(b)
    ensures InBounds(b, ClampPosition(b, p))
    ensures InBounds(b, p) <==> ClampPosition(b, p) == p
    ensures var c := ClampPosition(b, p);
      (p.x < b.minX ==> c.x == b.minX) && (p.x > b.maxX ==> c.x == b.maxX)
      && (p.y < b.minY ==> c.y == b.minY) && (p.y > b.maxY ==> c.y == b.maxY)
  {
  }

  /** Clamping twice is clamping once. */
  lemma ClampIdempotent(b: Bounds, p: Position)
    requires WellFormed(b)
    ensures ClampPosition(b, ClampPosition(b, p)) == ClampPosition(b, p)
  {
    ClampIntoBounds(b, p);
    ClampIntoBounds(b, ClampPosition(b, p));
  }

  /**
   * On an inverted axis `Math.max` wins: the coordinate is always the
   * minimum, which lies beyond the maximum.
   */
  lemma ClampOnInvertedBounds(b: Bounds, p: Position)
    requires b.minX > b.maxX
    ensures ClampPosition(b, p).x == b.minX && !InBounds(b, ClampPosition(b, p))
  {
  }

  /**
   * The bounds are the canvas inset by 50 pixels on every side; they are
   * well formed exactly when the canvas is at least 100 pixels each way.
   */
  lemma BoundsForInset(canvasWidth: int, canvasHeight: int)
    ensures var b := BoundsFor(canvasWidth, canvasHeight);
      b.minX == Margin && canvasWidth - b.maxX == Margin && b.minY == Margin && canvasHeight - b.maxY == Margin
    ensures WellFormed(BoundsFor(canvasWidth, canvasHeight)) <==> canvasWidth >= 2 * Margin && canvasHeight >= 2 * Margin
  {
  }

  /** The speed always ends between 50 and 500, and a speed already in range is kept. */
  lemma ClampSpeedRange(speed: int)
    ensures MinSpeed <= ClampSpeed(speed) <= MaxSpeed
    ensures MinSpeed <= speed <= MaxSpeed <==> ClampSpeed(speed) == speed
  {
  }

  /** The start position lies inside the start bounds, which are those of a 1024 by 768 canvas. */
  lemma InitialStateConsistent()
    ensures InBounds(InitialBounds, InitialPosition) && InitialBounds == BoundsFor(1024, 768)
    ensures ClampSpeed(InitialSpeed) == InitialSpeed
  {
  }

  // --------------------------------------------------------------- state

  /** The service's fields; `published` lists the values sent on `positionSubject`. */
  datatype Movement = Movement(position: Position, targetPosition: Option<Position>, isMoving: bool, moveSpeed: int,
                               direction: Direction, animationFrame: nat, bounds: Bounds, published: seq<Position>)

  /** `setPosition(position)`. */
  function PositionSetIn(m: Movement, p: Position): Movement {
    var c := ClampPosition(m.bounds, p);
    m.(position := c, published := m.published + [c])
  }

  /** `stopMovement()`. */
  function StoppedIn(m: Movement): Movement {
    m.(isMoving := false, targetPosition := None, direction := Idle, animationFrame := 0)
  }

  /** `teleport(position)`: stop, then set the position. */
  function TeleportedIn(m: Movement, p: Position): Movement {
    PositionSetIn(StoppedIn(m), p)
  }

  /**
   * Setting the position stores and publishes the clamped point, which lies
   * within well-formed bounds; nothing else changes.
   */
  lemma SetPositionClamps(m: Movement, p: Position)
    ensures var r := PositionSetIn(m, p);
      r.position == ClampPosition(m.bounds, p) && r.published == m.published + [r.position]
      && r.bounds == m.bounds && r.moveSpeed == m.moveSpeed && r.isMoving == m.isMoving
    ensures WellFormed(m.bounds) ==> InBounds(m.bounds, PositionSetIn(m, p).position)
  {
    if WellFormed(m.bounds) {
      ClampIntoBounds(m.bounds, p);
    }
  }

  /** A teleport leaves the player standing still at the clamped point. */
  lemma TeleportStops(m: Movement, p: Position)
    ensures var r := TeleportedIn(m, p);
      !r.isMoving && r.targetPosition == None && r.direction == Idle && r.animationFrame == 0
      && r.position == ClampPosition(m.bounds, p)
    ensures WellFormed(m.bounds) ==> InBounds(m.bounds, TeleportedIn(m, p).position)
  {
    SetPositionClamps(StoppedIn(m), p);
  }

  class PlayerMovementService {
    var position: Position
    var targetPosition: Option<Position>
    var isMoving: bool
    var moveSpeed: int
    var direction: Direction
    var animationFrame: nat
    var bounds: Bounds
    var published: seq<Position>

    constructor ()
      ensures State() == Movement(InitialPosition, None, false, InitialSpeed, Idle, 0, InitialBounds, [InitialPosition])
    {
      position := InitialPosition;
      targetPosition := None;
      isMoving := false;
      moveSpeed := InitialSpeed;
      direction := Idle;
      animationFrame := 0;
      bounds := InitialBounds;
      published := [InitialPosition];
    }

    function State(): Movement
      reads this
    {
      Movement(position, targetPosition, isMoving, moveSpeed, direction, animationFrame, bounds, published)
    }

    /** `updateMapBounds(canvasWidth, canvasHeight)`: the stored position is not re-clamped. */
    method UpdateMapBounds(canvasWidth: int, canvasHeight: int)
      modifies this
      ensures State() == old(State()).(bounds := BoundsFor(canvasWidth, canvasHeight))
    {
      bounds := Bounds(Margin, canvasWidth - Margin, Margin, canvasHeight - Margin);
    }

    method SetPosition(p: Position)
      modifies this
      ensures State() == PositionSetIn(old(State()), p)
    {
      position := ClampPosition(bounds, p);
      published := published + [position];
    }

    method Stop()
      modifies this
      ensures State() == StoppedIn(old(State()))
    {
      isMoving := false;
      targetPosition := None;
      direction := Idle;
      animationFrame := 0;
    }

    method Teleport(p: Position)
      modifies this
      ensures State() == TeleportedIn(old(State()), p)
    {
      Stop();
      SetPosition(p);
    }

    /** `setMoveSpeed(speed)`. */
    method SetMoveSpeed(speed: int)
      modifies this
      ensures State() == old(State()).(moveSpeed := ClampSpeed(speed))
      ensures MinSpeed <= moveSpeed <= MaxSpeed
    {
      moveSpeed := Max(MinSpeed, Min(MaxSpeed, speed));
      ClampSpeedRange(speed);
    }

    /** `getCurrentPosition()` and `getPosition()`: a copy of the stored position. */
    method GetPosition() returns (p: Position)
      ensures p == position
    {
      p := position;
    }

    /** `getMoveSpeed()`. */
    method GetMoveSpeed() returns (speed: int)
      ensures speed == moveSpeed
    {
      speed := moveSpeed;
    }
  }
}
