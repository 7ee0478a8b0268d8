/**
 * The 2D movement controller `Player2DControl` (WalkAndRun.cs).
 *
 * The controller is driven by the engine's callbacks: `Start` once, `Update`
 * every rendered frame, `FixedUpdate` every physics step, and the collision
 * callbacks whenever contact with another collider persists or ends. The
 * controller's own state lives in the class `Player2DControl`; the rigid body
 * it steers is a separate object, `Rigidbody2D`, whose velocity, damping,
 * gravity scale and rotation constraint the controller overwrites in place.
 *
 * Engine singletons become parameters: the keys held in a frame
 * (`FrameKeys`), whether the boost/jump key is held during a physics step, and
 * the tag of the collider in a collision callback.
 */
module PlayerControl {

  /** Axis mode: a side-on platformer (`OnlyX`) or free top-down movement (`XAndY`). */
  datatype ProjectAxis = OnlyX | XAndY

  datatype Vec2 = Vec2(x: real, y: real)

  function Plus(a: Vec2, b: Vec2): Vec2 { Vec2(a.x + b.x, a.y + b.y) }

  function Scaled(a: Vec2, k: real): Vec2 { Vec2(a.x * k, a.y * k) }

  /** The rigid body's rotation constraint. */
  datatype Constraints = NoConstraints | FreezeRotation

  /**
   * What the input system reports in one rendered frame for the five bound
   * keys: whether up/down/left/right are held, and whether the boost key went
   * down or came up during this frame.
   */
  datatype FrameKeys = FrameKeys(up: bool, down: bool, left: bool, right: bool,
                                 boostDown: bool, boostUp: bool)

  const GroundTag: string := "Ground"
  /** Damping while resting on ground, and in free (XAndY) movement. */
  const HighDamping: real := 10.0
  /** `speed` is divided by this to give the velocity bound. */
  const SpeedToVelocity: real := 100.0
  const DefaultSpeed: real := 150.0
  const DefaultAddForce: real := 7.0

  function Abs(x: real): real { if x < 0.0 then -x else x }

  /** The engine's sign function: 1 for zero and positive values, -1 for negative ones. */
  function Sign(x: real): (s: real)
    ensures s == 1.0 || s == -1.0
    ensures s == 1.0 <==> x >= 0.0
  {
    if x >= 0.0 then 1.0 else -1.0
  }

  predicate IsAxisInput(v: real) { v == -1.0 || v == 0.0 || v == 1.0 }

  /** Vertical input: the up key wins over the down key. */
  function VerticalInput(upHeld: bool, downHeld: bool): (v: real)
    ensures IsAxisInput(v)
    ensures v == 1.0 <==> upHeld
    ensures v == -1.0 <==> !upHeld && downHeld
  {
    if upHeld then 1.0 else if downHeld then -1.0 else 0.0
  }

  /** Horizontal input: the left key wins over the right key. */
  function HorizontalInput(leftHeld: bool, rightHeld: bool): (h: real)
    ensures IsAxisInput(h)
    ensures h == -1.0 <==> leftHeld
    ensures h == 1.0 <==> !leftHeld && rightHeld
  {
    if leftHeld then -1.0 else if rightHeld then 1.0 else 0.0
  }

  /** The movement direction for the axis mode and the decoded inputs. */
  function MoveDirection(axis: ProjectAxis, horizontal: real, vertical: real): Vec2
  {
    if axis == OnlyX then Vec2(horizontal, 0.0)
    else Vec2(horizontal, vertical)
  }

  /**
   * `speed` after one frame: in XAndY mode a boost-key press adds `addForce`,
   * a release (checked only when there was no press) subtracts it; in OnlyX
   * mode the speed is never touched.
   */
  function BoostedSpeed(axis: ProjectAxis, speed: real, addForce: real,
                        boostDown: bool, boostUp: bool): (s: real)
    ensures axis == OnlyX ==> s == speed
    ensures !boostDown && !boostUp ==> s == speed
    ensures axis == XAndY && boostDown ==> s == speed + addForce
    ensures axis == XAndY && !boostDown && boostUp ==> s == speed - addForce
  {
    if axis == OnlyX then speed
    else if boostDown then speed + addForce
    else if boostUp then speed - addForce
    else speed
  }

  /** The facing flag after `Flip`: toggled in OnlyX mode, a no-op in XAndY mode. */
  function Flipped(axis: ProjectAxis, facingRight: bool): bool
  {
    if axis == OnlyX then !facingRight else facingRight
  }

  /**
   * The facing flag after one frame: `Flip` is called when the horizontal
   * input points away from the current facing.
   */
  function FacingAfter(axis: ProjectAxis, facingRight: bool, horizontal: real): (f: bool)
    ensures axis == OnlyX && horizontal > 0.0 ==> f
    ensures axis == OnlyX && horizontal < 0.0 ==> !f
    ensures axis == XAndY || horizontal == 0.0 ==> f == facingRight
  {
    if horizontal > 0.0 && !facingRight then Flipped(axis, facingRight)
    else if horizontal < 0.0 && facingRight then Flipped(axis, facingRight)
    else facingRight
  }

  /**
   * One velocity component after the clamp of `FixedUpdate`: if its magnitude
   * exceeds `limit`, it is replaced by `limit` carrying the component's sign.
   */
  function ClampComponent(v: real, limit: real): (r: real)
    ensures limit >= 0.0 ==> Abs(r) <= limit
    ensures limit >= 0.0 ==> (r == v <==> Abs(v) <= limit)
    ensures limit >= 0.0 && Abs(v) > limit ==> Abs(r) == limit
    ensures limit >= 0.0 ==> r * v >= 0.0
    ensures limit > 0.0 ==> (r > 0.0 <==> v > 0.0) && (r < 0.0 <==> v < 0.0)
  {
    if Abs(v) > limit then Sign(v) * limit else v
  }

  /**
   * The body's velocity after the controller's assignments in one physics
   * step: the x clamp, then either the y clamp (XAndY) or the jump (OnlyX),
   * which sets vy to `addForce` while the key is held and the body is grounded.
   */
  function FixedStepVelocity(axis: ProjectAxis, v: Vec2, speed: real, addForce: real,
                             jumpHeld: bool, grounded: bool): (r: Vec2)
    ensures r.x == ClampComponent(v.x, speed / SpeedToVelocity)
    ensures speed >= 0.0 ==> Abs(r.x) <= speed / SpeedToVelocity
    ensures axis == XAndY ==> r.y == ClampComponent(v.y, speed / SpeedToVelocity)
    ensures axis == XAndY && speed >= 0.0 ==> Abs(r.y) <= speed / SpeedToVelocity
    ensures axis == OnlyX ==> (r.y == addForce <== jumpHeld && grounded)
    ensures axis == OnlyX && !(jumpHeld && grounded) ==> r.y == v.y
  {
    var limit := speed / SpeedToVelocity;
    var vx := ClampComponent(v.x, limit);
    if axis == XAndY then Vec2(vx, ClampComponent(v.y, limit))
    else if jumpHeld && grounded then Vec2(vx, addForce)
    else Vec2(vx, v.y)
  }

  /** The rigid body the controller steers; it belongs to the physics engine. */
  class Rigidbody2D {
    var mass: real
    var velocity: Vec2
    var linearDamping: real
    var gravityScale: real
    var constraints: Constraints
    /** Forces added since the last simulation step; the engine integrates them. */
    var pendingForce: Vec2

    constructor (mass: real, velocity: Vec2)
      ensures this.mass == mass && this.velocity == velocity
      ensures linearDamping == 0.0 && gravityScale == 1.0 && constraints == NoConstraints
      ensures pendingForce == Vec2(0.0, 0.0)
    {
      this.mass := mass;
      this.velocity := velocity;
      linearDamping := 0.0;
      gravityScale := 1.0;
      constraints := NoConstraints;
      pendingForce := Vec2(0.0, 0.0);
    }

    method AddForce(force: Vec2)
      modifies this`pendingForce
      ensures pendingForce == Plus(old(pendingForce), force)
    {
      pendingForce := Plus(pendingForce, force);
    }
  }

  class Player2DControl {
    const projectAxis: ProjectAxis
    var speed: real
    const addForce: real
    var isFacingRight: bool
    var direction: Vec2
    var vertical: real
    var horizontal: real
    /** Grounded: set while touching a "Ground" collider. */
    var jump: bool
    /** The x component of the object's local scale, mirrored by `Flip`. */
    var scaleX: real
    /** The required rigid body component of the same object. */
    const body: Rigidbody2D

    /** The cached inputs are in {-1, 0, 1} and `direction` is built from them. */
    ghost predicate Valid()
      reads this
    {
      IsAxisInput(vertical) && IsAxisInput(horizontal) &&
      direction == MoveDirection(projectAxis, horizontal, vertical)
    }

    /** The facing flag agrees with the sign of the mirrored scale. */
    ghost predicate FacingMatchesScale()
      reads this
    {
      scaleX != 0.0 && (isFacingRight <==> scaleX > 0.0)
    }

    /** A controller with the inspector's values, attached to an object with `body` and scale `scaleX`. */
    constructor (axis: ProjectAxis, speed: real, addForce: real, isFacingRight: bool,
                 body: Rigidbody2D, scaleX: real)
      ensures projectAxis == axis && this.speed == speed && this.addForce == addForce
      ensures this.isFacingRight == isFacingRight && this.body == body && this.scaleX == scaleX
      ensures vertical == 0.0 && horizontal == 0.0 && direction == Vec2(0.0, 0.0) && !jump
      ensures Valid()
    {
      projectAxis := axis;
      this.speed := speed;
      this.addForce := addForce;
      this.isFacingRight := isFacingRight;
      this.body := body;
      this.scaleX := scaleX;
      vertical, horizontal := 0.0, 0.0;
      direction := Vec2(0.0, 0.0);
      jump := false;
    }

    /** A controller with the field initialisers of the source. */
    constructor Default(body: Rigidbody2D, scaleX: real)
      ensures projectAxis == OnlyX && speed == DefaultSpeed && addForce == DefaultAddForce
      ensures isFacingRight && this.body == body && this.scaleX == scaleX
      ensures vertical == 0.0 && horizontal == 0.0 && direction == Vec2(0.0, 0.0) && !jump
      ensures Valid()
    {
      projectAxis := OnlyX;
      speed := DefaultSpeed;
      addForce := DefaultAddForce;
      isFacingRight := true;
      this.body := body;
      this.scaleX := scaleX;
      vertical, horizontal := 0.0, 0.0;
      direction := Vec2(0.0, 0.0);
      jump := false;
    }

    /** Configures the body for the axis mode. */
    method Start()
      modifies body`constraints, body`gravityScale, body`linearDamping
      ensures projectAxis == OnlyX ==>
        body.constraints == FreezeRotation && body.gravityScale == 1.0 && body.linearDamping == 0.0
      ensures projectAxis == XAndY ==>
        body.constraints == NoConstraints && body.gravityScale == 0.0 && body.linearDamping == HighDamping
    {
      if projectAxis == OnlyX {
        body.constraints := FreezeRotation;
      } else {
        body.constraints := NoConstraints;
      }
      if projectAxis == XAndY {
        body.gravityScale := 0.0;
        body.linearDamping := HighDamping;
      } else {
        body.gravityScale := 1.0;
        body.linearDamping := 0.0;
      }
    }

    /** Contact persists with a collider tagged `tag`. */
    method OnCollisionStay2D(tag: string)
      modifies this`jump, body`linearDamping
      ensures tag == GroundTag ==> jump && body.linearDamping == HighDamping
      ensures tag != GroundTag ==> jump == old(jump) && body.linearDamping == old(body.linearDamping)
    {
      if tag == GroundTag {
        body.linearDamping := HighDamping;
        jump := true;
      }
    }

    /** Contact ended with a collider tagged `tag`. */
    method OnCollisionExit2D(tag: string)
      modifies this`jump, body`linearDamping
      ensures tag == GroundTag ==> !jump && body.linearDamping == 0.0
      ensures tag != GroundTag ==> jump == old(jump) && body.linearDamping == old(body.linearDamping)
    {
      if tag == GroundTag {
        body.linearDamping := 0.0;
        jump := false;
      }
    }

    /**
     * One physics step: push along `direction`, then clamp the velocity and,
     * in OnlyX mode, assert the jump velocity while `jumpHeld` and grounded.
     * Because `direction` is built from the decoded inputs, the push in
     * OnlyX mode is purely horizontal.
     */
    method FixedUpdate(jumpHeld: bool)
      requires Valid()
      modifies body`velocity, body`pendingForce
      ensures body.pendingForce == Plus(old(body.pendingForce), old(Scaled(direction, body.mass * speed)))
      ensures projectAxis == OnlyX ==> body.pendingForce.y == old(body.pendingForce.y)
      ensures body.velocity ==
        FixedStepVelocity(projectAxis, old(body.velocity), speed, addForce, jumpHeld, jump)
    {
      Push();
      ClampVelocity(jumpHeld);
    }

    /** The force half of `FixedUpdate`: the push along `direction`. */
    method Push()
      requires Valid()
      modifies body`pendingForce
      ensures body.pendingForce == Plus(old(body.pendingForce), old(Scaled(direction, body.mass * speed)))
      ensures projectAxis == OnlyX ==> body.pendingForce.y == old(body.pendingForce.y)
    {
      var push := Scaled(direction, body.mass * speed);
      assert projectAxis == OnlyX ==> push.y == 0.0;
      body.AddForce(push);
    }

    /** The velocity half of `FixedUpdate`: the clamp and the jump. */
    method ClampVelocity(jumpHeld: bool)
      modifies body`velocity
      ensures body.velocity ==
        FixedStepVelocity(projectAxis, old(body.velocity), speed, addForce, jumpHeld, jump)
    {
      var limit := speed / SpeedToVelocity;
      if Abs(body.velocity.x) > limit {
        body.velocity := Vec2(Sign(body.velocity.x) * limit, body.velocity.y);
      }
      assert body.velocity == Vec2(ClampComponent(old(body.velocity).x, limit), old(body.velocity).y);
      if projectAxis == XAndY {
        if Abs(body.velocity.y) > limit {
          body.velocity := Vec2(body.velocity.x, Sign(body.velocity.y) * limit);
        }
      } else {
        if jumpHeld && jump {
          body.velocity := Vec2(body.velocity.x, addForce);
        }
      }
    }

    /** Mirrors the object horizontally; only in OnlyX mode. */
    method Flip()
      modifies this`isFacingRight, this`scaleX
      ensures isFacingRight == Flipped(projectAxis, old(isFacingRight))
      ensures projectAxis == OnlyX ==> scaleX == -old(scaleX)
      ensures projectAxis == XAndY ==> scaleX == old(scaleX)
      ensures old(FacingMatchesScale()) ==> FacingMatchesScale()
    {
      if projectAxis == OnlyX {
        isFacingRight := !isFacingRight;
        scaleX := -scaleX;
      }
    }

    /** One rendered frame: decode the keys, build `direction`, boost, and turn around. */
    method Update(keys: FrameKeys)
      modifies this`vertical, this`horizontal, this`direction, this`speed
      modifies this`isFacingRight, this`scaleX
      ensures vertical == VerticalInput(keys.up, keys.down)
      ensures horizontal == HorizontalInput(keys.left, keys.right)
      ensures direction == MoveDirection(projectAxis, horizontal, vertical)
      ensures speed == BoostedSpeed(projectAxis, old(speed), addForce, keys.boostDown, keys.boostUp)
      ensures isFacingRight == FacingAfter(projectAxis, old(isFacingRight), horizontal)
      ensures scaleX == if isFacingRight == old(isFacingRight) then old(scaleX) else -old(scaleX)
      ensures Valid()
      ensures old(FacingMatchesScale()) ==> FacingMatchesScale()
    {
      if keys.up { vertical := 1.0; }
      else if keys.down { vertical := -1.0; } else { vertical := 0.0; }
      assert vertical == VerticalInput(keys.up, keys.down);

      if keys.left { horizontal := -1.0; }
      else if keys.right { horizontal := 1.0; } else { horizontal := 0.0; }
      assert horizontal == HorizontalInput(keys.left, keys.right);

      if projectAxis == OnlyX {
        direction := Vec2(horizontal, 0.0);
      } else {
        if keys.boostDown { speed := speed + addForce; }
        else if keys.boostUp { speed := speed - addForce; }
        direction := Vec2(horizontal, vertical);
      }
      assert speed == BoostedSpeed(projectAxis, old(speed), addForce, keys.boostDown, keys.boostUp);

      TurnToInput();
    }

    /** The end of a frame: `Flip` when the horizontal input points away from the facing. */
    method TurnToInput()
      modifies this`isFacingRight, this`scaleX
      ensures isFacingRight == FacingAfter(projectAxis, old(isFacingRight), horizontal)
      ensures scaleX == if isFacingRight == old(isFacingRight) then old(scaleX) else -old(scaleX)
      ensures old(FacingMatchesScale()) ==> FacingMatchesScale()
    {
      if horizontal > 0.0 && !isFacingRight { Flip(); }
      else if horizontal < 0.0 && isFacingRight { Flip(); }
    }
  }

  /** `speed` after a run of frames, one `BoostedSpeed` step per frame. */
  function SpeedAfterFrames(axis: ProjectAxis, speed: real, addForce: real, frames: seq<FrameKeys>): real
    decreases |frames|
  {
    if frames == [] then speed
    else SpeedAfterFrames(axis, BoostedSpeed(axis, speed, addForce, frames[0].boostDown, frames[0].boostUp),
                          addForce, frames[1..])
  }

  /** Frames in which the boost key went down. */
  function Presses(frames: seq<FrameKeys>): nat
  {
    if frames == [] then 0 else (if frames[0].boostDown then 1 else 0) + Presses(frames[1..])
  }

  /** Frames in which the boost key came up (and did not also go down). */
  function Releases(frames: seq<FrameKeys>): nat
  {
    if frames == [] then 0
    else (if !frames[0].boostDown && frames[0].boostUp then 1 else 0) + Releases(frames[1..])
  }

  /** Presses minus releases over a run of frames. */
  function NetPresses(frames: seq<FrameKeys>): int
  {
    Presses(frames) as int - Releases(frames) as int
  }

  /**
   * The boost is additive: over any run of frames in XAndY mode, speed moves
   * by `addForce` per press and back by `addForce` per release.
   */
  lemma {:induction false} SpeedAfterFramesCounts(speed: real, addForce: real, frames: seq<FrameKeys>)
    decreases |frames|
    ensures SpeedAfterFrames(XAndY, speed, addForce, frames)
      == speed + addForce * (NetPresses(frames) as real)
  {
    if frames != [] {
      var f, rest := frames[0], frames[1..];
      var next := BoostedSpeed(XAndY, speed, addForce, f.boostDown, f.boostUp);
      SpeedAfterFramesCounts(next, addForce, rest);
      var d: int := if f.boostDown then 1 else if f.boostUp then -1 else 0;
      assert NetPresses(frames) == d + NetPresses(rest);
      assert next == speed + addForce * (d as real);
      ScaledSum(addForce, d, NetPresses(rest));
    }
  }

  /** In OnlyX mode no run of frames changes `speed`. */
  lemma {:induction false} SpeedFixedInOnlyX(speed: real, addForce: real, frames: seq<FrameKeys>)
    decreases |frames|
    ensures SpeedAfterFrames(OnlyX, speed, addForce, frames) == speed
  {
    if frames != [] {
      SpeedFixedInOnlyX(speed, addForce, frames[1..]);
    }
  }

  lemma ScaledSum(a: real, m: int, n: int)
    ensures a * (m as real) + a * (n as real) == a * ((m + n) as real)
  {
  }

  /** A run with as many releases as presses leaves `speed` where it started. */
  lemma PressReleaseNetZero(axis: ProjectAxis, speed: real, addForce: real, frames: seq<FrameKeys>)
    requires Presses(frames) == Releases(frames)
    ensures SpeedAfterFrames(axis, speed, addForce, frames) == speed
  {
    if axis == XAndY {
      SpeedAfterFramesCounts(speed, addForce, frames);
    } else {
      SpeedFixedInOnlyX(speed, addForce, frames);
    }
  }

  /** The facing flag after a run of frames, one `FacingAfter` step per frame. */
  function FacingAfterFrames(axis: ProjectAxis, facingRight: bool, frames: seq<FrameKeys>): bool
    decreases |frames|
  {
    if frames == [] then facingRight
    else FacingAfterFrames(axis, FacingAfter(axis, facingRight, HorizontalInput(frames[0].left, frames[0].right)),
                           frames[1..])
  }

  /**
   * In OnlyX mode the facing after a run of frames is that of the last frame
   * with horizontal input, and the starting facing if there is none.
   */
  lemma {:induction false} FacingFollowsLastInput(facingRight: bool, frames: seq<FrameKeys>, last: nat)
    requires last < |frames|
    decreases |frames|
    requires HorizontalInput(frames[last].left, frames[last].right) != 0.0
    requires forall j :: last < j < |frames| ==> HorizontalInput(frames[j].left, frames[j].right) == 0.0
    ensures FacingAfterFrames(OnlyX, facingRight, frames)
      == (HorizontalInput(frames[last].left, frames[last].right) > 0.0)
  {
    var f := FacingAfter(OnlyX, facingRight, HorizontalInput(frames[0].left, frames[0].right));
    if last == 0 {
      FacingUnchangedWithoutInput(OnlyX, f, frames[1..]);
    } else {
      FacingFollowsLastInput(f, frames[1..], last - 1);
    }
  }

  /** Frames without horizontal input, or any frames in XAndY mode, never change the facing. */
  lemma {:induction false} FacingUnchangedWithoutInput(axis: ProjectAxis, facingRight: bool, frames: seq<FrameKeys>)
    decreases |frames|
    requires axis == XAndY || forall j :: 0 <= j < |frames| ==> HorizontalInput(frames[j].left, frames[j].right) == 0.0
    ensures FacingAfterFrames(axis, facingRight, frames) == facingRight
  {
    if frames != [] {
      FacingUnchangedWithoutInput(axis, facingRight, frames[1..]);
    }
  }
}
