/** The input relay (PlayerMovement): it samples the input device once per frame, keeps the
    pending intent, mirrors it into the animator, and forwards it to the controller on every
    physics step.  The input device's answers for one frame arrive as a FrameInput. */
module PlayerInput {
  import opened CharacterMotion

  /** The animator parameters the script sets. */
  class Animator {
    var speed: real        // "Speed"
    var isJumping: bool    // "IsJumping"
    var isCrouching: bool  // "IsCrouching"

    constructor ()
      ensures speed == 0.0 && !isJumping && !isCrouching
    {
      speed := 0.0;
      isJumping := false;
      isCrouching := false;
    }
  }

  /** What the input device reports in one frame: the raw horizontal axis and the button edges. */
  datatype FrameInput = FrameInput(axis: real, jumpDown: bool, crouchDown: bool, crouchUp: bool)

  /** The pending intent: m_HorizontalMove, m_Jump and m_Crouch. */
  datatype Intent = Intent(horizontalMove: real, jump: bool, crouch: bool)

  /** The intent after one frame: the move follows the axis, a jump press latches, and the
      crouch level follows the crouch button's edges, a press winning over a release. */
  function FrameIntent(runSpeed: real, it: Intent, f: FrameInput): (r: Intent)
    ensures r.horizontalMove == f.axis * runSpeed
    ensures r.jump <==> it.jump || f.jumpDown
    ensures r.crouch <==> f.crouchDown || (it.crouch && !f.crouchUp)
  {
    Intent(f.axis * runSpeed,
           if f.jumpDown then true else it.jump,
           if f.crouchDown then true else if f.crouchUp then false else it.crouch)
  }

  /** The intent after several frames with no physics step in between. */
  function Frames(runSpeed: real, it: Intent, fs: seq<FrameInput>): Intent
    decreases |fs|
  {
    if fs == [] then it
    else FrameIntent(runSpeed, Frames(runSpeed, it, fs[..|fs| - 1]), fs[|fs| - 1])
  }

  /** The horizontal move a physics step forwards to Move: the per-second move over one step. */
  function ForwardedMove(horizontalMove: real, fixedDeltaTime: real): real
  {
    horizontalMove * fixedDeltaTime
  }

  /** A frame that takes the crouch level down. */
  predicate Releases(f: FrameInput)
  {
    f.crouchUp && !f.crouchDown
  }

  /** The jump flag stays latched across frames: it is set after several frames exactly when it
      was set before or one of the frames pressed jump. */
  lemma {:induction false} JumpStaysLatched(runSpeed: real, it: Intent, fs: seq<FrameInput>)
    ensures Frames(runSpeed, it, fs).jump <==> it.jump || exists i :: 0 <= i < |fs| && fs[i].jumpDown
    decreases |fs|
  {
    if fs != [] {
      var n := |fs| - 1;
      var front := fs[..n];
      JumpStaysLatched(runSpeed, it, front);
      if exists i :: 0 <= i < |fs| && fs[i].jumpDown {
        var i :| 0 <= i < |fs| && fs[i].jumpDown;
        if i < n {
          assert front[i].jumpDown;
        }
      }
      if exists i :: 0 <= i < |front| && front[i].jumpDown {
        var i :| 0 <= i < |front| && front[i].jumpDown;
        assert fs[i].jumpDown;
      }
    }
  }

  /** The crouch level after several frames is set by the last frame with a crouch edge: it is on
      exactly when some frame pressed crouch and no later frame released it, or when it was on
      and no frame released it. */
  lemma {:induction false} CrouchFollowsLastEdge(runSpeed: real, it: Intent, fs: seq<FrameInput>)
    ensures Frames(runSpeed, it, fs).crouch
        <==> (exists i :: 0 <= i < |fs| && fs[i].crouchDown && forall j :: i < j < |fs| ==> !Releases(fs[j]))
             || (it.crouch && forall j :: 0 <= j < |fs| ==> !Releases(fs[j]))
    decreases |fs|
  {
    if fs != [] {
      var n := |fs| - 1;
      var front := fs[..n];
      var last := fs[n];
      CrouchFollowsLastEdge(runSpeed, it, front);
      var before := Frames(runSpeed, it, front).crouch;
      if last.crouchDown {
        // the last frame is a press: it is its own witness
        assert fs[n].crouchDown;
      } else if last.crouchUp {
        // the last frame is a release: no witness survives it
        assert Releases(fs[n]);
      } else {
        // no edge in the last frame: both sides are decided by the earlier frames
        assert !Releases(last);
        if exists i :: 0 <= i < |fs| && fs[i].crouchDown && forall j :: i < j < |fs| ==> !Releases(fs[j]) {
          var i :| 0 <= i < |fs| && fs[i].crouchDown && forall j :: i < j < |fs| ==> !Releases(fs[j]);
          assert i < n;
          assert front[i].crouchDown && forall j :: i < j < |front| ==> !Releases(front[j]);
        }
        if exists i :: 0 <= i < |front| && front[i].crouchDown && forall j :: i < j < |front| ==> !Releases(front[j]) {
          var i :| 0 <= i < |front| && front[i].crouchDown && forall j :: i < j < |front| ==> !Releases(front[j]);
          assert fs[i].crouchDown && forall j :: i < j < |fs| ==> !Releases(fs[j]);
        }
        if it.crouch && forall j :: 0 <= j < |front| ==> !Releases(front[j]) {
          assert forall j :: 0 <= j < |fs| ==> !Releases(fs[j]);
        }
        if forall j :: 0 <= j < |fs| ==> !Releases(fs[j]) {
          assert forall j :: 0 <= j < |front| ==> !Releases(front[j]);
        }
      }
    }
  }

  class PlayerMovement {
    /** m_RunSpeed */
    var runSpeed: real
    const controller: CharacterController2D
    const animator: Animator
    var horizontalMove: real
    var jump: bool
    var crouch: bool

    function Pending(): Intent
      reads this
    {
      Intent(horizontalMove, jump, crouch)
    }

    /** Field initialisers plus the wiring Awake does. */
    constructor (controller: CharacterController2D, animator: Animator)
      ensures this.controller == controller && this.animator == animator
      ensures runSpeed == 40.0 && Pending() == Intent(0.0, false, false)
    {
      this.controller := controller;
      this.animator := animator;
      runSpeed := 40.0;
      horizontalMove := 0.0;
      jump := false;
      crouch := false;
    }

    /** Landing ends the jump animation and nothing else. */
    method OnLanding()
      modifies animator
      ensures !animator.isJumping
      ensures animator.speed == old(animator.speed) && animator.isCrouching == old(animator.isCrouching)
    {
      animator.isJumping := false;
    }

    method OnCrouching(isCrouching: bool)
      modifies animator
      ensures animator.isCrouching == isCrouching
      ensures animator.speed == old(animator.speed) && animator.isJumping == old(animator.isJumping)
    {
      animator.isCrouching := isCrouching;
    }

    /** One frame: sample the input, update the pending intent and the animator. */
    method Update(input: FrameInput)
      modifies this`horizontalMove, this`jump, this`crouch, animator
      ensures Pending() == FrameIntent(runSpeed, old(Pending()), input)
      ensures animator.speed == Abs(horizontalMove) && animator.speed >= 0.0
      ensures animator.isJumping == (input.jumpDown || old(animator.isJumping))
      ensures animator.isCrouching == crouch
    {
      horizontalMove := input.axis * runSpeed;

      animator.speed := Abs(horizontalMove);

      if input.jumpDown {
        jump := true;
        animator.isJumping := true;
      }

      if input.crouchDown {
        crouch := true;
      } else if input.crouchUp {
        crouch := false;
      }

      OnCrouching(crouch);
    }

    /** One physics step: forward the intent to Move, then drop the jump request. */
    method FixedUpdate(fixedDeltaTime: real, ceilingBlocked: bool)
      requires controller.Valid()
      modifies this`jump, controller, controller.sprite, controller.crouchDisableCollider
      ensures !jump
      ensures controller.State()
           == MoveStep(controller.settings, old(controller.State()),
                       ForwardedMove(old(horizontalMove), fixedDeltaTime), old(crouch), old(jump), ceilingBlocked).state
      ensures controller.effects
           == old(controller.effects)
              + MoveStep(controller.settings, old(controller.State()),
                         ForwardedMove(old(horizontalMove), fixedDeltaTime), old(crouch), old(jump), ceilingBlocked).effects
    {
      controller.Move(ForwardedMove(horizontalMove, fixedDeltaTime), crouch, jump, ceilingBlocked);
      jump := false;
    }
  }
}
