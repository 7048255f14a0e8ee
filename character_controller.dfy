/** The movement controller of the character (CharacterController2D).
    Physics queries become parameters: the ground probe is the list of the game objects
    of the overlapping colliders, the ceiling probe a boolean.  Everything the controller
    asks of the engine (raising a UnityEvent, writing the rigid body's velocity, adding a
    force) is appended to an effect log, in the order the source performs it. */
module CharacterMotion {

  /** Identity of a game object. */
  type GameObjectId = nat

  /** One request the controller makes of the engine. */
  datatype Effect =
    | Landed                          // OnLandEvent.Invoke()
    | CrouchChanged(crouching: bool)  // OnCrouchEvent.Invoke(crouching)
    | VelocityTarget(x: real)         // velocity smoothed toward (x, current vertical velocity)
    | Impulse(fx: real, fy: real)     // Rigidbody2D.AddForce((fx, fy))

  datatype EffectKind = LandedKind | CrouchKind | VelocityKind | ImpulseKind

  function KindOf(e: Effect): EffectKind
  {
    match e
    case Landed => LandedKind
    case CrouchChanged(_) => CrouchKind
    case VelocityTarget(_) => VelocityKind
    case Impulse(_, _) => ImpulseKind
  }

  /** The effects of one kind, in log order. */
  function OfKind(es: seq<Effect>, k: EffectKind): seq<Effect>
  {
    if es == [] then []
    else (if KindOf(es[0]) == k then [es[0]] else []) + OfKind(es[1..], k)
  }

  lemma {:induction false} OfKindAppend(a: seq<Effect>, b: seq<Effect>, k: EffectKind)
    ensures OfKind(a + b, k) == OfKind(a, k) + OfKind(b, k)
  {
    if a == [] {
      assert a + b == b;
    } else {
      var head := if KindOf(a[0]) == k then [a[0]] else [];
      assert (a + b)[0] == a[0];
      assert (a + b)[1..] == a[1..] + b;
      calc {
        OfKind(a + b, k);
        head + OfKind(a[1..] + b, k);
        { OfKindAppend(a[1..], b, k); }
        head + (OfKind(a[1..], k) + OfKind(b, k));
        (head + OfKind(a[1..], k)) + OfKind(b, k);
        OfKind(a, k) + OfKind(b, k);
      }
    }
  }

  /** `n` Landed events. */
  function Landings(n: nat): (es: seq<Effect>)
    ensures |es| == n
    ensures forall e :: e in es ==> e == Landed
  {
    if n == 0 then [] else Landings(n - 1) + [Landed]
  }

  function Abs(x: real): real
  {
    if x < 0.0 then -x else x
  }

  // ---------------------------------------------------------------------------
  // Ground detection (FixedUpdate)
  // ---------------------------------------------------------------------------

  /** How many of the overlapping colliders belong to another game object than `self`. */
  function OtherColliders(colliders: seq<GameObjectId>, self: GameObjectId): nat
  {
    if colliders == [] then 0
    else
      var n := |colliders| - 1;
      OtherColliders(colliders[..n], self) + (if colliders[n] != self then 1 else 0)
  }

  lemma {:induction false} OtherCollidersPositive(colliders: seq<GameObjectId>, self: GameObjectId)
    ensures OtherColliders(colliders, self) > 0
        <==> exists i :: 0 <= i < |colliders| && colliders[i] != self
  {
    if colliders != [] {
      var n := |colliders| - 1;
      var front := colliders[..n];
      OtherCollidersPositive(front, self);
      if colliders[n] == self {
        if exists i :: 0 <= i < |colliders| && colliders[i] != self {
          var i :| 0 <= i < |colliders| && colliders[i] != self;
          assert i < n && front[i] != self;
        }
        if exists i :: 0 <= i < |front| && front[i] != self {
          var i :| 0 <= i < |front| && front[i] != self;
          assert colliders[i] != self;
        }
      }
    }
  }

  /** Movement state of the controller: its own fields and the two engine objects it writes. */
  datatype CrouchCollider = NoCollider | Collider(enabled: bool)

  datatype MotionState = MotionState(
    grounded: bool,         // m_Grounded
    wasCrouching: bool,     // m_wasCrouching
    facingRight: bool,      // m_FacingRight
    flipX: bool,            // the sprite renderer's flipX
    crouchCollider: CrouchCollider)  // m_CrouchDisableCollider (null: NoCollider)

  /** A new state and the effects, in order, that produced it. */
  datatype Outcome = Outcome(state: MotionState, effects: seq<Effect>)

  /** Serialized settings the logic depends on; the crouch factor carries the [0, 1] range of its field. */
  datatype Settings = Settings(jumpForce: real, crouchSpeed: real, airControl: bool)

  predicate ValidSettings(cfg: Settings)
  {
    0.0 <= cfg.crouchSpeed <= 1.0
  }

  /** One ground probe: grounded again exactly when another game object is under the feet,
      and one Landed per such collider if the character was airborne. */
  function GroundStep(s: MotionState, colliders: seq<GameObjectId>, self: GameObjectId): (r: Outcome)
    ensures r.state.grounded <==> exists i :: 0 <= i < |colliders| && colliders[i] != self
    ensures r.state == s.(grounded := r.state.grounded)
    ensures s.grounded ==> r.effects == []
    ensures !s.grounded ==> |r.effects| == OtherColliders(colliders, self)
    ensures forall e :: e in r.effects ==> e == Landed
  {
    OtherCollidersPositive(colliders, self);
    var others := OtherColliders(colliders, self);
    Outcome(s.(grounded := others > 0), if s.grounded then [] else Landings(others))
  }

  // ---------------------------------------------------------------------------
  // Move
  // ---------------------------------------------------------------------------

  /** The crouch Move acts on: a ceiling over the head keeps the character down. */
  function EffectiveCrouch(crouch: bool, ceilingBlocked: bool): (c: bool)
    ensures c <==> crouch || ceilingBlocked
  {
    if !crouch && ceilingBlocked then true else crouch
  }

  /** Move only steers when on the ground or when air control is on. */
  predicate Controlled(cfg: Settings, s: MotionState)
  {
    s.grounded || cfg.airControl
  }

  /** Multiplying by a factor in [0, 1] keeps the sign and does not grow the magnitude. */
  lemma ScaleBounds(x: real, k: real)
    requires 0.0 <= x && 0.0 <= k <= 1.0
    ensures 0.0 <= x * k <= x
    ensures 0.0 < x && 0.0 < k ==> 0.0 < x * k
  {
    assert x - x * k == x * (1.0 - k);
  }

  lemma ScaleKeepsSign(x: real, k: real)
    requires 0.0 <= k <= 1.0
    ensures Abs(x * k) <= Abs(x)
    ensures x * k > 0.0 ==> x > 0.0
    ensures x * k < 0.0 ==> x < 0.0
    ensures k > 0.0 ==> (x * k > 0.0 <==> x > 0.0) && (x * k < 0.0 <==> x < 0.0)
    ensures k == 0.0 ==> x * k == 0.0
  {
    if x >= 0.0 {
      ScaleBounds(x, k);
    } else {
      ScaleBounds(-x, k);
      assert (-x) * k == -(x * k);
    }
  }

  /** The horizontal move after the crouch slow-down: never reversed, never larger, and with a
      non-zero factor of the same sign as the input. */
  function ScaledMove(cfg: Settings, move: real, crouching: bool): (m: real)
    requires ValidSettings(cfg)
    ensures !crouching ==> m == move
    ensures crouching ==> m == move * cfg.crouchSpeed
    ensures Abs(m) <= Abs(move)
    ensures m > 0.0 ==> move > 0.0
    ensures m < 0.0 ==> move < 0.0
    ensures cfg.crouchSpeed > 0.0 ==> (m > 0.0 <==> move > 0.0) && (m < 0.0 <==> move < 0.0)
  {
    if crouching then
      ScaleKeepsSign(move, cfg.crouchSpeed);
      move * cfg.crouchSpeed
    else move
  }

  /** The input points away from where the character is facing. */
  predicate NeedsFlip(m: real, facingRight: bool)
  {
    (m > 0.0 && !facingRight) || (m < 0.0 && facingRight)
  }

  /** Flip: turn around and mirror the sprite accordingly. */
  function Flipped(s: MotionState): (t: MotionState)
    ensures t.facingRight == !s.facingRight
    ensures t.flipX == !t.facingRight
    ensures t == s.(facingRight := t.facingRight, flipX := t.flipX)
  {
    var right := !s.facingRight;
    s.(facingRight := right, flipX := if right then false else true)
  }

  lemma OfKindAppendAll(a: seq<Effect>, b: seq<Effect>)
    ensures forall k :: OfKind(a + b, k) == OfKind(a, k) + OfKind(b, k)
  {
    forall k {
      OfKindAppend(a, b, k);
    }
  }

  lemma OfKindSingleAll(e: Effect)
    ensures forall k :: OfKind([e], k) == if KindOf(e) == k then [e] else []
  {
    forall k {
      OfKindSingle(e, k);
    }
  }

  lemma OfKindSingle(e: Effect, k: EffectKind)
    ensures OfKind([e], k) == if KindOf(e) == k then [e] else []
  {
    assert [e][1..] == [];
  }

  /** The crouch event Move raises when the effective crouch differs from the remembered one. */
  function CrouchEdge(wasCrouching: bool, crouching: bool): (edge: seq<Effect>)
    ensures edge == if crouching != wasCrouching then [CrouchChanged(crouching)] else []
  {
    if crouching then (if !wasCrouching then [CrouchChanged(true)] else [])
    else (if wasCrouching then [CrouchChanged(false)] else [])
  }

  /** The flip decision of Move: face the way a non-zero move points, and only turn when needed. */
  function Turn(s: MotionState, m: real): (t: MotionState)
    ensures m > 0.0 ==> t.facingRight
    ensures m < 0.0 ==> !t.facingRight
    ensures m == 0.0 ==> t == s
    ensures t.facingRight == s.facingRight ==> t == s
    ensures t.facingRight != s.facingRight ==> t.flipX == !t.facingRight
    ensures t == s.(facingRight := t.facingRight, flipX := t.flipX)
  {
    if NeedsFlip(m, s.facingRight) then Flipped(s) else s
  }

  /** The crouch part of Move: remember the crouch and switch the collider off while crouching. */
  function Crouched(s: MotionState, crouching: bool): (t: MotionState)
    ensures t.wasCrouching == crouching
    ensures t.crouchCollider.NoCollider? <==> s.crouchCollider.NoCollider?
    ensures t.crouchCollider.Collider? ==> t.crouchCollider.enabled == !crouching
    ensures t == s.(wasCrouching := t.wasCrouching, crouchCollider := t.crouchCollider)
  {
    var collider := match s.crouchCollider
      case NoCollider => NoCollider
      case Collider(_) => Collider(!crouching);
    s.(wasCrouching := crouching, crouchCollider := collider)
  }

  /** The controlled part of Move, given the effective crouch and the already scaled move `m`:
      crouch edge, collider, velocity write, flip. */
  function Steer(s: MotionState, m: real, crouching: bool): Outcome
  {
    Outcome(Turn(Crouched(s, crouching), m), CrouchEdge(s.wasCrouching, crouching) + [VelocityTarget(m * 10.0)])
  }

  /** The jump part of Move: leave the ground and push up once. */
  function Leap(cfg: Settings, o: Outcome, jumps: bool): Outcome
  {
    if jumps then Outcome(o.state.(grounded := false), o.effects + [Impulse(0.0, cfg.jumpForce)]) else o
  }

  /** One call of Move(move, crouch, jump) with the ceiling probe's answer; its effects are
      described by MoveStepEffects and its facing by MoveFacing. */
  function MoveStep(cfg: Settings, s: MotionState, move: real, crouch: bool, jump: bool, ceilingBlocked: bool): (r: Outcome)
    requires ValidSettings(cfg)
    // neither grounded nor air control: nothing at all happens
    ensures !Controlled(cfg, s) ==> r == Outcome(s, [])
    // the effective crouch is remembered
    ensures Controlled(cfg, s) ==> r.state.wasCrouching == EffectiveCrouch(crouch, ceilingBlocked)
    // the crouch collider is on exactly when standing; a missing collider stays missing
    ensures r.state.crouchCollider.NoCollider? <==> s.crouchCollider.NoCollider?
    ensures Controlled(cfg, s) && s.crouchCollider.Collider?
         ==> r.state.crouchCollider.enabled == !EffectiveCrouch(crouch, ceilingBlocked)
    // turning mirrors the sprite; not turning leaves it alone
    ensures r.state.facingRight != s.facingRight ==> r.state.flipX == !r.state.facingRight
    ensures r.state.facingRight == s.facingRight ==> r.state.flipX == s.flipX
    // a jump needs the ground and leaves it
    ensures r.state.grounded == (s.grounded && !jump)
  {
    if Controlled(cfg, s) then
      var crouching := EffectiveCrouch(crouch, ceilingBlocked);
      Leap(cfg, Steer(s, ScaledMove(cfg, move, crouching), crouching), s.grounded && jump)
    else
      // not grounded, so the jump cannot fire either
      Leap(cfg, Outcome(s, []), s.grounded && jump)
  }

  lemma SteerEffects(s: MotionState, m: real, crouching: bool)
    ensures var es := Steer(s, m, crouching).effects;
            && OfKind(es, CrouchKind) == CrouchEdge(s.wasCrouching, crouching)
            && OfKind(es, VelocityKind) == [VelocityTarget(m * 10.0)]
            && OfKind(es, ImpulseKind) == []
            && OfKind(es, LandedKind) == []
  {
    var edge := CrouchEdge(s.wasCrouching, crouching);
    var v := VelocityTarget(m * 10.0);
    OfKindAppendAll(edge, [v]);
    OfKindSingleAll(v);
    if edge != [] {
      OfKindSingleAll(edge[0]);
    }
  }

  lemma LeapEffects(cfg: Settings, o: Outcome, jumps: bool, k: EffectKind)
    ensures OfKind(Leap(cfg, o, jumps).effects, k)
         == OfKind(o.effects, k) + (if jumps && k == ImpulseKind then [Impulse(0.0, cfg.jumpForce)] else [])
  {
    if jumps {
      OfKindAppend(o.effects, [Impulse(0.0, cfg.jumpForce)], k);
      OfKindSingle(Impulse(0.0, cfg.jumpForce), k);
    }
  }

  /** What Move asks of the engine, kind by kind: a crouch event only on an edge of the effective
      crouch, one velocity write per controlled step, one impulse per grounded jump, no Landed. */
  lemma MoveStepEffects(cfg: Settings, s: MotionState, move: real, crouch: bool, jump: bool, ceilingBlocked: bool)
    requires ValidSettings(cfg)
    ensures var r := MoveStep(cfg, s, move, crouch, jump, ceilingBlocked);
            var c := EffectiveCrouch(crouch, ceilingBlocked);
            && OfKind(r.effects, CrouchKind)
               == (if Controlled(cfg, s) && c != s.wasCrouching then [CrouchChanged(c)] else [])
            && OfKind(r.effects, VelocityKind)
               == (if Controlled(cfg, s) then [VelocityTarget(ScaledMove(cfg, move, c) * 10.0)] else [])
            && OfKind(r.effects, ImpulseKind)
               == (if s.grounded && jump then [Impulse(0.0, cfg.jumpForce)] else [])
            && OfKind(r.effects, LandedKind) == []
  {
    var c := EffectiveCrouch(crouch, ceilingBlocked);
    var steered := if Controlled(cfg, s) then Steer(s, ScaledMove(cfg, move, c), c) else Outcome(s, []);
    if Controlled(cfg, s) {
      SteerEffects(s, ScaledMove(cfg, move, c), c);
    }
    LeapEffects(cfg, steered, s.grounded && jump, CrouchKind);
    LeapEffects(cfg, steered, s.grounded && jump, VelocityKind);
    LeapEffects(cfg, steered, s.grounded && jump, ImpulseKind);
    LeapEffects(cfg, steered, s.grounded && jump, LandedKind);
  }

  /** Facing after Move follows the sign of the scaled move; a zero move or an uncontrolled step keeps it. */
  lemma MoveFacing(cfg: Settings, s: MotionState, move: real, crouch: bool, jump: bool, ceilingBlocked: bool)
    requires ValidSettings(cfg)
    ensures var m := ScaledMove(cfg, move, EffectiveCrouch(crouch, ceilingBlocked));
            var t := MoveStep(cfg, s, move, crouch, jump, ceilingBlocked).state;
            (Controlled(cfg, s) && m != 0.0 ==> t.facingRight == (m > 0.0)) &&
            (!Controlled(cfg, s) || m == 0.0 ==> t.facingRight == s.facingRight && t.flipX == s.flipX)
  {
  }

  // ---------------------------------------------------------------------------
  // Engine objects the controller writes and the controller itself
  // ---------------------------------------------------------------------------

  class SpriteRenderer {
    var flipX: bool

    constructor (flipX: bool)
      ensures this.flipX == flipX
    {
      this.flipX := flipX;
    }
  }

  class Collider2D {
    var enabled: bool

    constructor (enabled: bool)
      ensures this.enabled == enabled
    {
      this.enabled := enabled;
    }
  }

  class CharacterController2D {
    const settings: Settings
    /** The game object the controller is attached to. */
    const gameObject: GameObjectId
    const sprite: SpriteRenderer
    /** The collider disabled while crouching; it may be unset. */
    const crouchDisableCollider: Collider2D?

    var grounded: bool
    var wasCrouching: bool
    var facingRight: bool
    /** Everything the controller has asked of the engine so far. */
    var effects: seq<Effect>

    predicate Valid()
    {
      ValidSettings(settings)
    }

    function State(): MotionState
      reads this, sprite, crouchDisableCollider
    {
      MotionState(grounded, wasCrouching, facingRight, sprite.flipX,
                  if crouchDisableCollider == null then NoCollider else Collider(crouchDisableCollider.enabled))
    }

    /** Field initialisers plus the wiring Awake does. */
    constructor (settings: Settings, gameObject: GameObjectId, sprite: SpriteRenderer, crouchDisableCollider: Collider2D?)
      requires ValidSettings(settings)
      ensures Valid()
      ensures this.settings == settings && this.gameObject == gameObject
      ensures this.sprite == sprite && this.crouchDisableCollider == crouchDisableCollider
      ensures !grounded && !wasCrouching && facingRight && effects == []
    {
      this.settings := settings;
      this.gameObject := gameObject;
      this.sprite := sprite;
      this.crouchDisableCollider := crouchDisableCollider;
      grounded := false;
      wasCrouching := false;
      facingRight := true;
      effects := [];
    }

    /** Ground detection over the colliders the ground probe overlaps. */
    method FixedUpdate(colliders: seq<GameObjectId>)
      modifies this
      ensures State() == GroundStep(old(State()), colliders, gameObject).state
      ensures effects == old(effects) + GroundStep(old(State()), colliders, gameObject).effects
    {
      var wasGrounded := grounded;
      grounded := false;
      var i := 0;
      while i < |colliders|
        invariant 0 <= i <= |colliders|
        invariant wasCrouching == old(wasCrouching) && facingRight == old(facingRight)
        invariant grounded == (OtherColliders(colliders[..i], gameObject) > 0)
        invariant effects == old(effects)
          + (if wasGrounded then [] else Landings(OtherColliders(colliders[..i], gameObject)))
      {
        assert colliders[..i + 1][..i] == colliders[..i];
        if colliders[i] != gameObject {
          grounded := true;
          if !wasGrounded {
            effects := effects + [Landed];
          }
        }
        i := i + 1;
      }
      assert colliders[..i] == colliders;
      assert State() == old(State()).(grounded := grounded);
    }

    method Move(move: real, crouch: bool, jump: bool, ceilingBlocked: bool)
      requires Valid()
      modifies this, sprite, crouchDisableCollider
      ensures State() == MoveStep(settings, old(State()), move, crouch, jump, ceilingBlocked).state
      ensures effects == old(effects) + MoveStep(settings, old(State()), move, crouch, jump, ceilingBlocked).effects
    {
      var crouching := crouch;
      if !crouch {
        if ceilingBlocked {
          crouching := true;
        }
      }

      ghost var s0, e0 := State(), effects;
      ghost var steered := if Controlled(settings, s0)
        then Steer(s0, ScaledMove(settings, move, crouching), crouching) else Outcome(s0, []);
      if grounded || settings.airControl {
        ApplySteering(move, crouching);
      }
      assert State() == steered.state && effects == e0 + steered.effects;

      if grounded && jump {
        grounded := false;
        effects := effects + [Impulse(0.0, settings.jumpForce)];
        assert effects == e0 + (steered.effects + [Impulse(0.0, settings.jumpForce)]);
      }
    }

    /** The controlled block of Move: crouch handling, velocity write and flip. */
    method ApplySteering(move: real, crouching: bool)
      requires Valid()
      modifies this, sprite, crouchDisableCollider
      ensures State() == Steer(old(State()), ScaledMove(settings, move, crouching), crouching).state
      ensures effects == old(effects) + Steer(old(State()), ScaledMove(settings, move, crouching), crouching).effects
    {
      ghost var s0, e0 := State(), effects;
      ApplyCrouch(crouching);
      ghost var crouched, edge := State(), CrouchEdge(s0.wasCrouching, crouching);
      var m := move;
      if crouching {
        m := m * settings.crouchSpeed;
      }
      assert m == ScaledMove(settings, move, crouching);

      ghost var v := VelocityTarget(m * 10.0);
      effects := effects + [VelocityTarget(m * 10.0)];
      assert effects == e0 + (edge + [v]);
      ghost var e1 := effects;

      if m > 0.0 && !facingRight {
        Flip();
      } else if m < 0.0 && facingRight {
        Flip();
      }
      assert effects == e1;
      assert State() == Turn(crouched, m);
      ghost var st := Steer(s0, m, crouching);
      assert st.effects == edge + [v];
    }

    /** Crouch handling of Move: edge event, remembered crouch, collider switch. */
    method ApplyCrouch(crouching: bool)
      modifies this, crouchDisableCollider
      ensures State() == Crouched(old(State()), crouching)
      ensures effects == old(effects) + CrouchEdge(old(wasCrouching), crouching)
    {
      if crouching {
        if !wasCrouching {
          wasCrouching := true;
          effects := effects + [CrouchChanged(true)];
        }
        if crouchDisableCollider != null {
          crouchDisableCollider.enabled := false;
        }
      } else {
        if crouchDisableCollider != null {
          crouchDisableCollider.enabled := true;
        }
        if wasCrouching {
          wasCrouching := false;
          effects := effects + [CrouchChanged(false)];
        }
      }
    }

    method Flip()
      modifies this, sprite
      ensures State() == Flipped(old(State()))
      ensures effects == old(effects)
    {
      facingRight := !facingRight;
      if facingRight {
        sprite.flipX := false;
      } else {
        sprite.flipX := true;
      }
    }
  }
}
