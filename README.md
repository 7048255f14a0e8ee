# 2D platformer character controller, modelled in Dafny

This project models the two gameplay scripts of a Unity 2D platformer character.

- `CharacterController2D` is the movement controller. Each physics step it decides from a ground probe whether the character stands on something, and raises `OnLandEvent` on landing. Its `Move(move, crouch, jump)` call does four things:
  - resolves crouching, which a ceiling forces on;
  - steers when grounded or when air control is on;
  - writes a horizontal velocity target and turns the sprite;
  - pushes the character up once when it jumps from the ground.
- `PlayerMovement` is the input relay. Every frame it samples the input, keeps the pending move, jump and crouch intent, and mirrors them into the animator. Every physics step it forwards that intent to `Move` and clears the jump request.

Files and modules:

- `character_controller.dfy` (module `CharacterMotion`) holds the pure step functions and the classes:
  - `GroundStep` is one ground probe; `MoveStep` is one `Move` call, built from `EffectiveCrouch`, `ScaledMove`, `Crouched`, `CrouchEdge`, `Turn` and `Flipped`;
  - the classes are `CharacterController2D`, `SpriteRenderer` and `Collider2D`.

  Each method of `CharacterController2D` changes the fields in place. It is proved to leave the controller in the state, and with the effects, that its step function prescribes.
- `controller_runs.dfy` (module `MotionRuns`) drives the controller with any sequence of ground probes and `Move` calls. It proves what holds over whole runs:
  - crouch events are exactly the edges of the remembered crouch;
  - a jump pushes at most once per grounded period: the impulses are bounded by the landings (probes that find ground while airborne), plus one if the run starts on the ground;
  - `flipX` keeps tracking the facing;
  - steady input never turns the character away from it, and with air control and a non-zero crouch factor faces it.
- `player_movement.dfy` (module `PlayerInput`) holds the relay:
  - the per-frame intent function `FrameIntent` and its latch lemmas;
  - the `PlayerMovement` class with `Update`, `FixedUpdate`, `OnLanding` and `OnCrouching`;
  - the `Animator` whose parameters it sets.
- `game_loop.dfy` (module `GameLoop`) interleaves frames, ground probes and forwarding physics steps in any order. It proves that the controller sees exactly a `MotionRuns` run of the calls the relay forwards. It also proves two bounds on the impulses. They never outnumber the jump presses, plus one for a jump already pending. They never outnumber the landings, plus one if the character starts on the ground. Any number of frames before one physics step give at most one push.

Modelling choices:

- Physics queries become inputs:
  - the ground probe is the list of game objects of the colliders it overlaps, with the character's own game object as `self`;
  - the ceiling probe is a boolean `ceilingBlocked`;
  - the input device's answers for a frame are a `FrameInput`;
  - `Time.fixedDeltaTime` is a parameter.
- Everything the controller asks of the engine goes into a log field `effects`, in the order the code does it. That covers invoking `OnLandEvent` and `OnCrouchEvent`, writing the velocity, and `AddForce`. The sprite's `flipX` and the crouch collider's `enabled` flag are fields of their own objects.
- Floats are `real`. The crouch factor carries its `[Range(0, 1)]` bound as `ValidSettings`.

Two behaviours of the code are modelled as written:

- **Landed per collider.** `FixedUpdate` raises `OnLandEvent` once per overlapping collider of another game object when the character was airborne. Landing on two colliders at once raises it twice, not once per landing; the model keeps this (`GroundStep`: the number of Landed events equals `OtherColliders`).
- **Jump latch.** The jump request latches across frames until the next physics step, which clears it whether or not it was used. Several frames before one physics step still give at most one push (`FramesThenStepPushOnce`).

## Model

| member | source | states |
|---|---|---|
| CharacterMotion.OtherCollidersPositive | Assets/Scripts/CharacterController2D.cs:78-86 | the count of colliders of other game objects is positive exactly when some overlapping collider belongs to another game object |
| CharacterMotion.GroundStep | Assets/Scripts/CharacterController2D.cs:70-87 | grounded afterwards exactly when another game object's collider is overlapped; nothing else in the state changes; no Landed when already grounded, otherwise one Landed per such collider, and only Landed events |
| CharacterMotion.EffectiveCrouch | Assets/Scripts/CharacterController2D.cs:91-96 | the crouch Move acts on is on exactly when crouch was requested or the ceiling is blocked |
| CharacterMotion.ScaleKeepsSign | Assets/Scripts/CharacterController2D.cs:109 | multiplying by a factor in [0, 1] never grows the magnitude nor reverses the sign, keeps the sign when the factor is positive, and gives zero when the factor is zero |
| CharacterMotion.ScaledMove | Assets/Scripts/CharacterController2D.cs:108-109 | the move after the crouch slow-down equals the input when standing and the input times the crouch factor when crouching, is never larger in magnitude, never of the opposite sign, and of the same sign when the factor is non-zero |
| CharacterMotion.Flipped | Assets/Scripts/CharacterController2D.cs:150-165 | Flip toggles the facing, leaves flipX equal to not facing right, and changes nothing else |
| CharacterMotion.CrouchEdge | Assets/Scripts/CharacterController2D.cs:102-125 | a crouch event is raised exactly when the effective crouch differs from the remembered one, carrying the new crouch |
| CharacterMotion.Turn | Assets/Scripts/CharacterController2D.cs:133-140 | a positive move leaves the character facing right, a negative one facing left, a zero move changes nothing, no turn means no change, a turn mirrors the sprite, and only facing and flipX change |
| CharacterMotion.Crouched | Assets/Scripts/CharacterController2D.cs:102-125 | the effective crouch is remembered; an existing crouch collider is enabled exactly when standing, a missing one stays missing; nothing else changes |
| CharacterMotion.MoveStep | Assets/Scripts/CharacterController2D.cs:89-148 | an uncontrolled step (neither grounded nor air control) changes nothing and raises nothing; a controlled step remembers the effective crouch and sets the collider to its negation; a turn mirrors the sprite and no turn leaves it; grounded afterwards exactly when grounded before and no jump |
| CharacterMotion.MoveStepEffects | Assets/Scripts/CharacterController2D.cs:99-147 | Move raises a crouch event exactly on a controlled step that changes the effective crouch, writes one velocity target of ten times the scaled move exactly on controlled steps, pushes once with (0, jumpForce) exactly when grounded and jumping, and raises no Landed |
| CharacterMotion.MoveFacing | Assets/Scripts/CharacterController2D.cs:133-140 | on a controlled step with a non-zero scaled move, facing right afterwards equals the move being positive; otherwise facing and flipX are unchanged |
| CharacterMotion.CharacterController2D.constructor | Assets/Scripts/CharacterController2D.cs:33-57 | starts airborne, not crouching, facing right, with nothing raised |
| CharacterMotion.CharacterController2D.FixedUpdate | Assets/Scripts/CharacterController2D.cs:70-87 | the collider loop leaves the state and appends the effects that GroundStep prescribes |
| CharacterMotion.CharacterController2D.Move | Assets/Scripts/CharacterController2D.cs:89-148 | the new state and the appended effects are those of MoveStep |
| CharacterMotion.CharacterController2D.ApplySteering | Assets/Scripts/CharacterController2D.cs:99-141 | the controlled block performs the crouch handling, the scaled velocity write and the turn |
| CharacterMotion.CharacterController2D.ApplyCrouch | Assets/Scripts/CharacterController2D.cs:102-125 | the crouch branch updates the remembered crouch and the collider as Crouched says and appends CrouchEdge |
| CharacterMotion.CharacterController2D.Flip | Assets/Scripts/CharacterController2D.cs:150-165 | toggles facing and sets flipX as Flipped says, raising nothing |
| MotionRuns.CrouchEventsAreEdges | Assets/Scripts/CharacterController2D.cs:102-125 | over any sequence of probes and Move calls, the crouch events are exactly one per change of the remembered crouch, carrying the new value |
| MotionRuns.ImpulsesPerGrounding | Assets/Scripts/CharacterController2D.cs:143-147 | a jump pushes at most once per grounded period: over any run, the impulses never outnumber the landings (probes that find ground while airborne), plus one if the run starts grounded |
| MotionRuns.LandingsRaiseLanded | Assets/Scripts/CharacterController2D.cs:78-86 | every landing raises Landed at least once: over any run, the landings never outnumber the Landed events |
| MotionRuns.MovesWithoutProbeJumpOnce | Assets/Scripts/CharacterController2D.cs:143-147 | any number of Move calls without a ground probe in between push at most once |
| MotionRuns.FlipXTracksFacing | Assets/Scripts/CharacterController2D.cs:150-165 | once flipX equals not facing right, every run keeps it so |
| MotionRuns.SteadyInputFacesOneWay | Assets/Scripts/CharacterController2D.cs:133-140 | with air control, a non-zero crouch factor and every move of one sign, the character ends facing that way and the sprite is mirrored at most once |
| MotionRuns.SteadyInputNeverTurnsAway | Assets/Scripts/CharacterController2D.cs:133-140 | under any settings, with every move of one sign, the character ends facing either the way it started or the way the input points, and once it faces the input it keeps doing so |
| PlayerInput.FrameIntent | Assets/Scripts/PlayerMovement.cs:27-44 | after a frame the move is axis times run speed, the jump flag is set exactly when it was set or jump went down, and crouch is on exactly when crouch went down, or it was on and did not go up |
| PlayerInput.JumpStaysLatched | Assets/Scripts/PlayerMovement.cs:32-35 | after several frames the jump flag is set exactly when it was set before or some frame pressed jump |
| PlayerInput.CrouchFollowsLastEdge | Assets/Scripts/PlayerMovement.cs:37-41 | after several frames crouch is on exactly when some frame pressed crouch and no later frame released it, or it was on and no frame released it |
| PlayerInput.PlayerMovement.constructor | Assets/Scripts/PlayerMovement.cs:5-11 | run speed 40, no move, no jump, no crouch pending |
| PlayerInput.PlayerMovement.OnLanding | Assets/Scripts/PlayerMovement.cs:18-21 | IsJumping is cleared and no other animator parameter changes |
| PlayerInput.PlayerMovement.OnCrouching | Assets/Scripts/PlayerMovement.cs:23-25 | IsCrouching takes the given value and no other animator parameter changes |
| PlayerInput.PlayerMovement.Update | Assets/Scripts/PlayerMovement.cs:27-44 | the pending intent becomes FrameIntent of the frame; Speed is the magnitude of the move and non-negative; IsJumping is set by a jump press and kept otherwise; IsCrouching equals the crouch level |
| PlayerInput.PlayerMovement.FixedUpdate | Assets/Scripts/PlayerMovement.cs:46-51 | Move receives the move times the step length, the crouch level and the pending jump, and leaves the controller as MoveStep says; the jump request is cleared |
| GameLoop.TockImpulses | Assets/Scripts/PlayerMovement.cs:46-51 | of frames, probes and physics steps, only a physics step with a pending jump on the ground pushes, once, with (0, jumpForce) |
| GameLoop.ImpulsesBoundedByPresses | Assets/Scripts/PlayerMovement.cs:32-50 | in any interleaving of frames, probes and physics steps, the impulses never outnumber the jump presses, plus one for a jump already pending |
| GameLoop.PlayDrivesController | Assets/Scripts/PlayerMovement.cs:46-51 | in any interleaving of frames, probes and physics steps, the controller's state and every effect are those of the controller run over the calls forwarded to it: each probe as it comes, and each physics step as Move with the pending move times the step length, the crouch level and the pending jump, the jump then cleared |
| GameLoop.ImpulsesBoundedByGroundings | Assets/Scripts/CharacterController2D.cs:143-147 | in any interleaving, the impulses never outnumber the landings among the forwarded probes, plus one if the character starts grounded |
| GameLoop.PressOnGroundPushes | Assets/Scripts/PlayerMovement.cs:32-48 | on the ground, a jump press followed by a physics step pushes exactly once, leaves the ground and clears the request |
| GameLoop.FramesThenStepPushOnce | Assets/Scripts/PlayerMovement.cs:32-50 | any number of frames followed by one physics step push at most once, with (0, jumpForce), and not at all when airborne |
| GameLoop.PhysicsClearsJump | Assets/Scripts/PlayerMovement.cs:50 | a physics step clears the jump request whether or not it was used, and keeps move and crouch |

## Left out

- `Vector3.SmoothDamp`, `m_Velocity` and `m_MovementSmoothing` (CharacterController2D.cs:128-130) are engine floating-point numerics. The model records one velocity target, ten times the scaled move, on every controlled step. The vertical velocity it keeps is not modelled.
- `Physics2D.OverlapCircleAll` and `Physics2D.OverlapCircle` geometry, the ground layer mask, the check points and the radii `k_GroundedRadius` and `k_CeilingRadius` are replaced by their answers: a list of game object ids and a boolean.
- `Rigidbody2D.AddForce` is recorded as an `Impulse` effect. Its effect on the body's velocity is not modelled.
- `UnityEvent` invocation is recorded as `Landed` and `CrouchChanged` effects. The listeners are wired in scene data, not in the scripts, so the delivery of `OnLandEvent` to `OnLanding` is not modelled.
- `Input.GetAxisRaw`, `GetButtonDown` and `GetButtonUp` are the fields of `FrameInput`. `Time.fixedDeltaTime` is a parameter.
- `Awake`, `GetComponent`, the null-initialisation of the events and the serialized-field attributes are Unity lifecycle and wiring. The references they set up are constructor arguments.
- The engine's scheduling of `Update` and `FixedUpdate` is not modelled. `GameLoop` and `MotionRuns` allow any order of calls instead.
- Float rounding in `m_Move * m_CrouchSpeed`, `axis * m_RunSpeed` and the forwarded `move * fixedDeltaTime` is not modelled. These are exact `real` products.
- CharacterMotion.CharacterController2D.Move: the controlled block and its crouch branch are separate methods, `ApplySteering` and `ApplyCrouch`. This keeps each proof small. The order of the field writes and effects is the order of the source.
