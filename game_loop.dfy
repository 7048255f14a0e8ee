/** The input relay and the controller together, driven by the engine in any order: frames
    (PlayerMovement.Update), ground probes (CharacterController2D.FixedUpdate) and physics
    steps that forward the pending intent (PlayerMovement.FixedUpdate). */
module GameLoop {
  import opened CharacterMotion
  import opened PlayerInput
  import MotionRuns

  /** One engine callback.  A Probe here is the engine's callback; ControllerCalls passes it on
      to the controller as the MotionRuns.Probe call, so the controller-only bounds apply. */
  datatype Tick =
    | Frame(input: FrameInput)                              // PlayerMovement.Update
    | Probe(colliders: seq<GameObjectId>)                   // CharacterController2D.FixedUpdate
    | Physics(fixedDeltaTime: real, ceilingBlocked: bool)   // PlayerMovement.FixedUpdate

  /** The relay's pending intent and the controller's movement state. */
  datatype World = World(intent: Intent, motion: MotionState)

  /** A new world and the effects, in order, that produced it. */
  datatype Played = Played(world: World, effects: seq<Effect>)

  /** The controller's state and effects after one forwarding physics step. */
  function Forward(cfg: Settings, w: World, fixedDeltaTime: real, ceilingBlocked: bool): Outcome
    requires ValidSettings(cfg)
  {
    MoveStep(cfg, w.motion, ForwardedMove(w.intent.horizontalMove, fixedDeltaTime), w.intent.crouch, w.intent.jump, ceilingBlocked)
  }

  function Tock(cfg: Settings, runSpeed: real, self: GameObjectId, w: World, t: Tick): Played
    requires ValidSettings(cfg)
  {
    match t
    case Frame(input) =>
      Played(w.(intent := FrameIntent(runSpeed, w.intent, input)), [])
    case Probe(colliders) =>
      var o := GroundStep(w.motion, colliders, self);
      Played(w.(motion := o.state), o.effects)
    case Physics(dt, blocked) =>
      var o := Forward(cfg, w, dt, blocked);
      Played(World(w.intent.(jump := false), o.state), o.effects)
  }

  /** The final world and every effect of a sequence of callbacks. */
  function Play(cfg: Settings, runSpeed: real, self: GameObjectId, w: World, ticks: seq<Tick>): Played
    requires ValidSettings(cfg)
    decreases |ticks|
  {
    if ticks == [] then Played(w, [])
    else
      var first := Tock(cfg, runSpeed, self, w, ticks[0]);
      var rest := Play(cfg, runSpeed, self, first.world, ticks[1..]);
      Played(rest.world, first.effects + rest.effects)
  }

  /** Number of frames in which the jump button went down. */
  function JumpPresses(ticks: seq<Tick>): nat
  {
    if ticks == [] then 0
    else (if ticks[0].Frame? && ticks[0].input.jumpDown then 1 else 0) + JumpPresses(ticks[1..])
  }

  /** The frames of a sequence of inputs, one tick each. */
  function FrameTicks(fs: seq<FrameInput>): (ticks: seq<Tick>)
    ensures |ticks| == |fs|
  {
    if fs == [] then [] else [Frame(fs[0])] + FrameTicks(fs[1..])
  }

  /** The calls the controller receives from a sequence of callbacks: each probe is passed on,
      and each physics step forwards the intent pending at that point; frames call nothing. */
  function ControllerCalls(runSpeed: real, it: Intent, ticks: seq<Tick>): seq<MotionRuns.Call>
    decreases |ticks|
  {
    if ticks == [] then []
    else
      match ticks[0]
      case Frame(input) =>
        ControllerCalls(runSpeed, FrameIntent(runSpeed, it, input), ticks[1..])
      case Probe(colliders) =>
        [MotionRuns.Probe(colliders)] + ControllerCalls(runSpeed, it, ticks[1..])
      case Physics(dt, blocked) =>
        [MotionRuns.Drive(ForwardedMove(it.horizontalMove, dt), it.crouch, it.jump, blocked)]
        + ControllerCalls(runSpeed, it.(jump := false), ticks[1..])
  }

  /** The impulses of one callback: only a physics step with a pending jump on the ground pushes. */
  lemma TockImpulses(cfg: Settings, runSpeed: real, self: GameObjectId, w: World, t: Tick)
    requires ValidSettings(cfg)
    ensures var p := Tock(cfg, runSpeed, self, w, t);
            OfKind(p.effects, ImpulseKind)
            == if t.Physics? && w.motion.grounded && w.intent.jump then [Impulse(0.0, cfg.jumpForce)] else []
  {
    match t
    case Frame(_) =>
    case Probe(colliders) =>
      var o := GroundStep(w.motion, colliders, self);
      LandingsImpulses(o.effects);
    case Physics(dt, blocked) =>
      MoveStepEffects(cfg, w.motion, ForwardedMove(w.intent.horizontalMove, dt), w.intent.crouch, w.intent.jump, blocked);
  }

  lemma {:induction false} LandingsImpulses(es: seq<Effect>)
    requires forall e :: e in es ==> e == Landed
    ensures OfKind(es, ImpulseKind) == []
    decreases |es|
  {
    if es != [] {
      assert es[0] in es;
      assert forall e :: e in es[1..] ==> e in es;
      LandingsImpulses(es[1..]);
    }
  }

  lemma PlayOfKind(cfg: Settings, runSpeed: real, self: GameObjectId, w: World, ticks: seq<Tick>, k: EffectKind)
    requires ValidSettings(cfg)
    requires ticks != []
    ensures var first := Tock(cfg, runSpeed, self, w, ticks[0]);
            OfKind(Play(cfg, runSpeed, self, w, ticks).effects, k)
            == OfKind(first.effects, k) + OfKind(Play(cfg, runSpeed, self, first.world, ticks[1..]).effects, k)
  {
    var first := Tock(cfg, runSpeed, self, w, ticks[0]);
    OfKindAppend(first.effects, Play(cfg, runSpeed, self, first.world, ticks[1..]).effects, k);
  }

  /** One press, one push at most: however the frames and physics steps interleave, the
      impulses never outnumber the jump presses, plus one for a jump already pending. */
  lemma {:induction false} ImpulsesBoundedByPresses(cfg: Settings, runSpeed: real, self: GameObjectId, w: World, ticks: seq<Tick>)
    requires ValidSettings(cfg)
    ensures |OfKind(Play(cfg, runSpeed, self, w, ticks).effects, ImpulseKind)|
         <= JumpPresses(ticks) + (if w.intent.jump then 1 else 0)
    decreases |ticks|
  {
    if ticks != [] {
      var first := Tock(cfg, runSpeed, self, w, ticks[0]);
      PlayOfKind(cfg, runSpeed, self, w, ticks, ImpulseKind);
      TockImpulses(cfg, runSpeed, self, w, ticks[0]);
      ImpulsesBoundedByPresses(cfg, runSpeed, self, first.world, ticks[1..]);
    }
  }

  /** Seen from the controller, the game loop is a run of the calls the relay forwards: the
      movement state and every effect are those of MotionRuns.Run over ControllerCalls. */
  lemma {:induction false} PlayDrivesController(cfg: Settings, runSpeed: real, self: GameObjectId, w: World, ticks: seq<Tick>)
    requires ValidSettings(cfg)
    ensures var p := Play(cfg, runSpeed, self, w, ticks);
            var r := MotionRuns.Run(cfg, self, w.motion, ControllerCalls(runSpeed, w.intent, ticks));
            p.world.motion == r.state && p.effects == r.effects
    decreases |ticks|
  {
    if ticks != [] {
      var first := Tock(cfg, runSpeed, self, w, ticks[0]);
      PlayDrivesController(cfg, runSpeed, self, first.world, ticks[1..]);
      var rest := ControllerCalls(runSpeed, first.world.intent, ticks[1..]);
      match ticks[0]
      case Frame(_) =>
      case Probe(colliders) =>
        var calls := [MotionRuns.Probe(colliders)] + rest;
        assert calls[0] == MotionRuns.Probe(colliders) && calls[1..] == rest;
      case Physics(dt, blocked) =>
        var it := w.intent;
        var calls := [MotionRuns.Drive(ForwardedMove(it.horizontalMove, dt), it.crouch, it.jump, blocked)] + rest;
        assert calls[1..] == rest;
    }
  }

  /** And at most one push per grounded period: the impulses never outnumber the landings
      among the forwarded probes, plus one if the character starts on the ground.  This is the
      controller's own bound, MotionRuns.ImpulsesPerGrounding, carried over by PlayDrivesController. */
  lemma ImpulsesBoundedByGroundings(cfg: Settings, runSpeed: real, self: GameObjectId, w: World, ticks: seq<Tick>)
    requires ValidSettings(cfg)
    ensures |OfKind(Play(cfg, runSpeed, self, w, ticks).effects, ImpulseKind)|
         <= MotionRuns.LandingProbes(cfg, self, w.motion, ControllerCalls(runSpeed, w.intent, ticks))
            + (if w.motion.grounded then 1 else 0)
  {
    PlayDrivesController(cfg, runSpeed, self, w, ticks);
    MotionRuns.ImpulsesPerGrounding(cfg, self, w.motion, ControllerCalls(runSpeed, w.intent, ticks));
  }

  /** However many frames come before a physics step, that step pushes at most once, and not
      at all while airborne: pressing jump in several frames does not queue several jumps. */
  lemma {:induction false} FramesThenStepPushOnce(cfg: Settings, runSpeed: real, self: GameObjectId, w: World,
                                                  fs: seq<FrameInput>, dt: real, blocked: bool)
    requires ValidSettings(cfg)
    ensures var es := OfKind(Play(cfg, runSpeed, self, w, FrameTicks(fs) + [Physics(dt, blocked)]).effects, ImpulseKind);
            && (es == [] || es == [Impulse(0.0, cfg.jumpForce)])
            && (!w.motion.grounded ==> es == [])
    decreases |fs|
  {
    var ticks := FrameTicks(fs) + [Physics(dt, blocked)];
    var first := Tock(cfg, runSpeed, self, w, ticks[0]);
    PlayOfKind(cfg, runSpeed, self, w, ticks, ImpulseKind);
    TockImpulses(cfg, runSpeed, self, w, ticks[0]);
    if fs == [] {
      assert ticks == [Physics(dt, blocked)];
    } else {
      assert ticks[0] == Frame(fs[0]);
      assert ticks[1..] == FrameTicks(fs[1..]) + [Physics(dt, blocked)];
      FramesThenStepPushOnce(cfg, runSpeed, self, first.world, fs[1..], dt, blocked);
    }
  }

  /** The bound is reached: on the ground, a frame that presses jump followed by a physics
      step pushes exactly once, with the configured force. */
  lemma PressOnGroundPushes(cfg: Settings, runSpeed: real, self: GameObjectId, w: World, f: FrameInput, dt: real, blocked: bool)
    requires ValidSettings(cfg)
    requires w.motion.grounded && f.jumpDown
    ensures var p := Play(cfg, runSpeed, self, w, [Frame(f), Physics(dt, blocked)]);
            && OfKind(p.effects, ImpulseKind) == [Impulse(0.0, cfg.jumpForce)]
            && !p.world.motion.grounded
            && !p.world.intent.jump
  {
    var ticks := [Frame(f), Physics(dt, blocked)];
    var first := Tock(cfg, runSpeed, self, w, ticks[0]);
    PlayOfKind(cfg, runSpeed, self, w, ticks, ImpulseKind);
    TockImpulses(cfg, runSpeed, self, w, ticks[0]);
    assert ticks[1..] == [Physics(dt, blocked)];
    PlayOfKind(cfg, runSpeed, self, first.world, ticks[1..], ImpulseKind);
    TockImpulses(cfg, runSpeed, self, first.world, ticks[1]);
  }

  /** A physics step always leaves the jump request cleared, whether or not it was used. */
  lemma PhysicsClearsJump(cfg: Settings, runSpeed: real, self: GameObjectId, w: World, dt: real, blocked: bool)
    requires ValidSettings(cfg)
    ensures !Tock(cfg, runSpeed, self, w, Physics(dt, blocked)).world.intent.jump
    ensures Tock(cfg, runSpeed, self, w, Physics(dt, blocked)).world.intent
         == w.intent.(jump := false)
  {
  }
}
