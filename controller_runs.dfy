/** The controller over any sequence of engine calls: ground probes (FixedUpdate) and Move
    calls in whatever order a caller makes them. */
module MotionRuns {
  import opened CharacterMotion

  /** One call into the controller. */
  datatype Call =
    | Probe(colliders: seq<GameObjectId>)                                // FixedUpdate
    | Drive(move: real, crouch: bool, jump: bool, ceilingBlocked: bool)  // Move

  function StepCall(cfg: Settings, self: GameObjectId, s: MotionState, c: Call): Outcome
    requires ValidSettings(cfg)
  {
    match c
    case Probe(colliders) => GroundStep(s, colliders, self)
    case Drive(move, crouch, jump, ceilingBlocked) => MoveStep(cfg, s, move, crouch, jump, ceilingBlocked)
  }

  /** The final state and every effect of a sequence of calls. */
  function Run(cfg: Settings, self: GameObjectId, s: MotionState, calls: seq<Call>): Outcome
    requires ValidSettings(cfg)
    decreases |calls|
  {
    if calls == [] then Outcome(s, [])
    else
      var first := StepCall(cfg, self, s, calls[0]);
      var rest := Run(cfg, self, first.state, calls[1..]);
      Outcome(rest.state, first.effects + rest.effects)
  }

  /** Number of landings: probes that find ground while the character is airborne.  These are
      exactly the probes that raise Landed (LandingsRaiseLanded). */
  function LandingProbes(cfg: Settings, self: GameObjectId, s: MotionState, calls: seq<Call>): nat
    requires ValidSettings(cfg)
    decreases |calls|
  {
    if calls == [] then 0
    else
      var next := StepCall(cfg, self, s, calls[0]).state;
      (if calls[0].Probe? && !s.grounded && next.grounded then 1 else 0)
      + LandingProbes(cfg, self, next, calls[1..])
  }

  /** The remembered crouch after each call (unchanged by probes and by uncontrolled moves). */
  function CrouchTrace(cfg: Settings, self: GameObjectId, s: MotionState, calls: seq<Call>): (t: seq<bool>)
    requires ValidSettings(cfg)
    decreases |calls|
  {
    if calls == [] then []
    else
      var next := StepCall(cfg, self, s, calls[0]).state;
      [next.wasCrouching] + CrouchTrace(cfg, self, next, calls[1..])
  }

  /** The crouch events an observer of `trace` expects: one per change of value, carrying the new value. */
  function EdgeEvents(previous: bool, trace: seq<bool>): seq<Effect>
    decreases |trace|
  {
    if trace == [] then []
    else
      (if trace[0] != previous then [CrouchChanged(trace[0])] else []) + EdgeEvents(trace[0], trace[1..])
  }

  lemma ProbeEffects(s: MotionState, colliders: seq<GameObjectId>, self: GameObjectId, k: EffectKind)
    ensures OfKind(GroundStep(s, colliders, self).effects, k)
         == if k == LandedKind then GroundStep(s, colliders, self).effects else []
  {
    LandingsOfKind(|GroundStep(s, colliders, self).effects|, k);
  }

  lemma {:induction false} LandingsOfKind(n: nat, k: EffectKind)
    ensures OfKind(Landings(n), k) == if k == LandedKind then Landings(n) else []
  {
    if n > 0 {
      LandingsOfKind(n - 1, k);
      OfKindAppend(Landings(n - 1), [Landed], k);
      OfKindSingle(Landed, k);
    }
  }

  /** The effects of a run split into the first call's and the rest's, kind by kind. */
  lemma RunOfKind(cfg: Settings, self: GameObjectId, s: MotionState, calls: seq<Call>, k: EffectKind)
    requires ValidSettings(cfg)
    requires calls != []
    ensures var first := StepCall(cfg, self, s, calls[0]);
            OfKind(Run(cfg, self, s, calls).effects, k)
            == OfKind(first.effects, k) + OfKind(Run(cfg, self, first.state, calls[1..]).effects, k)
  {
    var first := StepCall(cfg, self, s, calls[0]);
    OfKindAppend(first.effects, Run(cfg, self, first.state, calls[1..]).effects, k);
  }

  /** The crouch events of any run are exactly the edges of the remembered crouch:
      holding one crouch state, however long, raises nothing more. */
  lemma {:induction false} CrouchEventsAreEdges(cfg: Settings, self: GameObjectId, s: MotionState, calls: seq<Call>)
    requires ValidSettings(cfg)
    ensures OfKind(Run(cfg, self, s, calls).effects, CrouchKind)
         == EdgeEvents(s.wasCrouching, CrouchTrace(cfg, self, s, calls))
    decreases |calls|
  {
    if calls != [] {
      var first := StepCall(cfg, self, s, calls[0]);
      RunOfKind(cfg, self, s, calls, CrouchKind);
      CrouchEventsAreEdges(cfg, self, first.state, calls[1..]);
      match calls[0]
      case Probe(colliders) =>
        ProbeEffects(s, colliders, self, CrouchKind);
      case Drive(move, crouch, jump, ceilingBlocked) =>
        MoveStepEffects(cfg, s, move, crouch, jump, ceilingBlocked);
    }
  }

  /** A jump pushes at most once per grounded period: the impulses of any run are bounded by
      the landings, plus one if the run starts on the ground. */
  lemma {:induction false} ImpulsesPerGrounding(cfg: Settings, self: GameObjectId, s: MotionState, calls: seq<Call>)
    requires ValidSettings(cfg)
    ensures |OfKind(Run(cfg, self, s, calls).effects, ImpulseKind)|
         <= LandingProbes(cfg, self, s, calls) + (if s.grounded then 1 else 0)
    decreases |calls|
  {
    if calls != [] {
      var first := StepCall(cfg, self, s, calls[0]);
      RunOfKind(cfg, self, s, calls, ImpulseKind);
      ImpulsesPerGrounding(cfg, self, first.state, calls[1..]);
      match calls[0]
      case Probe(colliders) =>
        ProbeEffects(s, colliders, self, ImpulseKind);
      case Drive(move, crouch, jump, ceilingBlocked) =>
        MoveStepEffects(cfg, s, move, crouch, jump, ceilingBlocked);
    }
  }

  /** Every landing raises Landed at least once, so the landings never outnumber the Landed
      events of a run. */
  lemma {:induction false} LandingsRaiseLanded(cfg: Settings, self: GameObjectId, s: MotionState, calls: seq<Call>)
    requires ValidSettings(cfg)
    ensures LandingProbes(cfg, self, s, calls) <= |OfKind(Run(cfg, self, s, calls).effects, LandedKind)|
    decreases |calls|
  {
    if calls != [] {
      var first := StepCall(cfg, self, s, calls[0]);
      RunOfKind(cfg, self, s, calls, LandedKind);
      LandingsRaiseLanded(cfg, self, first.state, calls[1..]);
      match calls[0]
      case Probe(colliders) =>
        ProbeEffects(s, colliders, self, LandedKind);
        OtherCollidersPositive(colliders, self);
      case Drive(move, crouch, jump, ceilingBlocked) =>
        MoveStepEffects(cfg, s, move, crouch, jump, ceilingBlocked);
    }
  }

  /** Without a ground probe in between, any number of Move calls pushes at most once. */
  lemma MovesWithoutProbeJumpOnce(cfg: Settings, self: GameObjectId, s: MotionState, calls: seq<Call>)
    requires ValidSettings(cfg)
    requires forall i :: 0 <= i < |calls| ==> calls[i].Drive?
    ensures |OfKind(Run(cfg, self, s, calls).effects, ImpulseKind)| <= 1
  {
    ImpulsesPerGrounding(cfg, self, s, calls);
    NoProbeNoLanding(cfg, self, s, calls);
  }

  lemma {:induction false} NoProbeNoLanding(cfg: Settings, self: GameObjectId, s: MotionState, calls: seq<Call>)
    requires ValidSettings(cfg)
    requires forall i :: 0 <= i < |calls| ==> calls[i].Drive?
    ensures LandingProbes(cfg, self, s, calls) == 0
    decreases |calls|
  {
    if calls != [] {
      NoProbeNoLanding(cfg, self, StepCall(cfg, self, s, calls[0]).state, calls[1..]);
    }
  }

  /** Sprite mirroring is an invariant of every run: once flipX disagrees with facing right,
      every later flip keeps it that way. */
  lemma {:induction false} FlipXTracksFacing(cfg: Settings, self: GameObjectId, s: MotionState, calls: seq<Call>)
    requires ValidSettings(cfg)
    requires s.flipX == !s.facingRight
    ensures var t := Run(cfg, self, s, calls).state; t.flipX == !t.facingRight
    decreases |calls|
  {
    if calls != [] {
      FlipXTracksFacing(cfg, self, StepCall(cfg, self, s, calls[0]).state, calls[1..]);
    }
  }

  /** Steady input in one direction with air control: the character ends up facing that way,
      and the sprite is flipped at most once (not at all if it already faced that way). */
  lemma {:induction false} SteadyInputFacesOneWay(cfg: Settings, self: GameObjectId, s: MotionState, calls: seq<Call>, right: bool)
    requires ValidSettings(cfg) && cfg.airControl && cfg.crouchSpeed > 0.0
    requires forall i :: 0 <= i < |calls| ==> calls[i].Drive? && (if right then calls[i].move > 0.0 else calls[i].move < 0.0)
    ensures var t := Run(cfg, self, s, calls).state;
            && (calls != [] ==> t.facingRight == right)
            && t.flipX == (if s.facingRight == right || calls == [] then s.flipX else !right)
    decreases |calls|
  {
    if calls != [] {
      var c := calls[0];
      var first := StepCall(cfg, self, s, c);
      MoveFacing(cfg, s, c.move, c.crouch, c.jump, c.ceilingBlocked);
      assert first.state.facingRight == right;
      assert first.state.flipX == (if s.facingRight == right then s.flipX else !right);
      SteadyInputFacesOneWay(cfg, self, first.state, calls[1..], right);
    }
  }

  /** Steady input in one direction under any settings (air control or not, any crouch factor):
      the character never turns away from the input, so it ends facing either the way it started
      or the way the input points, and once it faces the input it keeps doing so. */
  lemma {:induction false} SteadyInputNeverTurnsAway(cfg: Settings, self: GameObjectId, s: MotionState, calls: seq<Call>, right: bool)
    requires ValidSettings(cfg)
    requires forall i :: 0 <= i < |calls| ==> calls[i].Drive? && (if right then calls[i].move > 0.0 else calls[i].move < 0.0)
    ensures var t := Run(cfg, self, s, calls).state;
            && (t.facingRight == s.facingRight || t.facingRight == right)
            && (s.facingRight == right ==> t.facingRight == right)
    decreases |calls|
  {
    if calls != [] {
      var c := calls[0];
      var first := StepCall(cfg, self, s, c);
      MoveFacing(cfg, s, c.move, c.crouch, c.jump, c.ceilingBlocked);
      assert first.state.facingRight == s.facingRight || first.state.facingRight == right;
      assert s.facingRight == right ==> first.state.facingRight == right;
      SteadyInputNeverTurnsAway(cfg, self, first.state, calls[1..], right);
    }
  }
}
