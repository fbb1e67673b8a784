/**
 The per-frame change detector of the PSVR2 trigger mod. Each frame it looks at
 what the player holds and, only when the dominant gun's type or the
 dual-wield flag differs from what it applied last, remembers the new pair and
 sends the commands chosen by one of the two dispatch tables.

 `Tick` is the specification of one frame on plain values; the class `Core`
 holds the two retained fields and the log of commands sent, and its
 `OnUpdate` is proved to do exactly what `Tick` says.
 */
module PSVRTriggers {
  import opened Effects

  /** Opaque identity of a gun object held by the game. */
  type GunId = nat

  datatype Option<T> = None | Some(value: T)

  /**
   What one frame reads: whether the IPC client and the game's gun manager
   exist, the guns in each hand, the dominant-hand gun's type code, the
   dual-wield flag and the name of the dominant-hand enum value.
   */
  datatype Frame = Frame(
    clientPresent: bool,
    managerPresent: bool,
    gunLeft: Option<GunId>,
    gunRight: Option<GunId>,
    dominantGunType: int,
    dualWieldActive: bool,
    dominantHand: string)

  /** The two fields the mod keeps between frames. */
  datatype Retained = Retained(lastGunType: int, lastDualWieldState: bool)

  /** The result of one frame: the retained fields afterwards and the commands sent. */
  datatype Step = Step(state: Retained, sent: seq<Command>)

  /** The retained fields when the mod is loaded: no gun type seen yet. */
  const Initial := Retained(-1, false)

  /** The left gun if there is one, otherwise the right one. */
  function CurrentGun(f: Frame): (g: Option<GunId>)
    ensures g.None? <==> f.gunLeft.None? && f.gunRight.None?
    ensures f.gunLeft.Some? ==> g == f.gunLeft
    ensures f.gunLeft.None? ==> g == f.gunRight
  {
    if f.gunLeft.Some? then f.gunLeft else f.gunRight
  }

  /** The frame gets past the three presence checks. */
  predicate Ready(f: Frame) {
    f.clientPresent && f.managerPresent && CurrentGun(f).Some?
  }

  /** The frame's type/flag pair differs from the retained one. */
  predicate Changed(s: Retained, f: Frame) {
    f.dominantGunType != s.lastGunType || f.dualWieldActive != s.lastDualWieldState
  }

  /** The table chosen by the frame's dual-wield flag. */
  function Dispatch(f: Frame): (cmds: seq<Command>)
    ensures cmds != []
    ensures !f.dualWieldActive ==> |cmds| == 1 && cmds[0].target != Both
  {
    if f.dualWieldActive then DualWieldTriggerEffects(f.dominantGunType)
    else SingleHandTriggerEffects(f.dominantGunType, f.dominantHand)
  }

  /**
   One frame. A frame sends commands exactly when it is ready and changed;
   a frame that sends nothing leaves the retained fields as they were, and
   one that sends something records the frame's type and flag.
   */
  function Tick(s: Retained, f: Frame): (r: Step)
    ensures r.sent != [] <==> Ready(f) && Changed(s, f)
    ensures r.sent == [] ==> r.state == s
    ensures r.sent != [] ==> r.state == Retained(f.dominantGunType, f.dualWieldActive)
  {
    if !f.clientPresent then Step(s, [])
    else if !f.managerPresent then Step(s, [])
    else if CurrentGun(f).None? then Step(s, [])
    else if f.dominantGunType == s.lastGunType && f.dualWieldActive == s.lastDualWieldState then Step(s, [])
    else Step(Retained(f.dominantGunType, f.dualWieldActive), Dispatch(f))
  }

  /** The commands sent for each frame of a sequence, in order. */
  function Batches(s: Retained, frames: seq<Frame>): (bs: seq<seq<Command>>)
    ensures |bs| == |frames|
    decreases |frames|
  {
    if frames == [] then []
    else
      var r := Tick(s, frames[0]);
      [r.sent] + Batches(r.state, frames[1..])
  }

  /** The same frame `n` times in a row. */
  function Repeat(f: Frame, n: nat): seq<Frame>
  {
    seq(n, _ => f)
  }

  // ---------------------------------------------------------------------------
  // Properties of one frame
  // ---------------------------------------------------------------------------

  /** No client, no gun manager, or no gun in either hand: nothing happens. */
  lemma NotReadyIsNoOp(s: Retained, f: Frame)
    requires !f.clientPresent || !f.managerPresent || (f.gunLeft.None? && f.gunRight.None?)
    ensures Tick(s, f) == Step(s, [])
  {
  }

  /** Neither the type nor the flag changed: nothing happens, however often. */
  lemma UnchangedIsNoOp(s: Retained, f: Frame)
    requires f.dominantGunType == s.lastGunType && f.dualWieldActive == s.lastDualWieldState
    ensures Tick(s, f) == Step(s, [])
    ensures Tick(Tick(s, f).state, f) == Tick(s, f)
  {
  }

  /**
   A ready, changed frame records its type and flag and sends the chosen
   table; the gun identity plays no part, only the dominant gun's type.
   */
  lemma ChangedRecordsFrame(s: Retained, f: Frame)
    requires Ready(f) && Changed(s, f)
    ensures Tick(s, f).state == Retained(f.dominantGunType, f.dualWieldActive)
    ensures f.dualWieldActive ==> Tick(s, f).sent == DualWieldTriggerEffects(f.dominantGunType)
    ensures !f.dualWieldActive ==> Tick(s, f).sent == SingleHandTriggerEffects(f.dominantGunType, f.dominantHand)
  {
  }

  /** Whatever the state, repeating a frame right away does nothing. */
  lemma RepeatIsNoOp(s: Retained, f: Frame)
    ensures Tick(Tick(s, f).state, f) == Step(Tick(s, f).state, [])
  {
  }

  /** Two frames with the same type and flag but different guns act alike. */
  lemma GunIdentityIgnored(s: Retained, f: Frame, g: Frame)
    requires f.clientPresent == g.clientPresent && f.managerPresent == g.managerPresent
    requires f.gunLeft.Some? == g.gunLeft.Some? && f.gunRight.Some? == g.gunRight.Some?
    requires f.dominantGunType == g.dominantGunType && f.dualWieldActive == g.dualWieldActive
    requires f.dominantHand == g.dominantHand
    ensures Tick(s, f) == Tick(s, g)
  {
  }

  // ---------------------------------------------------------------------------
  // Properties of a run of frames
  // ---------------------------------------------------------------------------

  /** Once a frame is a fixed point of the state, repeating it sends nothing. */
  lemma {:induction false} SteadyFramesSendNothing(s: Retained, f: Frame, n: nat)
    requires Tick(s, f) == Step(s, [])
    ensures forall i :: 0 <= i < n ==> Batches(s, Repeat(f, n))[i] == []
  {
    if n > 0 {
      SteadyFramesSendNothing(s, f, n - 1);
      assert Repeat(f, n)[1..] == Repeat(f, n - 1);
    }
  }

  /**
   A frame repeated `n` times sends at most one batch: the first frame's, and
   that one only when the frame is ready and differs from the retained state.
   */
  lemma {:induction false} RepeatedFrameSendsOnce(s: Retained, f: Frame, n: nat)
    requires n > 0
    ensures Batches(s, Repeat(f, n))[0] == Tick(s, f).sent
    ensures Batches(s, Repeat(f, n))[0] != [] <==> Ready(f) && Changed(s, f)
    ensures forall i :: 1 <= i < n ==> Batches(s, Repeat(f, n))[i] == []
  {
    var t := Tick(s, f).state;
    RepeatIsNoOp(s, f);
    SteadyFramesSendNothing(t, f, n - 1);
    assert Repeat(f, n)[1..] == Repeat(f, n - 1);
    assert Batches(s, Repeat(f, n)) == [Tick(s, f).sent] + Batches(t, Repeat(f, n - 1));
  }

  /** The two scenarios of a fresh start: a single-hand light gun, then dual wielding it. */
  lemma FreshStartScenario(f: Frame)
    requires Ready(f) && f.dominantGunType == 0 && !f.dualWieldActive && f.dominantHand == "LeftHand"
    ensures Tick(Initial, f) == Step(Retained(0, false), [Weapon(Left, 2, 4, 4)])
    ensures Tick(Tick(Initial, f).state, f.(dualWieldActive := true)) ==
      Step(Retained(0, true), [Weapon(Left, 2, 5, 4), Weapon(Right, 2, 5, 4)])
  {
  }

  // ---------------------------------------------------------------------------
  // The mod object
  // ---------------------------------------------------------------------------

  /** The mod: two retained fields, and every command handed to the IPC client. */
  class Core {
    var lastGunType: int
    var lastDualWieldState: bool
    var sent: seq<Command>

    /** The retained fields as a value. */
    function State(): Retained
      reads this
    {
      Retained(lastGunType, lastDualWieldState)
    }

    constructor ()
      ensures State() == Initial && sent == []
    {
      lastGunType := -1;
      lastDualWieldState := false;
      sent := [];
    }

    /** One frame of the game loop. */
    method OnUpdate(frame: Frame)
      modifies this
      ensures State() == Tick(old(State()), frame).state
      ensures sent == old(sent) + Tick(old(State()), frame).sent
      ensures !Ready(frame) || !Changed(old(State()), frame) ==> unchanged(this)
    {
      if !frame.clientPresent { return; }
      if !frame.managerPresent { return; }

      var currentGun := if frame.gunLeft.Some? then frame.gunLeft else frame.gunRight;
      var dualWieldActive := frame.dualWieldActive;

      if currentGun.None? { return; }

      // Only the dominant gun's type and the dual-wield flag are compared.
      var currentGunType := frame.dominantGunType;
      if currentGunType == lastGunType && dualWieldActive == lastDualWieldState { return; }

      lastGunType := currentGunType;
      lastDualWieldState := dualWieldActive;

      if dualWieldActive {
        sent := sent + DualWieldTriggerEffects(currentGunType);
      } else {
        sent := sent + SingleHandTriggerEffects(currentGunType, frame.dominantHand);
      }
    }
  }
}
