/**
 The fixed vocabulary of adaptive-trigger commands that the mod hands to the
 PSVR2 toolkit's IPC client, the rule that turns the game's dominant-hand enum
 name into a controller, and the two per-weapon-type dispatch tables (one for
 dual wielding, one for a single hand).

 Every table is a pure function: where the mod calls an `ipcClient.TriggerEffect…`
 operation, the model returns the corresponding `Command`, in call order.
 */
module Effects {

  /** A controller selector, as the IPC client understands it. */
  datatype Controller = Left | Right | Both

  /** Every command parameter is a byte. */
  type Byte = b: int | 0 <= b < 256

  /**
   One call to the IPC client; `target` is shared by all variants. The mod
   passes the numeric arguments positionally, so they are named by position.
   */
  datatype Command =
    | Weapon(target: Controller, arg1: Byte, arg2: Byte, arg3: Byte)
    | MultiPositionFeedback(target: Controller, strengths: seq<Byte>)
    | Disable(target: Controller)
    | SlopeFeedback(target: Controller, arg1: Byte, arg2: Byte, arg3: Byte, arg4: Byte)
    | Feedback(target: Controller, arg1: Byte, arg2: Byte)

  /** The ten-entry strength pattern used for weapon type 3 in both modes. */
  const BurstPattern: seq<Byte> := [5, 0, 0, 6, 0, 0, 7, 0, 0, 8]

  // ---------------------------------------------------------------------------
  // String containment, as `string.Contains` decides it (ordinal comparison)
  // ---------------------------------------------------------------------------

  /** `sub` appears in `s` starting at offset `i`. */
  ghost predicate OccursAt(sub: string, s: string, i: int) {
    0 <= i <= |s| - |sub| && s[i..i + |sub|] == sub
  }

  /** Reference definition: `sub` appears in `s` at some offset. */
  ghost predicate Occurs(sub: string, s: string) {
    exists i :: OccursAt(sub, s, i)
  }

  /** Executable containment test: try every start position from the left. */
  function Contains(s: string, sub: string): bool
    decreases |s|
  {
    if |sub| > |s| then false
    else if s[..|sub|] == sub then true
    else Contains(s[1..], sub)
  }

  /** `Contains` agrees with the reference definition, in both directions. */
  lemma {:induction false} ContainsIsOccurs(s: string, sub: string)
    ensures Contains(s, sub) <==> Occurs(sub, s)
    decreases |s|
  {
    if |sub| > |s| {
    } else if s[..|sub|] == sub {
      assert OccursAt(sub, s, 0);
    } else {
      ContainsIsOccurs(s[1..], sub);
      if Occurs(sub, s) {
        var i :| OccursAt(sub, s, i);
        assert i != 0;
        assert s[1..][i - 1..i - 1 + |sub|] == s[i..i + |sub|];
        assert OccursAt(sub, s[1..], i - 1);
      }
      if Occurs(sub, s[1..]) {
        var j :| OccursAt(sub, s[1..], j);
        assert s[j + 1..j + 1 + |sub|] == s[1..][j..j + |sub|];
        assert OccursAt(sub, s, j + 1);
      }
    }
  }

  // ---------------------------------------------------------------------------
  // Hand resolution
  // ---------------------------------------------------------------------------

  /**
   Maps the name of the game's dominant-hand enum value to a controller:
   a name mentioning "Left" wins, then one mentioning "Right", and anything
   else falls back to the right controller. It never selects both.
   */
  function ResolveController(handName: string): (c: Controller)
    ensures c != Both
    ensures c == Left <==> Occurs("Left", handName)
    ensures c == Right <==> !Occurs("Left", handName)
  {
    ContainsIsOccurs(handName, "Left");
    if Contains(handName, "Left") then Left
    else if Contains(handName, "Right") then Right
    else Right  // unknown hand name: default to the right controller
  }

  /** A non-empty word whose first letter is missing from `s` does not occur in `s`. */
  lemma NoOccurrenceWithoutFirstChar(sub: string, s: string)
    requires |sub| > 0 && sub[0] !in s
    ensures !Occurs(sub, s)
  {
  }

  /** Concrete names, including one that mentions both sides. */
  lemma ResolveControllerExamples()
    ensures ResolveController("LeftHand") == Left
    ensures ResolveController("RightHand") == Right
    ensures ResolveController("RightOrLeft") == Left
    ensures ResolveController("None") == Right
  {
    assert OccursAt("Left", "LeftHand", 0);
    assert OccursAt("Left", "RightOrLeft", 7);
    NoOccurrenceWithoutFirstChar("Left", "RightHand");
    NoOccurrenceWithoutFirstChar("Left", "None");
  }

  // ---------------------------------------------------------------------------
  // Dispatch tables
  // ---------------------------------------------------------------------------

  /** Two commands of the same kind with the same parameters, whatever their targets. */
  predicate SameEffect(a: Command, b: Command) {
    match (a, b)
    case (Weapon(_, m, x, y), Weapon(_, m', x', y')) => m == m' && x == x' && y == y'
    case (MultiPositionFeedback(_, p), MultiPositionFeedback(_, p')) => p == p'
    case (Disable(_), Disable(_)) => true
    case (SlopeFeedback(_, m, x, y, k), SlopeFeedback(_, m', x', y', k')) => m == m' && x == x' && y == y' && k == k'
    case (Feedback(_, p, x), Feedback(_, p', x')) => p == p' && x == x'
    case _ => false
  }

  /** A command is fixed by its target and its effect. */
  lemma SameEffectAndTarget(a: Command, b: Command)
    requires SameEffect(a, b) && a.target == b.target
    ensures a == b
  {
  }

  /** The same command with its parameters kept and its target replaced. */
  function Retarget(c: Command, t: Controller): (r: Command)
    ensures r.target == t
    ensures c.target == t ==> r == c
    ensures SameEffect(c, r)
  {
    match c
    case Weapon(_, m, a, s) => Weapon(t, m, a, s)
    case MultiPositionFeedback(_, p) => MultiPositionFeedback(t, p)
    case Disable(_) => Disable(t)
    case SlopeFeedback(_, m, s, e, k) => SlopeFeedback(t, m, s, e, k)
    case Feedback(_, p, s) => Feedback(t, p, s)
  }

  /** The same command sent first to the left, then to the right controller. */
  function PerHand(c: Command): (cmds: seq<Command>)
    ensures |cmds| == 2 && cmds[0].target == Left && cmds[1].target == Right
    ensures SameEffect(cmds[0], cmds[1]) && SameEffect(c, cmds[0])
  {
    [Retarget(c, Left), Retarget(c, Right)]
  }

  /**
   Commands sent when both hands hold a gun. Types 0, 1, 2, 3 and 5 send one
   command per hand with identical parameters, left first; type 4 disables
   both triggers at once; any other type sends one basic feedback to both.
   */
  function DualWieldTriggerEffects(gunType: int): (cmds: seq<Command>)
    ensures 0 <= gunType <= 5 && gunType != 4 ==>
      |cmds| == 2 && cmds[0].target == Left && cmds[1].target == Right && SameEffect(cmds[0], cmds[1])
    ensures gunType == 4 ==> cmds == [Disable(Both)]
    ensures !(0 <= gunType <= 5) ==> cmds == [Feedback(Both, 128, 100)]
    ensures forall i :: 0 <= i < |cmds| ==> !cmds[i].Disable? || cmds[i].target == Both
  {
    match gunType
    case 0 => PerHand(Weapon(Left, 2, 5, 4))
    case 1 => PerHand(Weapon(Left, 2, 8, 8))
    case 2 => PerHand(Weapon(Left, 0, 4, 8))
    case 3 => PerHand(MultiPositionFeedback(Left, BurstPattern))
    case 4 => [Disable(Both)]
    case 5 => PerHand(SlopeFeedback(Left, 1, 9, 8, 1))
    case _ => [Feedback(Both, 128, 100)]
  }

  /**
   Commands sent when one hand holds the gun: exactly one command, aimed at the
   controller resolved from the dominant-hand name. Unknown types send the
   basic feedback; type 4 disables only that controller.
   */
  function SingleHandTriggerEffects(gunType: int, dominantHand: string): (cmds: seq<Command>)
    ensures |cmds| == 1
    ensures cmds[0].target == ResolveController(dominantHand) && cmds[0].target != Both
    ensures gunType == 4 ==> cmds[0].Disable?
    ensures !(0 <= gunType <= 5) ==> cmds[0] == Feedback(ResolveController(dominantHand), 128, 100)
  {
    var c := ResolveController(dominantHand);
    match gunType
    case 0 => [Weapon(c, 2, 4, 4)]
    case 1 => [Weapon(c, 2, 4, 8)]
    case 2 => [Weapon(c, 0, 4, 8)]
    case 3 => [MultiPositionFeedback(c, BurstPattern)]
    case 4 => [Disable(c)]
    case 5 => [SlopeFeedback(c, 1, 9, 8, 1)]
    case _ => [Feedback(c, 128, 100)]
  }

  /**
   The exact rows of both tables for the Weapon and SlopeFeedback types. The
   two tables agree, up to the target, on types 2, 3 and 5, and disagree on
   types 0 and 1: the single-hand light and medium rows are (2, 4, 4) and
   (2, 4, 8), the dual-wield ones (2, 5, 4) and (2, 8, 8).
   */
  lemma SingleAndDualRows(gunType: int, dominantHand: string)
    ensures gunType in {2, 3, 5} ==>
      Retarget(SingleHandTriggerEffects(gunType, dominantHand)[0], Left) == DualWieldTriggerEffects(gunType)[0]
    ensures gunType in {0, 1} ==>
      Retarget(SingleHandTriggerEffects(gunType, dominantHand)[0], Left) != DualWieldTriggerEffects(gunType)[0]
    ensures gunType == 0 ==> DualWieldTriggerEffects(0) == [Weapon(Left, 2, 5, 4), Weapon(Right, 2, 5, 4)]
    ensures gunType == 1 ==> DualWieldTriggerEffects(1) == [Weapon(Left, 2, 8, 8), Weapon(Right, 2, 8, 8)]
    ensures gunType == 0 ==>
      SingleHandTriggerEffects(0, dominantHand) == [Weapon(ResolveController(dominantHand), 2, 4, 4)]
    ensures gunType == 1 ==>
      SingleHandTriggerEffects(1, dominantHand) == [Weapon(ResolveController(dominantHand), 2, 4, 8)]
    ensures gunType == 2 ==> DualWieldTriggerEffects(2) == [Weapon(Left, 0, 4, 8), Weapon(Right, 0, 4, 8)]
    ensures gunType == 5 ==>
      DualWieldTriggerEffects(5) == [SlopeFeedback(Left, 1, 9, 8, 1), SlopeFeedback(Right, 1, 9, 8, 1)]
    ensures gunType == 2 ==>
      SingleHandTriggerEffects(2, dominantHand) == [Weapon(ResolveController(dominantHand), 0, 4, 8)]
    ensures gunType == 5 ==>
      SingleHandTriggerEffects(5, dominantHand) == [SlopeFeedback(ResolveController(dominantHand), 1, 9, 8, 1)]
  {
  }

  /** Type 3 sends the same ten-entry pattern in both modes. */
  lemma BurstPatternInBothModes(dominantHand: string)
    ensures |BurstPattern| == 10
    ensures SingleHandTriggerEffects(3, dominantHand)[0].MultiPositionFeedback?
    ensures SingleHandTriggerEffects(3, dominantHand)[0].strengths == BurstPattern
    ensures forall i :: 0 <= i < 2 ==>
      DualWieldTriggerEffects(3)[i].MultiPositionFeedback? && DualWieldTriggerEffects(3)[i].strengths == BurstPattern
  {
  }
}
