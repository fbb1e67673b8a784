# PSVR2 adaptive triggers for Pistol Whip — a Dafny model

The mod runs once per game frame. It looks at the guns the player holds. When
the dominant-hand gun's type or the dual-wield flag differs from what it last
applied, it remembers the new pair. It then sends the PSVR2 controllers an
adaptive-trigger effect chosen from one of two fixed tables: one for dual
wielding and one for a single hand.

The project has two modules:

- `Effects` (`effects.dfy`) holds the command vocabulary of the IPC client
  (`Weapon`, `MultiPositionFeedback`, `Disable`, `SlopeFeedback`, `Feedback`,
  each aimed at `Left`, `Right` or `Both`). It also holds the rule that turns
  the dominant-hand enum name into a controller, and the two dispatch tables.
  The tables are pure functions: each `ipcClient.TriggerEffect…` call becomes a
  returned `Command`, in call order.
- `PSVRTriggers` (`core.dfy`) holds one frame as plain values: the `Frame`
  inputs, the `Retained` pair and the specification function `Tick`. It also
  holds the class `Core`. That class has the two retained fields
  `lastGunType` (initially -1) and `lastDualWieldState` (initially false), plus
  `sent`, the log of every command handed to the IPC client. `Core.OnUpdate`
  mirrors the frame callback step by step and is proved equal to `Tick`.

The world is given to `OnUpdate` as a `Frame`. A frame says whether the IPC
client and the gun manager exist, which hands hold a gun (only presence
matters), the dominant-hand gun's type code, the dual-wield flag, and the text
of the dominant-hand enum value's `ToString()`.

Points of the code's behaviour worth noting:

- No `Disable(Both)` reset is sent before an effect.
- Weapon identity is never compared; see `GunIdentityIgnored`.
- The type comes from the dominant-hand gun. The left-preferred "current gun"
  is used only for the null check.
- The single-hand controller comes from the enum name by substring search,
  not from comparing gun references.
- The parameter table is the code's. Dual type 0 is (2, 5, 4) and dual type 1
  is (2, 8, 8). Type 2 is `Weapon(0, 4, 8)`. Type 3 is the multi-position
  pattern [5,0,0,6,0,0,7,0,0,8]. Type 5 is `SlopeFeedback(1, 9, 8, 1)` sent
  once per hand. Dual type 4 is one `Disable(Both)`. The single-hand fallback
  is `Feedback(c, 128, 100)`.

## Model

| member | source | states |
|---|---|---|
| `Effects.ContainsIsOccurs` | Core.cs:113-117 | The executable containment test used on the hand name holds exactly when the word occurs at some offset (both directions). |
| `Effects.ResolveController` | Core.cs:110-126 | The controller is never `Both`. It is `Left` exactly when the name contains "Left", whatever else it contains; otherwise it is `Right`, including for names that contain neither word. |
| `Effects.ResolveControllerExamples` | Core.cs:113-125 | "LeftHand" gives Left, "RightHand" gives Right, "RightOrLeft" gives Left ("Left" is checked first), and "None" falls back to Right. |
| `Effects.SameEffectAndTarget` | Core.cs:70-96 | Two commands of the same kind with identical parameters and the same target are the same command, so "identical parameters" leaves nothing but the target free. |
| `Effects.DualWieldTriggerEffects` | Core.cs:65-104 | Types 0, 1, 2, 3 and 5 send exactly two commands, Left then Right, of the same kind with identical parameters. Type 4 sends exactly `Disable(Both)`. Any type outside 0-5 sends exactly `Feedback(Both, 128, 100)`. No per-hand disable is ever sent. |
| `Effects.SingleHandTriggerEffects` | Core.cs:106-160 | Every type sends exactly one command, aimed at the resolved controller, which is never `Both`. Type 4 is a disable of that controller. An unknown type sends `Feedback(c, 128, 100)`. |
| `Effects.SingleAndDualRows` | Core.cs:69-153 | The exact rows of both tables for types 0, 1, 2 and 5, with `c` the resolved controller. Single-hand: `Weapon(c, 2, 4, 4)`, `Weapon(c, 2, 4, 8)`, `Weapon(c, 0, 4, 8)`, `SlopeFeedback(c, 1, 9, 8, 1)`. Dual: the same command to Left then Right with (2, 5, 4), (2, 8, 8), `Weapon` (0, 4, 8) and `SlopeFeedback` (1, 9, 8, 1). Types 2, 3 and 5 therefore agree across modes up to the target; types 0 and 1 differ. |
| `Effects.BurstPatternInBothModes` | Core.cs:84-144 | Type 3 sends a multi-position feedback whose pattern has length 10 and is [5,0,0,6,0,0,7,0,0,8], in the single-hand command and in both dual commands. |
| `PSVRTriggers.CurrentGun` | Core.cs:43 | The current gun is missing exactly when both hands are empty; it is the left gun whenever there is one, and the right gun otherwise. |
| `PSVRTriggers.Dispatch` | Core.cs:55-62 | The table chosen by the dual-wield flag always sends something: every row of both tables makes at least one call. Without dual wielding it sends one command, never aimed at `Both`. |
| `PSVRTriggers.Tick` | Core.cs:36-63 | A frame sends commands exactly when the client, the manager and a gun are present and the type or flag changed. A silent frame leaves the retained pair as it was; a sending frame stores the frame's type and flag. |
| `PSVRTriggers.NotReadyIsNoOp` | Core.cs:38-46 | With no client, no manager, or no gun in either hand, the frame sends nothing and leaves both retained fields unchanged. |
| `PSVRTriggers.UnchangedIsNoOp` | Core.cs:49-50 | A frame whose type and flag equal the retained ones sends nothing and keeps the state, and repeating it gives the same result (idempotence). |
| `PSVRTriggers.ChangedRecordsFrame` | Core.cs:52-62 | A ready, changed frame sets `lastGunType` to the frame's type and `lastDualWieldState` to its flag. It sends the dual-wield table when the flag is set, and otherwise the single-hand table for the dominant hand. |
| `PSVRTriggers.RepeatIsNoOp` | Core.cs:50-53 | From any state, a frame repeated right after itself sends nothing and changes nothing. |
| `PSVRTriggers.GunIdentityIgnored` | Core.cs:49-50 | Frames that differ only in which gun objects are held behave identically: swapping a gun for another of the same type sends nothing new. |
| `PSVRTriggers.RepeatedFrameSendsOnce` | Core.cs:36-63 | Over `n` repetitions of one frame, only the first can send commands. It sends exactly when the frame is ready and differs from the retained pair. |
| `PSVRTriggers.SteadyFramesSendNothing` | Core.cs:50 | From a state on which a frame is a no-op, any number of repetitions of that frame sends nothing. |
| `PSVRTriggers.FreshStartScenario` | Core.cs:17-18 | From the initial pair (-1, false), a single-hand type-0 frame with a left dominant hand sends `Weapon(Left, 2, 4, 4)` and stores (0, false). Turning on dual wielding then sends `Weapon(Left, 2, 5, 4)` and `Weapon(Right, 2, 5, 4)` and stores (0, true). |
| `PSVRTriggers.Core.constructor` | Core.cs:17-18 | A new mod object starts with `lastGunType == -1`, `lastDualWieldState == false` and nothing sent. |
| `PSVRTriggers.Core.OnUpdate` | Core.cs:36-63 | The new retained fields are those `Tick` gives for the old ones, and the sent log grows by exactly `Tick`'s commands. A frame that is not ready or not changed leaves the object untouched. |

## Left out

- `OnInitializeMelon` and `OnApplicationQuit` are host lifecycle hooks. They start and stop the IPC client and only log the outcome. Whether the client exists is a frame input.
- The MelonLoader attributes, logging (including the unknown-hand warning) and unused imports have no effect on behaviour.
- The `IpcClient` transport and its wire protocol are not modelled. Each `TriggerEffect…` call is an append to `Core.sent`. Every argument is modelled as a byte value. The numeric arguments are named by position (`arg1`, `arg2`, …), since the mod gives them no meaning of its own.
- `PlayerGunManager.instance` and the Unity/Il2Cpp types become plain frame inputs. Guns are opaque identities, and the dominant-hand enum is the text of its `ToString()`.
- `PSVRTriggers.Core.OnUpdate`: a missing `currentGunDominantHand` while some hand holds a gun would raise a null-reference error in the game. The frame always carries a dominant gun type, so that failure is not modelled.
- The enum-to-int cast of the gun type is taken as an arbitrary `int`. Values outside 0-5 go to the fallback row, as in the code.
