# DeviceUpdater: a Dafny model

This project models the core of the Minimal_Updater firmware update agent,
the `DeviceUpdater` class. The class runs an update state machine
(Idle → Download → Verify → Apply → Reboot → Idle). Each forward step is
gated by an operator confirmation flag, and a second activity reads command
tokens and raises those flags. The project proves properties of that model.

The model is split into five modules:

- `Base` (base.dfy): the `Byte` type (`uint8_t`) and `Option`.
- `Integrity` (integrity.dfy): the checksum check. `VerifyChecksum` is the
  source's accumulator loop. An 8-bit sum wraps around at 256. The loop is
  proved against the unbounded `Sum` and `% 256`. `Intact` is the rule for a
  whole artifact file: its last byte is the checksum of the bytes before it.
  `Seal` is the matching vendor-side encoding.
- `Updater` (updater.dfy): the states, the four flags
  (`downloadAvailable`, `toVerify`, `toApply`, `toReboot`) and the token
  table `Command`. It also holds `Next`, one pass of the state-machine loop
  as a function of the old state, and the `DeviceUpdater` class. The class
  has the source's fields, and its methods update them in place.
  `HandleCommand` is one token of the command loop. `Step` is one pass of
  the state-machine loop. `Interleave` runs any interleaving of the two.
- `Traces` (traces.dfy): lemmas about one pass, one token and whole
  interleavings. They cover the transition table, flags as level signals,
  and the rule that attempts never resume half-way.
- `Scenarios` (scenarios.dfy): end-to-end runs written as method calls on
  one `DeviceUpdater` object. They show the reference good and corrupt
  artifacts, the timeout restart, a stale reboot request, and a missing file.

Inputs from the outside world are parameters:

- the file system is a `map<string, seq<Byte>>` handed to each
  state-machine pass, and the artifact is looked up under `artifactFileName`;
- the apply backend's verdict is a boolean parameter of `Step`. The source's
  stand-in `ApplyUpdate` always returns true, and the scenarios pass its result.

Behaviour of the code worth knowing:

- The file is read again in the Verify state. No bytes are carried over from
  Download, so the file seen by Verify may differ from the one downloaded.
  `Step` takes the file system afresh on every pass.
- A flag raised while the machine is in a state it does not gate is not
  ignored. It stays raised until it is consumed: only a pass in its own state clears it, and in Download, Verify and Apply only when that state's collaborator also succeeds (`NextKeepsOtherFlags`,
  `Scenarios.StaleRebootFires`).
- `DownloadArtifact` stores the file size in an `int`
  (src/DeviceUpdater.cpp:91). The model narrows the size to 32-bit two's
  complement (`TellgAsInt`). Below 2 GiB, "exists and is non-empty" holds
  exactly (`DownloadableIffNonEmpty`). A 2 GiB artifact is refused
  (`TwoGiBArtifactRefused`).
- The source returns only a boolean from the download, not the byte count.
- The blocking wait in Idle becomes a pass that changes nothing while
  `downloadAvailable` is false. A timed wait for a confirmation becomes
  reading the flag once, so a timeout is the flag being false.

## Model

| member | source | states |
|---|---|---|
| `Integrity.VerifyChecksum` | src/DeviceUpdater.cpp:130-149 | true iff the payload is non-empty and the 8-bit wrapped sum of its bytes equals the checksum; the loop keeps the accumulator equal to the prefix sum mod 256 |
| `Integrity.Seal` | src/DeviceUpdater.cpp:113-116 | the payload followed by one byte, the sum of the payload mod 256, as the artifact format assumes |
| `Integrity.ShortArtifactsFail` | src/DeviceUpdater.cpp:173-178 | an empty or one-byte artifact never verifies (its payload is empty) |
| `Integrity.ReferenceArtifacts` | src/DeviceUpdater.cpp:160-181 | `[10,20,30,60]` verifies and `[10,20,30,61]` does not |
| `Integrity.SealIntact` | src/DeviceUpdater.cpp:160-181 | every sealed non-empty payload verifies |
| `Integrity.IntactIffSealed` | src/DeviceUpdater.cpp:160-181 | an artifact verifies iff it has at least two bytes and is the seal of everything but its last byte |
| `Integrity.SingleByteCorruptionDetected` | src/DeviceUpdater.cpp:130-181 | changing any one byte (payload or checksum) of an artifact that verifies makes it fail |
| `Updater.TellgAsInt` | src/DeviceUpdater.cpp:91 | the size read into `int`: in the 32-bit range, congruent to the size mod 2^32, equal to it below 2^31 |
| `Updater.DeviceUpdater.constructor` | src/DeviceUpdater.cpp:31-43 | starts in Idle with all four flags false; an empty file name becomes `update_artifact_good.bin`, any other is kept |
| `Updater.DeviceUpdater.DownloadArtifact` | src/DeviceUpdater.cpp:79-107 | succeeds iff the artifact file exists and its size, read into an `int`, is positive |
| `Updater.DeviceUpdater.VerifyDownload` | src/DeviceUpdater.cpp:160-181 | succeeds iff the file's last byte is the checksum of the rest; a missing or empty file fails; success implies at least two bytes |
| `Updater.DeviceUpdater.ApplyUpdate` | src/DeviceUpdater.cpp:192-196 | the stand-in backend always reports success |
| `Updater.DeviceUpdater.HandleCommand` | src/DeviceUpdater.cpp:214-246 | the state is unchanged and the flags become `Command` of the old flags and the token |
| `Updater.DeviceUpdater.CommandInterface` | src/DeviceUpdater.cpp:204-250 | after a sequence of tokens the state is unchanged and each flag is raised iff it was raised before or its token occurs |
| `Updater.DeviceUpdater.Step` | src/DeviceUpdater.cpp:267-410 | the new state and flags are `Next` of the old ones, the file under the artifact name and the apply verdict |
| `Updater.DeviceUpdater.Interleave` | src/DeviceUpdater.cpp:204-411 | after any interleaving of tokens and passes, state and flags are `Run` of the old ones over that interleaving |
| `Traces.NextFollowsTable` | src/DeviceUpdater.cpp:273-406 | Idle advances iff `downloadAvailable`, else stays; Download/Verify/Apply advance iff the collaborator succeeds and the gating flag is raised, clearing only it, else go to Idle with no flag changed; Reboot always goes to Idle |
| `Traces.NextKeepsOtherFlags` | src/DeviceUpdater.cpp:275-402 | a pass leaves every flag but the current state's gating flag unchanged |
| `Traces.NextClearsIffAdvances` | src/DeviceUpdater.cpp:278-381 | a pass never raises a flag, and clears a gating flag exactly when it moves from that flag's state to the next one |
| `Traces.NextEntersFromPredecessor` | src/DeviceUpdater.cpp:273-406 | Download, Verify, Apply and Reboot are only entered from their predecessor |
| `Traces.UnrelatedFlagIgnored` | src/DeviceUpdater.cpp:275-402 | raising a flag that does not gate the current state does not change where the pass leads |
| `Traces.CommandRaisesOnlyItsFlag` | src/DeviceUpdater.cpp:214-246 | each of the four tokens raises exactly its flag; any other token changes nothing |
| `Traces.CommandIdempotentAndCommutative` | src/DeviceUpdater.cpp:214-246 | repeating a token changes nothing more; two tokens commute |
| `Traces.DownloadableIffNonEmpty` | src/DeviceUpdater.cpp:86-104 | below 2 GiB, a download succeeds iff the file exists and is non-empty |
| `Traces.TwoGiBArtifactRefused` | src/DeviceUpdater.cpp:91-96 | a 2^31-byte artifact is refused, because its size reads as negative |
| `Traces.ConsumptionsAreIssued` | src/DeviceUpdater.cpp:214-246 | in any run, the consumptions of a flag plus its final value are at most the tokens raising it plus its initial value |
| `Traces.EntriesAreConsumptions` | src/DeviceUpdater.cpp:275-381 | in any run, entries into the next state of `st` are exactly the consumptions of `st`'s gating flag |
| `Traces.PipelineOrder` | src/DeviceUpdater.cpp:273-406 | in any run, entries into the next state of `st` are at most the entries into `st` (plus one if the run starts in `st`) |
| `Traces.FromPowerOn` | src/DeviceUpdater.cpp:31-43 | from construction, each forward move happens at most as often as its token was received, and reboots ≤ applies ≤ verifies ≤ downloads |
| `Scenarios.GoodArtifactCycle` | src/DeviceUpdater.cpp:267-410 | artifact `[10,20,30,60]` with the four tokens in order passes Download, Verify, Apply, Reboot and returns to the initial state |
| `Scenarios.CorruptArtifactAborts` | src/DeviceUpdater.cpp:328-362 | artifact `[10,20,30,61]` fails Verify and returns to Idle without reaching Apply; the apply request stays raised |
| `Scenarios.TimeoutRestarts` | src/DeviceUpdater.cpp:285-326 | no confirmation after a download returns to Idle; Idle then waits, and a new start request begins a fresh Download |
| `Scenarios.StaleRebootFires` | src/DeviceUpdater.cpp:376-381 | a reboot request sent during Download is consumed on reaching Apply, with no further token |
| `Scenarios.MissingArtifactFails` | src/DeviceUpdater.cpp:84-107 | a missing artifact file fails Download; an unknown token has no effect and a repeated `--verify` stays as one raised flag |

## Left out

- Threads, the mutex and the condition variable (src/DeviceUpdater.cpp:45-46, 207, 263): concurrency is not modelled. Each command token and each pass of the state-machine loop is one atomic call, matching the lock-protected sections, and an interleaving is a sequence of such calls.
- Wall-clock time: the 60-second confirmation timeout, the 2-second pause between passes and the 1-second delay in `ApplyUpdate`. A timeout is the flag being false when it is read.
- File and console I/O: opening, sizing and reading the artifact file become a lookup in a map from file names to byte sequences; `cin`, `cout` and `fflush` are dropped, as is the unreachable sleep after the command loop.
- The perpetual loops: both `while(true)` loops are modelled by `Interleave` and `CommandInterface` over finite sequences of events and tokens.
- End of input on the command channel: at src/DeviceUpdater.cpp:212 a failed `cin>>input` keeps the previous token, and `cin.clear()` at line 248 resets the stream, so the source would apply the last token again forever. Console input is not modelled; `CommandInterface` reads a finite token sequence once.
- The `default:` branch of the state switch, which no enum value reaches.
- The destructor's thread joins (src/DeviceUpdater.cpp:56-68) and src/main.cpp, which only prints usage and passes its first argument to the constructor.
- Integrity.VerifyChecksum: payloads of 2^32 bytes or more, where the source's `unsigned int` loop index would wrap, are not modelled; the index is unbounded.
