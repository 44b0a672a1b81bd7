/**
 * The DeviceUpdater: an update state machine driven by four operator
 * confirmation flags, and the command intake that raises them.
 *
 * Every method below stands for one critical section of the original
 * two-thread design: one command token handled under the lock, or one pass of
 * the state-machine loop. A blocking or timed wait for a flag is collapsed
 * into reading the flag's current value; a timeout is the flag being false.
 */
module Updater {
  import opened Base
  import opened Integrity

  /** The five states of an update attempt. */
  datatype UpdateState = Idle | Download | Verify | Apply | Reboot

  /** The four confirmation flags shared by the command intake and the state machine. */
  datatype Signals = Signals(downloadAvailable: bool, toVerify: bool, toApply: bool, toReboot: bool)

  /** The whole mutable state of a DeviceUpdater. */
  datatype Snapshot = Snapshot(state: UpdateState, signals: Signals)

  /** Names for the four flags, so that properties can quantify over them. */
  datatype Flag = DownloadAvailable | ToVerify | ToApply | ToReboot

  const DefaultArtifactFileName: string := "update_artifact_good.bin"
  const StartUpdateCommand: string := "--start-update"
  const VerifyCommand: string := "--verify"
  const ApplyCommand: string := "--apply"
  const RebootCommand: string := "--reboot"

  /** The state a DeviceUpdater is constructed in. */
  const Initial: Snapshot := Snapshot(Idle, Signals(false, false, false, false))

  function Get(s: Signals, f: Flag): bool
  {
    match f
    case DownloadAvailable => s.downloadAvailable
    case ToVerify => s.toVerify
    case ToApply => s.toApply
    case ToReboot => s.toReboot
  }

  function Set(s: Signals, f: Flag, v: bool): (r: Signals)
    ensures Get(r, f) == v
    ensures forall g :: g != f ==> Get(r, g) == Get(s, g)
  {
    match f
    case DownloadAvailable => s.(downloadAvailable := v)
    case ToVerify => s.(toVerify := v)
    case ToApply => s.(toApply := v)
    case ToReboot => s.(toReboot := v)
  }

  /** The command-line token table: which flag a token raises, if any. */
  function FlagOf(token: string): Option<Flag>
  {
    if token == StartUpdateCommand then Some(DownloadAvailable)
    else if token == VerifyCommand then Some(ToVerify)
    else if token == ApplyCommand then Some(ToApply)
    else if token == RebootCommand then Some(ToReboot)
    else None
  }

  /** The state that follows `st` in a successful attempt. */
  function Succ(st: UpdateState): UpdateState
  {
    match st
    case Idle => Download
    case Download => Verify
    case Verify => Apply
    case Apply => Reboot
    case Reboot => Idle
  }

  /** The flag that must be raised for the machine to leave `st` forwards. */
  function Gate(st: UpdateState): Flag
    requires st != Reboot
  {
    match st
    case Idle => DownloadAvailable
    case Download => ToVerify
    case Verify => ToApply
    case Apply => ToReboot
  }

  /** The flags after the command intake has read one token. */
  function Command(s: Signals, token: string): Signals
  {
    match FlagOf(token)
    case Some(f) => Set(s, f, true)
    case None => s
  }

  /** The file a name opens, if it exists. */
  function Open(files: map<string, seq<Byte>>, name: string): Option<seq<Byte>>
  {
    if name in files then Some(files[name]) else None
  }

  /** The bytes read from a file; a file that does not open reads as nothing. */
  function Contents(file: Option<seq<Byte>>): seq<Byte>
  {
    if file.Some? then file.value else []
  }

  /**
   * The value `int file_size = tellg()` holds for a file of `size` bytes: the
   * size narrowed to a 32-bit two's-complement `int`.
   */
  function TellgAsInt(size: nat): (r: int)
    ensures -0x8000_0000 <= r < 0x8000_0000
    ensures (size - r) % 0x1_0000_0000 == 0
    ensures size < 0x8000_0000 ==> r == size
  {
    var w := size % 0x1_0000_0000;
    if w < 0x8000_0000 then w else w - 0x1_0000_0000
  }

  /** The download policy: the file opens and its size, as an `int`, is positive. */
  predicate Downloadable(file: Option<seq<Byte>>)
  {
    file.Some? && TellgAsInt(|file.value|) > 0
  }

  /**
   * One pass of the state-machine loop, given the artifact file as it is on
   * disk during that pass and the verdict of the apply backend.
   */
  function Next(m: Snapshot, artifact: Option<seq<Byte>>, applied: bool): Snapshot
  {
    var s := m.signals;
    match m.state
    case Idle =>
      if s.downloadAvailable then Snapshot(Download, s.(downloadAvailable := false)) else m
    case Download =>
      if !Downloadable(artifact) then Snapshot(Idle, s)
      else if s.toVerify then Snapshot(Verify, s.(toVerify := false))
      else Snapshot(Idle, s)
    case Verify =>
      if !Intact(Contents(artifact)) then Snapshot(Idle, s)
      else if s.toApply then Snapshot(Apply, s.(toApply := false))
      else Snapshot(Idle, s)
    case Apply =>
      if !applied then Snapshot(Idle, s)
      else if s.toReboot then Snapshot(Reboot, s.(toReboot := false))
      else Snapshot(Idle, s)
    case Reboot =>
      Snapshot(Idle, s)
  }

  /** One atomic event of the two interleaved activities. */
  datatype Event =
    | Input(token: string)
    | Tick(files: map<string, seq<Byte>>, applied: bool)

  /** The effect of one event on a DeviceUpdater whose artifact is named `name`. */
  function Perform(name: string, m: Snapshot, e: Event): Snapshot
  {
    match e
    case Input(token) => Snapshot(m.state, Command(m.signals, token))
    case Tick(files, applied) => Next(m, Open(files, name), applied)
  }

  /** The effect of a sequence of events, in order. */
  function Run(name: string, m: Snapshot, events: seq<Event>): Snapshot
    decreases |events|
  {
    if events == [] then m else Run(name, Perform(name, m, events[0]), events[1..])
  }

  class DeviceUpdater {
    var state: UpdateState
    var downloadAvailable: bool
    var toVerify: bool
    var toApply: bool
    var toReboot: bool
    const artifactFileName: string

    /** The fields as one value. */
    function View(): Snapshot
      reads this
    {
      Snapshot(state, Signals(downloadAvailable, toVerify, toApply, toReboot))
    }

    /** Starts idle with no flag raised; an empty file name selects the default artifact. */
    constructor (fileName: string)
      ensures View() == Initial
      ensures artifactFileName == (if fileName == "" then DefaultArtifactFileName else fileName)
      ensures artifactFileName != ""
    {
      state := Idle;
      downloadAvailable, toVerify, toApply, toReboot := false, false, false, false;
      var name := fileName;
      if name == "" {
        name := DefaultArtifactFileName;
      }
      artifactFileName := name;
    }

    /** Fetches the artifact: succeeds when the file opens and its size is positive. */
    method DownloadArtifact(files: map<string, seq<Byte>>) returns (downloadOk: bool)
      ensures downloadOk <==> Downloadable(Open(files, artifactFileName))
    {
      downloadOk := false;
      if artifactFileName in files {
        var fileSize := TellgAsInt(|files[artifactFileName]|);
        if fileSize > 0 {
          downloadOk := true;
        }
      }
    }

    /**
     * Reads the artifact, splits off its last byte as the checksum and checks
     * the remaining payload against it; an unreadable or empty file fails.
     */
    method VerifyDownload(files: map<string, seq<Byte>>) returns (verificationOk: bool)
      ensures verificationOk <==> Intact(Contents(Open(files, artifactFileName)))
      ensures verificationOk ==> artifactFileName in files && |files[artifactFileName]| >= 2
    {
      verificationOk := false;
      var fileBytes := Contents(Open(files, artifactFileName));
      if fileBytes != [] {
        var checksum := fileBytes[|fileBytes| - 1];
        fileBytes := fileBytes[..|fileBytes| - 1];
        verificationOk := VerifyChecksum(checksum, fileBytes);
      }
    }

    /** The stand-in apply backend: it always reports success. */
    method ApplyUpdate() returns (applied: bool)
      ensures applied
    {
      applied := true;
    }

    /** Handles one command token: a recognised token raises its flag, any other is ignored. */
    method HandleCommand(input: string)
      modifies this
      ensures state == old(state)
      ensures View().signals == Command(old(View()).signals, input)
    {
      if input == StartUpdateCommand {
        downloadAvailable := true;
      } else if input == VerifyCommand {
        toVerify := true;
      } else if input == ApplyCommand {
        toApply := true;
      } else if input == RebootCommand {
        toReboot := true;
      }
    }

    /** Reads tokens in order; afterwards each flag is raised iff it was or its token came. */
    method CommandInterface(inputs: seq<string>)
      modifies this
      ensures state == old(state)
      ensures downloadAvailable == (old(downloadAvailable) || StartUpdateCommand in inputs)
      ensures toVerify == (old(toVerify) || VerifyCommand in inputs)
      ensures toApply == (old(toApply) || ApplyCommand in inputs)
      ensures toReboot == (old(toReboot) || RebootCommand in inputs)
    {
      for i := 0 to |inputs|
        invariant state == old(state)
        invariant downloadAvailable == (old(downloadAvailable) || StartUpdateCommand in inputs[..i])
        invariant toVerify == (old(toVerify) || VerifyCommand in inputs[..i])
        invariant toApply == (old(toApply) || ApplyCommand in inputs[..i])
        invariant toReboot == (old(toReboot) || RebootCommand in inputs[..i])
      {
        assert inputs[..i + 1] == inputs[..i] + [inputs[i]];
        HandleCommand(inputs[i]);
      }
      assert inputs[..|inputs|] == inputs;
    }

    /** One pass of the state-machine loop. */
    method Step(files: map<string, seq<Byte>>, applied: bool)
      modifies this
      ensures View() == Next(old(View()), Open(files, artifactFileName), applied)
    {
      match state
      case Idle =>
        if downloadAvailable {
          downloadAvailable := false;
          state := Download;
        }
      case Download =>
        var downloaded := DownloadArtifact(files);
        if downloaded {
          if toVerify {
            toVerify := false;
            state := Verify;
          } else {
            state := Idle;
          }
        } else {
          state := Idle;
        }
      case Verify =>
        var verified := VerifyDownload(files);
        if verified {
          if toApply {
            toApply := false;
            state := Apply;
          } else {
            state := Idle;
          }
        } else {
          state := Idle;
        }
      case Apply =>
        if applied {
          if toReboot {
            toReboot := false;
            state := Reboot;
          } else {
            state := Idle;
          }
        } else {
          state := Idle;
        }
      case Reboot =>
        state := Idle;
    }

    /** Processes an interleaving of command tokens and state-machine passes. */
    method Interleave(events: seq<Event>)
      modifies this
      ensures View() == Run(artifactFileName, old(View()), events)
    {
      for i := 0 to |events|
        invariant Run(artifactFileName, View(), events[i..]) == Run(artifactFileName, old(View()), events)
      {
        assert events[i..][1..] == events[i + 1..];
        match events[i]
        case Input(token) => HandleCommand(token);
        case Tick(files, applied) => Step(files, applied);
      }
    }
  }
}
