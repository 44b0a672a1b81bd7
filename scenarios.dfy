/**
 * End-to-end runs of one DeviceUpdater, written as the sequence of method
 * calls that an interleaving of operator commands and state-machine passes
 * performs. Each returns the state after every pass and the final flags.
 */
module Scenarios {
  import opened Base
  import opened Integrity
  import opened Updater

  /** The well-formed artifact with every command sent in order: a full cycle back to Idle. */
  method GoodArtifactCycle() returns (trail: seq<UpdateState>, last: Snapshot)
    ensures trail == [Download, Verify, Apply, Reboot, Idle]
    ensures last == Initial
  {
    ReferenceArtifacts();
    var updater := new DeviceUpdater("");
    var files := map[DefaultArtifactFileName := [10, 20, 30, 60]];
    updater.HandleCommand(StartUpdateCommand);
    updater.Step(files, true);
    trail := [updater.state];
    updater.HandleCommand(VerifyCommand);
    updater.Step(files, true);
    trail := trail + [updater.state];
    updater.HandleCommand(ApplyCommand);
    updater.Step(files, true);
    trail := trail + [updater.state];
    updater.HandleCommand(RebootCommand);
    var applied := updater.ApplyUpdate();
    updater.Step(files, applied);
    trail := trail + [updater.state];
    updater.Step(files, true);
    trail := trail + [updater.state];
    last := updater.View();
  }

  /** A checksum mismatch: verification fails and Apply is never reached, although it was requested. */
  method CorruptArtifactAborts() returns (trail: seq<UpdateState>, last: Snapshot)
    ensures trail == [Download, Verify, Idle]
    ensures last == Snapshot(Idle, Signals(false, false, true, false))
  {
    ReferenceArtifacts();
    var updater := new DeviceUpdater("");
    var files := map[DefaultArtifactFileName := [10, 20, 30, 61]];
    updater.HandleCommand(StartUpdateCommand);
    updater.Step(files, true);
    trail := [updater.state];
    updater.HandleCommand(VerifyCommand);
    updater.Step(files, true);
    trail := trail + [updater.state];
    updater.HandleCommand(ApplyCommand);
    updater.Step(files, true);
    trail := trail + [updater.state];
    last := updater.View();
  }

  /** No confirmation after the download: back to Idle, and a new start request begins a fresh attempt. */
  method TimeoutRestarts() returns (trail: seq<UpdateState>, last: Snapshot)
    ensures trail == [Download, Idle, Idle, Download]
    ensures last == Initial.(state := Download)
  {
    var updater := new DeviceUpdater("");
    var files := map[DefaultArtifactFileName := [10, 20, 30, 60]];
    updater.HandleCommand(StartUpdateCommand);
    updater.Step(files, true);
    trail := [updater.state];
    updater.Step(files, true);
    trail := trail + [updater.state];
    updater.Step(files, true);
    trail := trail + [updater.state];
    updater.HandleCommand(StartUpdateCommand);
    updater.Step(files, true);
    trail := trail + [updater.state];
    last := updater.View();
  }

  /** A reboot request sent during Download is kept and fires as soon as Apply is reached. */
  method StaleRebootFires() returns (trail: seq<UpdateState>, last: Snapshot)
    ensures trail == [Download, Verify, Apply, Reboot]
    ensures last == Snapshot(Reboot, Signals(false, false, false, false))
  {
    ReferenceArtifacts();
    var updater := new DeviceUpdater("");
    var files := map[DefaultArtifactFileName := [10, 20, 30, 60]];
    updater.HandleCommand(StartUpdateCommand);
    updater.Step(files, true);
    trail := [updater.state];
    updater.HandleCommand(RebootCommand);
    updater.HandleCommand(VerifyCommand);
    updater.Step(files, true);
    trail := trail + [updater.state];
    updater.HandleCommand(ApplyCommand);
    updater.Step(files, true);
    trail := trail + [updater.state];
    updater.Step(files, true);
    trail := trail + [updater.state];
    last := updater.View();
  }

  /** A missing artifact file fails the download, whatever was requested. */
  method MissingArtifactFails() returns (trail: seq<UpdateState>, last: Snapshot)
    ensures trail == [Download, Idle]
    ensures last == Snapshot(Idle, Signals(false, true, false, false))
  {
    var updater := new DeviceUpdater("other.bin");
    var files := map[DefaultArtifactFileName := [10, 20, 30, 60]];
    updater.CommandInterface([StartUpdateCommand, "--bogus", VerifyCommand, VerifyCommand]);
    updater.Step(files, true);
    trail := [updater.state];
    updater.Step(files, true);
    trail := trail + [updater.state];
    last := updater.View();
  }
}
