/**
 * Properties of the DeviceUpdater model: of one state-machine pass, of one
 * command token, and of whole interleavings of the two.
 */
module Traces {
  import opened Base
  import opened Integrity
  import opened Updater

  /** Whether the collaborator that the pass in `st` calls reports success. */
  predicate CollaboratorOk(st: UpdateState, artifact: Option<seq<Byte>>, applied: bool)
  {
    match st
    case Download => Downloadable(artifact)
    case Verify => Intact(Contents(artifact))
    case Apply => applied
    case _ => true
  }

  /**
   * The transition table in one shape: from Idle the machine advances iff the
   * download flag is raised and otherwise stays; from Download, Verify and
   * Apply it advances iff its collaborator succeeds and its gating flag is
   * raised, clearing only that flag, and otherwise returns to Idle with every
   * flag as it was; from Reboot it always returns to Idle.
   */
  lemma NextFollowsTable(m: Snapshot, artifact: Option<seq<Byte>>, applied: bool)
    ensures m.state == Reboot ==> Next(m, artifact, applied) == Snapshot(Idle, m.signals)
    ensures m.state != Reboot ==>
      Next(m, artifact, applied) ==
        if CollaboratorOk(m.state, artifact, applied) && Get(m.signals, Gate(m.state))
        then Snapshot(Succ(m.state), Set(m.signals, Gate(m.state), false))
        else if m.state == Idle then m
        else Snapshot(Idle, m.signals)
  {
  }

  /** A pass never changes a flag other than the one gating the current state. */
  lemma NextKeepsOtherFlags(m: Snapshot, artifact: Option<seq<Byte>>, applied: bool, f: Flag)
    requires m.state == Reboot || f != Gate(m.state)
    ensures Get(Next(m, artifact, applied).signals, f) == Get(m.signals, f)
  {
  }

  /** A pass never raises a flag, and it clears one exactly when it advances past that flag's state. */
  lemma NextClearsIffAdvances(m: Snapshot, artifact: Option<seq<Byte>>, applied: bool, st: UpdateState)
    requires st != Reboot
    ensures var m' := Next(m, artifact, applied);
      forall f :: Get(m'.signals, f) ==> Get(m.signals, f)
    ensures var m' := Next(m, artifact, applied);
      (Get(m.signals, Gate(st)) && !Get(m'.signals, Gate(st)))
      <==> (m.state == st && m'.state == Succ(st))
  {
  }

  /** The only way into a state other than Idle is forwards from its predecessor. */
  lemma NextEntersFromPredecessor(m: Snapshot, artifact: Option<seq<Byte>>, applied: bool, st: UpdateState)
    requires st != Reboot
    requires Next(m, artifact, applied).state == Succ(st) && m.state != Succ(st)
    ensures m.state == st
  {
  }

  /** Raising a flag that does not gate the current state does not change where a pass leads. */
  lemma UnrelatedFlagIgnored(m: Snapshot, artifact: Option<seq<Byte>>, applied: bool, f: Flag)
    requires m.state == Reboot || f != Gate(m.state)
    ensures Next(Snapshot(m.state, Set(m.signals, f, true)), artifact, applied).state
            == Next(m, artifact, applied).state
  {
  }

  /** Each recognised token raises exactly its own flag; any other token changes nothing. */
  lemma CommandRaisesOnlyItsFlag(s: Signals, token: string, f: Flag)
    ensures Get(Command(s, token), f) == (Get(s, f) || FlagOf(token) == Some(f))
    ensures FlagOf(token) == None ==> Command(s, token) == s
  {
  }

  /** Repeating a token has no further effect, and the order of two tokens does not matter. */
  lemma CommandIdempotentAndCommutative(s: Signals, t1: string, t2: string)
    ensures Command(Command(s, t1), t1) == Command(s, t1)
    ensures Command(Command(s, t1), t2) == Command(Command(s, t2), t1)
  {
  }

  /** For any artifact smaller than 2 GiB, the download succeeds iff the file exists and is non-empty. */
  lemma DownloadableIffNonEmpty(file: Option<seq<Byte>>)
    requires file.Some? ==> |file.value| < 0x8000_0000
    ensures Downloadable(file) <==> file.Some? && file.value != []
  {
  }

  /** A 2 GiB artifact is refused: its size does not fit the `int` it is read into. */
  lemma TwoGiBArtifactRefused(bytes: seq<Byte>)
    requires |bytes| == 0x8000_0000
    ensures !Downloadable(Some(bytes))
  {
  }

  function Bit(b: bool): nat
  {
    if b then 1 else 0
  }

  /** How many tokens in `events` raise flag `f`. */
  function Issued(events: seq<Event>, f: Flag): nat
  {
    if events == [] then 0
    else Bit(events[0].Input? && FlagOf(events[0].token) == Some(f)) + Issued(events[1..], f)
  }

  /** How many events of a run starting at `m` clear flag `f`. */
  function Consumed(name: string, m: Snapshot, events: seq<Event>, f: Flag): nat
    decreases |events|
  {
    if events == [] then 0
    else
      var m' := Perform(name, m, events[0]);
      Bit(Get(m.signals, f) && !Get(m'.signals, f)) + Consumed(name, m', events[1..], f)
  }

  /** How many events of a run starting at `m` move the machine into `st`. */
  function Entries(name: string, m: Snapshot, events: seq<Event>, st: UpdateState): nat
    decreases |events|
  {
    if events == [] then 0
    else
      var m' := Perform(name, m, events[0]);
      Bit(m.state != st && m'.state == st) + Entries(name, m', events[1..], st)
  }

  /**
   * Flags are level signals: every consumption of a flag, and a flag still
   * raised at the end, is owed to a distinct raising token or to the flag
   * having been raised at the start; tokens repeated before a consumption
   * collapse into one.
   */
  lemma {:induction false} ConsumptionsAreIssued(name: string, m: Snapshot, events: seq<Event>, f: Flag)
    ensures Consumed(name, m, events, f) + Bit(Get(Run(name, m, events).signals, f))
            <= Issued(events, f) + Bit(Get(m.signals, f))
    decreases |events|
  {
    if events != [] {
      var m' := Perform(name, m, events[0]);
      ConsumptionsAreIssued(name, m', events[1..], f);
      match events[0]
      case Input(token) =>
        CommandRaisesOnlyItsFlag(m.signals, token, f);
      case Tick(files, applied) =>
        if f == DownloadAvailable {
          NextClearsIffAdvances(m, Open(files, name), applied, Idle);
        } else if f == ToVerify {
          NextClearsIffAdvances(m, Open(files, name), applied, Download);
        } else if f == ToApply {
          NextClearsIffAdvances(m, Open(files, name), applied, Verify);
        } else {
          NextClearsIffAdvances(m, Open(files, name), applied, Apply);
        }
    }
  }

  /** Entering the state after `st` and consuming the flag that gates `st` are the same events. */
  lemma {:induction false} EntriesAreConsumptions(name: string, m: Snapshot, events: seq<Event>, st: UpdateState)
    requires st != Reboot
    ensures Entries(name, m, events, Succ(st)) == Consumed(name, m, events, Gate(st))
    decreases |events|
  {
    if events != [] {
      var m' := Perform(name, m, events[0]);
      EntriesAreConsumptions(name, m', events[1..], st);
      match events[0]
      case Input(token) =>
        CommandRaisesOnlyItsFlag(m.signals, token, Gate(st));
      case Tick(files, applied) =>
        NextClearsIffAdvances(m, Open(files, name), applied, st);
    }
  }

  /**
   * Attempts never resume half-way: each entry into the state after `st`
   * ends a stay in `st`, so it is matched by an entry into `st` (or by the
   * run having started in `st`) that no other entry shares.
   */
  lemma {:induction false} PipelineOrder(name: string, m: Snapshot, events: seq<Event>, st: UpdateState)
    requires st != Reboot
    ensures Entries(name, m, events, Succ(st)) + Bit(Run(name, m, events).state == st)
            <= Entries(name, m, events, st) + Bit(m.state == st)
    decreases |events|
  {
    if events != [] {
      var m' := Perform(name, m, events[0]);
      if events[0].Tick? && m'.state == Succ(st) && m.state != Succ(st) {
        NextEntersFromPredecessor(m, Open(events[0].files, name), events[0].applied, st);
      }
      PipelineOrder(name, m', events[1..], st);
    }
  }

  /**
   * From power-on, the machine leaves Idle, Download, Verify and Apply
   * forwards at most as often as the matching token was received, and every
   * reboot is preceded by its own apply, verify and download.
   */
  lemma FromPowerOn(name: string, events: seq<Event>)
    ensures Entries(name, Initial, events, Download) <= Issued(events, DownloadAvailable)
    ensures Entries(name, Initial, events, Verify) <= Issued(events, ToVerify)
    ensures Entries(name, Initial, events, Apply) <= Issued(events, ToApply)
    ensures Entries(name, Initial, events, Reboot) <= Issued(events, ToReboot)
    ensures Entries(name, Initial, events, Reboot) <= Entries(name, Initial, events, Apply)
            <= Entries(name, Initial, events, Verify) <= Entries(name, Initial, events, Download)
  {
    EntriesAreConsumptions(name, Initial, events, Idle);
    EntriesAreConsumptions(name, Initial, events, Download);
    EntriesAreConsumptions(name, Initial, events, Verify);
    EntriesAreConsumptions(name, Initial, events, Apply);
    ConsumptionsAreIssued(name, Initial, events, DownloadAvailable);
    ConsumptionsAreIssued(name, Initial, events, ToVerify);
    ConsumptionsAreIssued(name, Initial, events, ToApply);
    ConsumptionsAreIssued(name, Initial, events, ToReboot);
    PipelineOrder(name, Initial, events, Download);
    PipelineOrder(name, Initial, events, Verify);
    PipelineOrder(name, Initial, events, Apply);
  }
}
