/** Saving a checksummed payload to a main file and its backup: what a load finds after crashes between the
    two writes and damage to the main file. */
module CrashSafety {
  import opened GateTypes

  /** The bytes of a file: an envelope whose checksum fits, or anything else. */
  datatype Content<P> = Good(payload: P) | Bad

  type File<P> = Option<Content<P>>

  function Decoded<P>(file: File<P>): Option<P> {
    if file.Some? && file.value.Good? then Some(file.value.payload) else None
  }

  /** What a save keeps as the backup: the main file's bytes when they decoded, else the new bytes. */
  function BackupBytes<P>(decodable: bool, main: File<P>, payload: P): Content<P> {
    if decodable && main.Some? then main.value else Good(payload)
  }

  class StoreFile<P> {
    var main: File<P>
    var backup: File<P>

    constructor (main: File<P>, backup: File<P>)
      ensures this.main == main && this.backup == backup
    {
      this.main, this.backup := main, backup;
    }

    method Load() returns (payload: Option<P>)
      ensures payload == Loaded(Disk(main, backup, Idle))
    {
      payload := Decoded(main);
      if payload.None? {
        payload := Decoded(backup);
      }
    }

    /** A save that nothing disturbs runs the four steps in a row. */
    method Save(payload: P)
      modifies this
      ensures Disk(main, backup, Idle)
           == RunFrom(old(Disk(main, backup, Idle)), [Begin(payload), Read, WriteBackup, WriteMain])
    {
      ghost var start := Disk(main, backup, Idle);
      var decodable := Decoded(main).Some?;
      var kept := BackupBytes(decodable, main, payload);
      backup := Some(kept);
      main := Some(Good(payload));
      FourSteps(start, payload);
    }
  }

  // ---------- The steps of a save, and what may come between them ----------

  datatype Phase<P> =
    | Idle
    | Checked(payload: P, decodable: bool)
    | Staged(payload: P, kept: Content<P>)
    | BackedUp(payload: P)

  datatype Disk<P> = Disk(main: File<P>, backup: File<P>, phase: Phase<P>)

  datatype Event<P> =
    | Begin(payload: P)
    | BeginFresh(payload: P)
    | Read
    | WriteBackup
    | WriteMain
    | Crash
    | Delete
    | Garble

  function Loaded<P>(d: Disk<P>): Option<P> {
    if Decoded(d.main).Some? then Decoded(d.main) else Decoded(d.backup)
  }

  predicate Enabled<P>(d: Disk<P>, e: Event<P>) {
    match e
    case Begin(_) => d.phase.Idle?
    case BeginFresh(_) => d.phase.Idle?
    case Read => d.phase.Checked?
    case WriteBackup => d.phase.Staged?
    case WriteMain => d.phase.BackedUp?
    case Crash => true
    case Delete => true
    case Garble => true
  }

  /** A failed write ends the save like a crash does. */
  function Step<P>(d: Disk<P>, e: Event<P>): Disk<P>
    requires Enabled(d, e)
  {
    match e
    case Begin(p) => d.(phase := Checked(p, Decoded(d.main).Some?))
    case BeginFresh(p) => d.(phase := Staged(p, Good(p)))
    case Read =>
      d.(phase := Staged(d.phase.payload, BackupBytes(d.phase.decodable, d.main, d.phase.payload)))
    case WriteBackup => d.(backup := Some(d.phase.kept), phase := BackedUp(d.phase.payload))
    case WriteMain => d.(main := Some(Good(d.phase.payload)), phase := Idle)
    case Crash => d.(phase := Idle)
    case Delete => d.(main := None)
    case Garble => d.(main := Some(Bad))
  }

  function RunFrom<P>(d: Disk<P>, trace: seq<Event<P>>): Disk<P> {
    if trace == [] then d
    else
      var before := RunFrom(d, trace[..|trace| - 1]);
      if Enabled(before, trace[|trace| - 1]) then Step(before, trace[|trace| - 1]) else before
  }

  function Run<P>(trace: seq<Event<P>>): Disk<P> {
    RunFrom(Disk(None, None, Idle), trace)
  }

  ghost predicate IsRun<P>(trace: seq<Event<P>>) {
    trace == [] || (IsRun(trace[..|trace| - 1]) && Enabled(Run(trace[..|trace| - 1]), trace[|trace| - 1]))
  }

  lemma OneMore<P>(d: Disk<P>, trace: seq<Event<P>>, e: Event<P>)
    requires Enabled(RunFrom(d, trace), e)
    ensures RunFrom(d, trace + [e]) == Step(RunFrom(d, trace), e)
  {
    assert (trace + [e])[..|trace|] == trace;
  }

  lemma FourSteps<P>(d: Disk<P>, p: P)
    requires d.phase.Idle?
    ensures RunFrom(d, [Begin(p), Read, WriteBackup, WriteMain])
         == Disk(Some(Good(p)), Some(BackupBytes(Decoded(d.main).Some?, d.main, p)), Idle)
  {
    var trace: seq<Event<P>> := [];
    OneMore(d, trace, Begin(p));
    trace := trace + [Begin(p)];
    OneMore(d, trace, Read);
    trace := trace + [Read];
    OneMore(d, trace, WriteBackup);
    trace := trace + [WriteBackup];
    OneMore(d, trace, WriteMain);
    trace := trace + [WriteMain];
    assert trace == [Begin(p), Read, WriteBackup, WriteMain];
  }

  // ---------- What a history of events says ----------

  /** The payloads of the saves that completed. */
  function Completed<P>(trace: seq<Event<P>>): seq<P> {
    if trace == [] then []
    else
      var before := trace[..|trace| - 1];
      Completed(before)
      + if trace[|trace| - 1].WriteMain? && Run(before).phase.BackedUp? then [Run(before).phase.payload] else []
  }

  /** The payload of the last save that got as far as writing the backup. */
  function LastBackedUp<P>(trace: seq<Event<P>>): Option<P> {
    if trace == [] then None
    else
      var before := trace[..|trace| - 1];
      if trace[|trace| - 1].WriteBackup? && Run(before).phase.Staged? then Some(Run(before).phase.payload)
      else LastBackedUp(before)
  }

  /** In the save under way the main file decoded, and was then garbled before it was read again. */
  predicate Struck<P>(trace: seq<Event<P>>) {
    if trace == [] then false
    else
      var before, e := trace[..|trace| - 1], trace[|trace| - 1];
      var phase := Run(before).phase;
      if e.Begin? || e.BeginFresh? then false
      else if (e.Garble? || e.Delete?) && phase.Checked? && phase.decodable then e.Garble?
      else Struck(before)
  }

  /** The save that wrote the backup last was struck. */
  predicate BackupStruck<P>(trace: seq<Event<P>>) {
    if trace == [] then false
    else
      var before := trace[..|trace| - 1];
      if trace[|trace| - 1].WriteBackup? then Struck(before) else BackupStruck(before)
  }

  function Last<P>(s: seq<P>): Option<P> {
    if s == [] then None else Some(s[|s| - 1])
  }

  function Previous<P>(s: seq<P>): Option<P> {
    if |s| < 2 then None else Some(s[|s| - 2])
  }

  // ---------- The invariant ----------

  ghost predicate MainOk<P>(d: Disk<P>, done: seq<P>) {
    Decoded(d.main).Some? ==> Decoded(d.main) == Last(done)
  }

  ghost predicate PhaseOk<P>(d: Disk<P>, done: seq<P>, struck: bool, tried: Option<P>) {
    match d.phase
    case Idle => true
    case Checked(p, decodable) =>
      if decodable then done != [] && (d.main == Some(Bad) <==> struck)
      else Decoded(d.main).None? && !struck
    case Staged(p, kept) => (kept.Bad? <==> struck) && (kept.Good? ==> Some(kept.payload) in {Some(p), Last(done)})
    case BackedUp(p) => tried == Some(p) && (Decoded(d.backup).Some? ==> Decoded(d.backup) in {Some(p), Last(done)})
  }

  ghost predicate BackupOk<P>(d: Disk<P>, done: seq<P>, backupStruck: bool, tried: Option<P>) {
    && (d.backup.Some? <==> tried.Some?)
    && (done != [] ==> tried.Some?)
    && (d.backup == Some(Bad) <==> backupStruck)
    && (Decoded(d.backup).Some? ==> Decoded(d.backup) in {tried, Last(done), Previous(done)})
  }

  ghost predicate Kept<P>(trace: seq<Event<P>>) {
    var d, done, tried := Run(trace), Completed(trace), LastBackedUp(trace);
    && MainOk(d, done)
    && PhaseOk(d, done, Struck(trace), tried)
    && BackupOk(d, done, BackupStruck(trace), tried)
  }

  lemma {:induction false} AlwaysKept<P>(trace: seq<Event<P>>)
    requires IsRun(trace)
    ensures Kept(trace)
  {
    if trace != [] {
      var before := trace[..|trace| - 1];
      AlwaysKept(before);
    }
  }

  // ---------- What a load finds ----------

  /** After any run a load returns the last completed payload, the one before, or the payload of a save that
      reached its backup; once a save completed it comes back empty exactly when the main file does not
      decode and the backup was written by a save whose main file was garbled between check and read. */
  lemma LoadFinds<P>(trace: seq<Event<P>>)
    requires IsRun(trace)
    ensures var load := Loaded(Run(trace));
            && (load.Some? ==> load in {Last(Completed(trace)), Previous(Completed(trace)), LastBackedUp(trace)})
            && (Completed(trace) != [] ==>
                  (load.None? <==> Decoded(Run(trace).main).None? && BackupStruck(trace)))
  {
    AlwaysKept(trace);
  }

  /** No garbage lands between the check and the read of any save. */
  ghost predicate Undisturbed<P>(trace: seq<Event<P>>) {
    trace == [] ||
    (Undisturbed(trace[..|trace| - 1]) &&
     (trace[|trace| - 1].Garble? ==>
        !(Run(trace[..|trace| - 1]).phase.Checked? && Run(trace[..|trace| - 1]).phase.decodable)))
  }

  lemma {:induction false} UndisturbedIsNeverStruck<P>(trace: seq<Event<P>>)
    requires Undisturbed(trace)
    ensures !Struck(trace) && !BackupStruck(trace)
  {
    if trace != [] {
      UndisturbedIsNeverStruck(trace[..|trace| - 1]);
    }
  }

  /** So apart from that window, crashes anywhere and damage anywhere never lose everything. */
  lemma UndisturbedNeverLoadsEmpty<P>(trace: seq<Event<P>>)
    requires IsRun(trace) && Undisturbed(trace) && Completed(trace) != []
    ensures Loaded(Run(trace)).Some?
  {
    UndisturbedIsNeverStruck(trace);
    LoadFinds(trace);
  }

  /** A save that completes, with or without damage during it, is what the next load returns. */
  lemma CompletedIsLoaded<P>(trace: seq<Event<P>>)
    requires IsRun(trace) && trace != [] && trace[|trace| - 1].WriteMain?
    ensures Loaded(Run(trace)) == Last(Completed(trace)) && Completed(trace) != []
  {
    var before := trace[..|trace| - 1];
    assert Run(before).phase.BackedUp?;
    assert Run(trace) == Step(Run(before), WriteMain);
    assert Completed(trace) == Completed(before) + [Run(before).phase.payload];
  }

  lemma RunGrows<P>(trace: seq<Event<P>>, e: Event<P>)
    requires IsRun(trace) && Enabled(Run(trace), e)
    ensures IsRun(trace + [e]) && Run(trace + [e]) == Step(Run(trace), e)
    ensures Completed(trace + [e]) == Completed(trace) + if e.WriteMain? then [Run(trace).phase.payload] else []
  {
    assert (trace + [e])[..|trace|] == trace;
  }

  /** The window is real: one completed save, then a second one struck in it and cut short, leave nothing. */
  lemma GarbledWindowLosesAll(first: nat, second: nat) returns (trace: seq<Event<nat>>)
    ensures IsRun(trace) && Completed(trace) == [first] && Loaded(Run(trace)).None?
  {
    trace := [];
    RunGrows(trace, Begin(first));
    trace := trace + [Begin(first)];
    RunGrows(trace, Read);
    trace := trace + [Read];
    RunGrows(trace, WriteBackup);
    trace := trace + [WriteBackup];
    RunGrows(trace, WriteMain);
    trace := trace + [WriteMain];
    RunGrows(trace, Begin(second));
    trace := trace + [Begin(second)];
    RunGrows(trace, Garble);
    trace := trace + [Garble];
    RunGrows(trace, Read);
    trace := trace + [Read];
    RunGrows(trace, WriteBackup);
    trace := trace + [WriteBackup];
  }
}
