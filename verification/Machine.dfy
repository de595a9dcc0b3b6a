/** The machine: boots, power losses, the workload and the commands interleaved in any order, and
    what holds in every state they can reach. */
module Machine {
  import opened Text
  import opened Names
  import opened Staged
  import opened Entries
  import opened EntryFile
  import opened Store
  import opened Checkpoints
  import opened Pruning
  import opened Hook
  import opened HookSafety
  import opened BootSpec
  import opened Ops
  import opened OpsLaws

  // What is mounted as the root, the kernel command line and the boot record.
  datatype Session = Off | Up(root: string, cmdline: string, facts: Facts)

  datatype State = State(disk: Disk, session: Session)

  datatype Event =
    | Boot(entry: string, hookFaults: HookFaults)
    | PowerOff
    | Write(path: string, files: Option<Files>)
    | Configure(text: Option<string>)
    | Forking(name: string, from: string, bls: bool, faults: CliFaults)
    | Checkpointing(message: string, allowIncomplete: bool, faults: CliFaults)
    | RollingBack(ref: string, faults: CliFaults)
    | Resetting(slate: Option<string>, faults: CliFaults)
    | Discarding(name: string, bls: bool, faults: CliFaults)

  // An event and, when power fails during it, after how many changes of the store.
  datatype Step = Step(event: Event, cut: Option<nat>)

  // -------------------------------------------------------------------------
  // What an event does
  // -------------------------------------------------------------------------

  function Record(s: State): Option<Booted> {
    if s.session.Up? then BootRecord(s.session.facts, s.session.cmdline) else None
  }

  // The workload writes to the mounted root and to subvolumes nested in it, makes nested ones and
  // removes them; a read-only root takes no writes.
  function WriteTrail(d: Disk, root: string, path: string, files: Option<Files>): seq<Disk> {
    if root !in d.subvols || d.subvols[root].ro || !(path == root || (Inside(path, root) && |path| > |root| + 1))
      then []
    else if files.Some? then [d.(subvols := d.subvols[path := Subvol(files.value, false)])]
    else if path == root then []
    else [Remove(d, Tree(d, path))]
  }

  // The store after every change an event makes to it. Boots need the machine off, all else
  // needs it up.
  ghost function Trail(s: State, e: Event): seq<Disk> {
    var d := s.disk;
    match e
    case Boot(entry, f) =>
      if s.session.Off? && entry in d.entries then HookTrail(d, CmdlineOf(d.entries[entry]), f) else []
    case PowerOff => []
    case Write(path, files) => if s.session.Up? then WriteTrail(d, s.session.root, path, files) else []
    case Configure(text) => if s.session.Up? then [d.(config := text)] else []
    case Forking(name, from, bls, f) =>
      if s.session.Up? then ForkRun(d, Record(s), name, from, bls, f).trail else []
    case Checkpointing(message, allow, f) =>
      if s.session.Up? then CheckpointCommand(d, Record(s), message, allow, f).trail else []
    case RollingBack(ref, f) =>
      if s.session.Up? then RollbackRun(d, Record(s), ref, f).trail else []
    case Resetting(slate, f) =>
      if s.session.Up? then ResetRun(d, ResetTarget(Record(s), slate), f).trail else []
    case Discarding(name, bls, f) =>
      if s.session.Up? then DiscardCommand(d, Record(s), name, bls, f).trail else []
  }

  // What runs after an event that is not cut short. A hook that panics leaves nothing running.
  ghost function SessionAfter(s: State, e: Event): Session {
    match e
    case Boot(entry, f) =>
      if s.session.Up? || entry !in s.disk.entries then s.session
      else
        var cmdline := CmdlineOf(s.disk.entries[entry]);
        var o := HookOutcome(s.disk, cmdline, f);
        if o.Mount? && o.root in End(s.disk, Trail(s, e)).subvols then Up(o.root, cmdline, o.facts) else Off
    case PowerOff => Off
    case _ => s.session
  }

  function Prefix(trail: seq<Disk>, k: nat): seq<Disk> {
    if k < |trail| then trail[..k] else trail
  }

  ghost function Next(s: State, step: Step): State {
    var t := Trail(s, step.event);
    if step.cut.None? then State(End(s.disk, t), SessionAfter(s, step.event))
    else State(End(s.disk, Prefix(t, step.cut.value)), Off)
  }

  ghost function Exec(s: State, steps: seq<Step>): State
    decreases |steps|
  {
    if steps == [] then s else Exec(Next(s, steps[0]), steps[1..])
  }

  // -------------------------------------------------------------------------
  // What holds in every reachable state
  // -------------------------------------------------------------------------

  // An owned boot entry does what its name says.
  predicate EntryOk(e: string, text: string) {
    var a := HookArgs(CmdlineOf(text));
    if e == SCRATCH then
      a.subvol == RUNTIME && a.basis == BASELINE && a.mode != RESCUE && GoSubvol(CmdlineOf(text)) == Some(RUNTIME)
    else if e == RESCUE then
      a.subvol == BASELINE && a.mode == RESCUE && GoSubvol(CmdlineOf(text)) == Some(BASELINE)
    else
      && ValidName(e) && a.subvol == "@" + e && a.mode != RESCUE
      && GoSubvol(CmdlineOf(text)) == Some("@" + e) && GoodTemplate(text)
  }

  ghost predicate EntriesOk(d: Disk) {
    && SCRATCH in d.entries && RESCUE in d.entries
    && forall e {:trigger EntryOk(e, d.entries[e])} | e in d.entries :: EntryOk(e, d.entries[e])
  }

  // A staged file that can apply names no reserved subvolume and not the slate itself as source.
  predicate StagedOk(d: Disk) {
    d.staged.Some? && StagedSlate(d) != "" ==> !ReservedSubvol(StagedSlate(d)) && StagedSource(d) != StagedSlate(d)
  }

  ghost predicate DiskOk(d: Disk, baked: Files) {
    && Sound(d) && BASELINE in d.subvols && d.subvols[BASELINE] == Subvol(baked, true)
    && EntriesOk(d) && StagedOk(d)
  }

  // The root is a slate, the scratch root or the baseline, and a slate's boot record, as far as it
  // was written, is true.
  predicate SessionOk(s: Session) {
    s.Up? ==>
      && (s.root == RUNTIME || s.root == BASELINE || SlatePath(s.root))
      && (SlatePath(s.root) ==> GoSubvol(s.cmdline) == Some(s.root) && RecordTrue(s.facts, s.root[1..]))
  }

  ghost predicate Inv(s: State, baked: Files) {
    DiskOk(s.disk, baked) && SessionOk(s.session)
  }
}
