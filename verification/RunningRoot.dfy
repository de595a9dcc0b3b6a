/** The root that is mounted is not removed by any command, as far as the boot record allows. */
module RunningRoot {
  import opened Text
  import opened Names
  import opened Entries
  import opened Store
  import opened Checkpoints
  import opened Pruning
  import opened Hook
  import opened HookSafety
  import opened Ops
  import opened OpsLaws
  import opened Machine
  import opened Steps
  import opened Runs

  // The slate's name is missing, so the command line is used instead, or basis and mode are there.
  predicate RecordUsable(facts: Facts) {
    "slate" !in facts || ("basis" in facts && "mode" in facts)
  }

  // Discard would refuse the root if it is a slate.
  predicate RootGuarded(s: State) {
    s.session.Up? && SlatePath(s.session.root) ==> RunsOn(Record(s), s.session.root)
  }

  lemma GuardedIfUsable(s: State, baked: Files)
    requires Inv(s, baked) && s.session.Up?
    ensures RootGuarded(s) <==> !SlatePath(s.session.root) || RecordUsable(s.session.facts)
  {
    hide DiskOk, BootRecord, GoSubvol, RunsOn;
    var root := s.session.root;
    if SlatePath(root) {
      assert root == "@" + root[1..];
      RecordTells(s.session.facts, s.session.cmdline, root[1..]);
    }
  }

  lemma DiscardSparesRoot(s: State, m: string, bls: bool, f: CliFaults, i: nat, baked: Files)
    requires Inv(s, baked) && s.session.Up? && s.session.root in s.disk.subvols && RootGuarded(s)
    requires i < |DiscardCommand(s.disk, Record(s), m, bls, f).trail|
    ensures s.session.root in DiscardCommand(s.disk, Record(s), m, bls, f).trail[i].subvols
  {
    hide DiskOk, DiscardCommand, Record, RunsOn, GoSubvol, RecordTrue, ValidName, Family;
    var root := s.session.root;
    DiscardTrailIs(s.disk, Record(s), m, bls, f, i, baked);
    DiscardSparesRunning(s.disk, Record(s), m, bls, f);
    RootOutside(root, m);
  }

  lemma DiscardSparesRunning(d: Disk, b: Option<Booted>, m: string, bls: bool, f: CliFaults)
    requires DiscardCommand(d, b, m, bls, f).trail != []
    ensures !RunsOn(b, "@" + m)
  {
    hide DeleteList, Listed, ValidName;
  }

  lemma RootOutside(root: string, m: string)
    requires ValidName(m) && (root == RUNTIME || root == BASELINE || SlatePath(root)) && root != "@" + m
    ensures !Family(root, m)
  {
    hide MatchCkpt;
    SlatePathNoDot(root);
    assert '.' !in RUNTIME && '/' !in RUNTIME && '.' !in BASELINE && '/' !in BASELINE;
    NoDotNoMatch(root);
    SlateReads(m);
  }

  lemma WriteSparesRoot(d: Disk, root: string, path: string, files: Option<Files>, i: nat)
    requires i < |WriteTrail(d, root, path, files)|
    ensures root in WriteTrail(d, root, path, files)[i].subvols
  {
  }

  lemma ForkAdds(d: Disk, b: Option<Booted>, name: string, from: string, bls: bool, f: CliFaults, i: nat, r: string)
    requires r in d.subvols && i < |ForkRun(d, b, name, from, bls, f).trail|
    ensures r in ForkRun(d, b, name, from, bls, f).trail[i].subvols
  {
    hide ForkSource, RewriteEntry, ForkRun, ValidName;
    ForkTrailIs(d, b, name, from, bls, f);
  }

  lemma CheckpointAdds(d: Disk, b: Option<Booted>, message: string, allow: bool, f: CliFaults, i: nat, r: string)
    requires r in d.subvols && i < |CheckpointCommand(d, b, message, allow, f).trail|
    ensures r in CheckpointCommand(d, b, message, allow, f).trail[i].subvols
  {
    hide CheckpointRun, CkptName, MaxSeq, ValidName;
    CheckpointTrailIs(d, b.value.name, MessageOr(message), allow, f);
  }

  lemma RollbackLeavesAll(d: Disk, b: Option<Booted>, ref: string, f: CliFaults, i: nat)
    requires i < |RollbackRun(d, b, ref, f).trail|
    ensures RollbackRun(d, b, ref, f).trail[i].subvols == d.subvols
  {
    hide Find, RollbackTo;
  }

  lemma ResetLeavesAll(d: Disk, name: string, f: CliFaults, i: nat)
    requires i < |ResetRun(d, name, f).trail|
    ensures ResetRun(d, name, f).trail[i].subvols == d.subvols
  {
    hide ValidName, ResetOf;
  }

  // No change any event makes while the machine is up removes the guarded root.
  lemma RootStays(s: State, e: Event, i: nat, baked: Files)
    requires Inv(s, baked) && s.session.Up? && s.session.root in s.disk.subvols && RootGuarded(s)
    requires i < |Trail(s, e)|
    ensures s.session.root in Trail(s, e)[i].subvols
  {
    hide Inv, WriteTrail, ForkRun, CheckpointCommand, DiscardCommand, RollbackRun, ResetRun, Record, RootGuarded,
         HookTrail;
    var d, r := s.disk, s.session.root;
    match e
    case Boot(_, _) =>
    case PowerOff =>
    case Write(path, files) => WriteSparesRoot(d, r, path, files, i);
    case Configure(_) =>
    case Forking(name, from, bls, f) => ForkAdds(d, Record(s), name, from, bls, f, i, r);
    case Checkpointing(message, allow, f) => CheckpointAdds(d, Record(s), message, allow, f, i, r);
    case RollingBack(ref, f) => RollbackLeavesAll(d, Record(s), ref, f, i);
    case Resetting(slate, f) => ResetLeavesAll(d, ResetTarget(Record(s), slate), f, i);
    case Discarding(name, bls, f) => DiscardSparesRoot(s, name, bls, f, i, baked);
  }

  lemma UnguardedGoes(s: State, f: CliFaults, baked: Files)
    requires Inv(s, baked) && s.session.Up? && s.session.root in s.disk.subvols && !RootGuarded(s)
    requires Deletes(f.deletes)
    ensures var t := Trail(s, Discarding(s.session.root[1..], false, f));
            t != [] && s.session.root !in t[|t| - 1].subvols
  {
    hide DiskOk, DiscardCommand, Record, RunsOn, GoSubvol, RecordTrue, ValidName, Trail;
    var m := s.session.root[1..];
    assert s.session.root == "@" + m;
    DiscardTrail(s, m, false, f);
    DiskParts(s.disk, baked);
    DiscardRemoves(s.disk, Record(s), m, f);
  }

  lemma DiscardRemoves(d: Disk, b: Option<Booted>, m: string, f: CliFaults)
    requires Sound(d) && ValidName(m) && "@" + m in d.subvols && !RunsOn(b, "@" + m) && Deletes(f.deletes)
    ensures var t := DiscardCommand(d, b, m, false, f).trail;
            t != [] && "@" + m !in t[|t| - 1].subvols
  {
    hide Sound, DiscardRun, RunsOn, ValidName, Family, Deletes;
    DiscardSucceeds(d, b, m, f.deletes);
    DiscardExact(d, b, m, f.deletes);
    ValidIsPlain(m);
    SlateInFamily(m);
  }

  lemma SlatePathLong(root: string)
    ensures SlatePath(root) ==> |root| >= 2
  {
  }

  // Whether any command can remove the running root: none can exactly when the root is no slate
  // or the record the hook wrote is usable.
  lemma RunningRootNeverRemoved(s: State, baked: Files)
    requires Inv(s, baked) && s.session.Up? && s.session.root in s.disk.subvols
    ensures (forall e, i | 0 <= i < |Trail(s, e)| :: s.session.root in Trail(s, e)[i].subvols)
       <==> !SlatePath(s.session.root) || RecordUsable(s.session.facts)
  {
    hide Inv, RootGuarded, Trail, RecordUsable, SlatePath;
    GuardedIfUsable(s, baked);
    if RootGuarded(s) {
      forall e, i | 0 <= i < |Trail(s, e)| ensures s.session.root in Trail(s, e)[i].subvols {
        RootStays(s, e, i, baked);
      }
    } else {
      var f := CliFaults(false, false, false, DeleteFaults({}, {}, {}));
      UnguardedGoes(s, f, baked);
      SlatePathLong(s.session.root);
      var e := Discarding(s.session.root[1..], false, f);
      assert s.session.root !in Trail(s, e)[|Trail(s, e)| - 1].subvols;
    }
  }

  // Steps of one session: nothing powers off.
  predicate OneSession(steps: seq<Step>) {
    forall i | 0 <= i < |steps| :: steps[i].cut.None? && !steps[i].event.PowerOff?
  }

  // Through a whole session with a usable record the root stays mounted and in the store.
  lemma {:induction false} RootStaysMounted(s: State, steps: seq<Step>, baked: Files)
    requires Inv(s, baked) && s.session.Up? && s.session.root in s.disk.subvols && OneSession(steps)
    requires !SlatePath(s.session.root) || RecordUsable(s.session.facts)
    ensures Exec(s, steps).session == s.session && s.session.root in Exec(s, steps).disk.subvols
    decreases |steps|
  {
    hide Inv, Next, Trail, RecordUsable, SlatePath, RootGuarded;
    if steps != [] {
      var s1 := Next(s, steps[0]);
      GuardedIfUsable(s, baked);
      SessionGoesOn(s, steps[0]);
      RootStepStays(s, steps[0], baked);
      TemplateIsValid();
      NextKeeps(s, steps[0], TEMPLATE, baked);
      assert forall i | 0 <= i < |steps[1..]| :: steps[1..][i] == steps[i + 1];
      RootStaysMounted(s1, steps[1..], baked);
    }
  }

  lemma SessionGoesOn(s: State, step: Step)
    requires s.session.Up? && step.cut.None? && !step.event.PowerOff?
    ensures Next(s, step).session == s.session
  {
    hide Trail;
  }

  lemma RootStepStays(s: State, step: Step, baked: Files)
    requires Inv(s, baked) && s.session.Up? && s.session.root in s.disk.subvols && RootGuarded(s)
    ensures s.session.root in Next(s, step).disk.subvols
  {
    hide Inv, Trail, RootGuarded, Next;
    var t := Trail(s, step.event);
    NextDisk(s, step);
    if Next(s, step).disk != s.disk {
      var i :| 0 <= i < |t| && t[i] == Next(s, step).disk;
      RootStays(s, step.event, i, baked);
    }
  }
}
