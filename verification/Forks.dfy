/** A fork from its creation to its first boot. */
module Forks {
  import opened Text
  import opened Names
  import opened Staged
  import opened Entries
  import opened EntryFile
  import opened Store
  import opened Checkpoints
  import opened Hook
  import opened HookSafety
  import opened BootSpec
  import opened Ops
  import opened OpsLaws
  import opened Machine
  import opened Steps
  import opened Runs
  import opened Reversal

  // The files a fork starts with.
  ghost predicate ForksFrom(s: State, from: string, files: Files) {
    var src := ForkSource(s.disk, Record(s), from);
    src.Ok? && src.value in s.disk.subvols && s.disk.subvols[src.value].files == files
  }

  // A new slate's name, and commands that work.
  predicate Forkable(d: Disk, name: string, f: CliFaults) {
    ValidName(name) && "@" + name !in d.subvols && !f.snapshot && !f.entry
  }

  // A fork under a new name from a source that is there makes the slate, and it gets its boot
  // entry, and no error is reported, exactly when the template entry is there.
  lemma ForkGetsItsEntry(d: Disk, b: Option<Booted>, name: string, from: string, f: CliFaults)
    requires Forkable(d, name, f) && ForkSource(d, b, from).Ok? && ForkSource(d, b, from).value in d.subvols
    ensures var r := ForkRun(d, b, name, from, true, f);
            var x := End(d, r.trail);
      && (r.error == None <==> TEMPLATE in d.entries)
      && x.subvols == d.subvols["@" + name := Subvol(d.subvols[ForkSource(d, b, from).value].files, false)]
      && x.staged == d.staged
      && (if TEMPLATE in d.entries then name in x.entries
          else r.error == Some(CommandFailed) && x.entries == d.entries)
  {
    hide ForkSource, RewriteEntry, ValidName;
  }

  // In full: the fork command with its entry reports no error exactly then.
  lemma ForkSucceeds(d: Disk, b: Option<Booted>, name: string, from: string, f: CliFaults)
    ensures ForkRun(d, b, name, from, true, f).error == None
       <==> Forkable(d, name, f) && ForkSource(d, b, from).Ok? && ForkSource(d, b, from).value in d.subvols
            && TEMPLATE in d.entries
  {
    hide ForkSource, RewriteEntry, ValidName;
  }

  lemma ForkStepIs(s: State, name: string, from: string, bls: bool, f: CliFaults)
    requires s.session.Up?
    ensures var s1 := Next(s, Plainly(Forking(name, from, bls, f)));
            s1.session == s.session && s1.disk == End(s.disk, ForkRun(s.disk, Record(s), name, from, bls, f).trail)
  {
    hide ForkRun, Record;
  }

  lemma ForkMakes(s: State, name: string, from: string, f: CliFaults, files: Files)
    requires s.session.Up? && Forkable(s.disk, name, f) && TEMPLATE in s.disk.entries && ForksFrom(s, from, files)
    ensures var s1 := Next(s, Plainly(Forking(name, from, true, f)));
      && ValidName(name) && s1.session == s.session && "@" + name in s1.disk.subvols
      && s1.disk.subvols["@" + name] == Subvol(files, false) && name in s1.disk.entries
      && s1.disk.staged == s.disk.staged
  {
    hide ForkSource, ForkRun, Record, ValidName, Next;
    ForkGetsItsEntry(s.disk, Record(s), name, from, f);
    ForkStepIs(s, name, from, true, f);
  }

  // A fork boots what it was forked from: whatever else happens in between, short of discarding,
  // booting or writing to it, its first faultless boot gives the files of its source, unless a
  // replacement staged for its name applies.
  lemma ForkBoots(s: State, name: string, from: string, f: CliFaults, files: Files, steps: seq<Step>, baked: Files)
    requires Inv(s, baked) && s.session.Up? && Forkable(s.disk, name, f) && TEMPLATE in s.disk.entries
    requires ForksFrom(s, from, files)
    requires Leaves(Next(s, Plainly(Forking(name, from, true, f))), steps, name)
    requires Exec(Next(s, Plainly(Forking(name, from, true, f))), steps).session.Off?
    ensures var s2 := Exec(Next(s, Plainly(Forking(name, from, true, f))), steps);
            var s3 := Next(s2, Plainly(Boot(name, NO_FAULTS)));
            s3.session.Up? && s3.session.root == "@" + name && "@" + name in s3.disk.subvols
            && (!Applies(s2.disk, "@" + name) ==> s3.disk.subvols["@" + name].files == files)
            && (Applies(s2.disk, "@" + name) ==>
                  s3.disk.subvols["@" + name].files == s2.disk.subvols[StagedSource(s2.disk)].files)
  {
    hide Inv, ForksFrom, Next, Exec, Leaves, ValidName, Applies, StagedSource, Forkable;
    var s1 := Next(s, Plainly(Forking(name, from, true, f)));
    var s2 := Exec(s1, steps);
    ForkMakes(s, name, from, f, files);
    NextKeeps(s, Plainly(Forking(name, from, true, f)), name, baked);
    RunKeepsInv(s1, steps, baked);
    SlateLeftAlone(s1, steps, name, baked);
    InvParts(s2, baked);
    SlateBoots(s2, name, baked);
  }

  // The event stages a replacement of n.
  ghost predicate StagesFor(s: State, e: Event, n: string) {
    || (e.Resetting? && ResetTarget(Record(s), e.slate) == n)
    || (e.RollingBack?
        && var c := Find(s.disk, e.ref, if Record(s).Some? then Record(s).value.name else "");
           c.Some? && SlateOf(c.value) == n)
  }

  // No step stages a replacement of n.
  ghost predicate NoneStaged(s: State, steps: seq<Step>, n: string)
    decreases |steps|
  {
    steps == [] || (!(StagesAt(s, steps[0]) && StagesFor(s, steps[0].event, n))
                    && NoneStaged(Next(s, steps[0]), steps[1..], n))
  }

  lemma StagedForOther(d: Disk, p: Pending, fault: bool, i: nat, m: string, n: string)
    requires Stageable(p) && p.slate == "@" + m && m != n && i < |StageRun(d, p, fault).trail|
    ensures StagedSlate(StageRun(d, p, fault).trail[i]) != "@" + n
  {
    hide HookField, StagedText;
    SlatesDiffer(m, n);
    if i == 0 {
      EmptyField("slate");
    } else {
      StagedRoundTrip(p);
    }
  }

  lemma StagedElsewhere(s: State, e: Event, i: nat, n: string, baked: Files)
    requires Inv(s, baked) && Stages(e) && i < |Trail(s, e)| && !StagesFor(s, e, n)
    ensures StagedSlate(Trail(s, e)[i]) != "@" + n
  {
    hide DiskOk, ValidName, StageRun, Stageable, StagedSlate, Find;
    var d := s.disk;
    DiskParts(d, baked);
    if e.RollingBack? {
      var name := if Record(s).Some? then Record(s).value.name else "";
      var c := Find(d, e.ref, name).value;
      FoundIsListed(d, e.ref, name);
      FoundIsStageable(d, c);
      StagedForOther(d, RollbackTo(c), e.faults.write, i, SlateOf(c), n);
    } else {
      var m := ResetTarget(Record(s), e.slate);
      ResetIsStageable(m);
      StagedForOther(d, ResetOf(m), e.faults.write, i, m, n);
    }
  }

  lemma StepStaysUnstaged(s: State, step: Step, n: string, baked: Files)
    requires Inv(s, baked) && ValidName(n) && StagedSlate(s.disk) != "@" + n
    requires !(StagesAt(s, step) && StagesFor(s, step.event, n))
    ensures StagedSlate(Next(s, step).disk) != "@" + n
  {
    hide Inv, ValidName, Next, Trail, StagesFor, HookField;
    var x := Next(s, step).disk;
    NextKeeps(s, step, n, baked);
    NextDisk(s, step);
    if StagesAt(s, step) {
      var i :| 0 <= i < |Trail(s, step.event)| && Trail(s, step.event)[i] == x;
      StagedElsewhere(s, step.event, i, n, baked);
    }
  }

  lemma {:induction false} StaysUnstaged(s: State, steps: seq<Step>, n: string, baked: Files)
    requires Inv(s, baked) && ValidName(n) && StagedSlate(s.disk) != "@" + n && NoneStaged(s, steps, n)
    ensures StagedSlate(Exec(s, steps).disk) != "@" + n
    decreases |steps|
  {
    hide Inv, ValidName, Next, StagedSlate, StagesFor;
    if steps != [] {
      NextKeeps(s, steps[0], n, baked);
      StepStaysUnstaged(s, steps[0], n, baked);
      StaysUnstaged(Next(s, steps[0]), steps[1..], n, baked);
    }
  }

  // In particular, if nothing is staged for its name at the fork and nothing is afterwards, it
  // boots its source's files.
  lemma ForkBootsUnstaged(s: State, name: string, from: string, f: CliFaults, files: Files, steps: seq<Step>, baked: Files)
    requires Inv(s, baked) && s.session.Up? && Forkable(s.disk, name, f) && TEMPLATE in s.disk.entries
    requires ForksFrom(s, from, files) && StagedSlate(s.disk) != "@" + name
    requires Leaves(Next(s, Plainly(Forking(name, from, true, f))), steps, name)
    requires NoneStaged(Next(s, Plainly(Forking(name, from, true, f))), steps, name)
    requires Exec(Next(s, Plainly(Forking(name, from, true, f))), steps).session.Off?
    ensures var s2 := Exec(Next(s, Plainly(Forking(name, from, true, f))), steps);
            var s3 := Next(s2, Plainly(Boot(name, NO_FAULTS)));
            s3.session.Up? && s3.session.root == "@" + name && "@" + name in s3.disk.subvols
            && s3.disk.subvols["@" + name].files == files
  {
    hide Inv, ForksFrom, Next, Exec, Leaves, NoneStaged, ValidName, Forkable, HookField, ValidSubvol;
    var s1 := Next(s, Plainly(Forking(name, from, true, f)));
    ForkMakes(s, name, from, f, files);
    NextKeeps(s, Plainly(Forking(name, from, true, f)), name, baked);
    StaysUnstaged(s1, steps, name, baked);
    ForkBoots(s, name, from, f, files, steps, baked);
  }

  // -------------------------------------------------------------------------
  // When it does not
  // -------------------------------------------------------------------------

  // The machine runs m, nothing fails, and both m and n exist.
  ghost predicate TwoSlates(s: State, m: string, n: string) {
    && s.session.Up? && m != n && ValidName(m) && ValidName(n)
    && RunsOn(Record(s), "@" + m) && "@" + m in s.disk.subvols && "@" + n in s.disk.subvols
    && TEMPLATE in s.disk.entries
  }

  const NO_CLI_FAULTS := CliFaults(false, false, false, DeleteFaults({}, {}, {}))

  function ResetN(n: string): Step { Plainly(Resetting(Some(n), NO_CLI_FAULTS)) }
  function DiscardN(n: string): Step { Plainly(Discarding(n, false, NO_CLI_FAULTS)) }
  function ForkN(n: string): Step { Plainly(Forking(n, "", true, NO_CLI_FAULTS)) }

  lemma NoFaultsDelete()
    ensures Deletes(NO_CLI_FAULTS.deletes) && !NO_CLI_FAULTS.write && !NO_CLI_FAULTS.snapshot && !NO_CLI_FAULTS.entry
  {
  }

  lemma ResetStep(s: State, m: string, n: string, baked: Files)
    requires Inv(s, baked) && TwoSlates(s, m, n)
    ensures Next(s, ResetN(n)) == State(s.disk.(staged := Some(StagedText(ResetOf(n)))), s.session)
  {
    hide DiskOk, SessionOk, ValidName, StagedText, Record, RunsOn, Trail, StageRun, ResetOf;
    DiskParts(s.disk, baked);
    NoFaultsDelete();
    ResetStages(s, n, NO_CLI_FAULTS);
    ResetWrites(s.disk, n);
  }

  lemma ResetWrites(d: Disk, n: string)
    requires BASELINE in d.subvols
    ensures End(d, StageRun(d, ResetOf(n), false).trail) == d.(staged := Some(StagedText(ResetOf(n))))
  {
    hide StagedText;
    assert BASELINE != "" && "@" + n != "";
  }

  lemma DiscardStep(s: State, m: string, n: string, baked: Files)
    requires Inv(s, baked) && TwoSlates(s, m, n)
    ensures var s1 := Next(s, DiscardN(n));
      && s1.session == s.session && s1.disk.staged == s.disk.staged && s1.disk.entries == s.disk.entries
      && "@" + n !in s1.disk.subvols
      && "@" + m in s1.disk.subvols && s1.disk.subvols["@" + m] == s.disk.subvols["@" + m]
  {
    hide DiskOk, SessionOk, ValidName, Record, Trail, DiscardCommand, RunsOn;
    DiskParts(s.disk, baked);
    DiscardTrail(s, n, false, NO_CLI_FAULTS);
    OnlyRunning(Record(s), m, n);
    DiscardLeaves(s.disk, Record(s), m, n);
  }

  lemma OnlyRunning(b: Option<Booted>, m: string, n: string)
    requires RunsOn(b, "@" + m) && m != n
    ensures !RunsOn(b, "@" + n)
  {
    SlatesDiffer(m, n);
  }

  lemma DiscardLeaves(d: Disk, b: Option<Booted>, m: string, n: string)
    requires Sound(d) && ValidName(m) && ValidName(n) && m != n && !RunsOn(b, "@" + n)
    requires "@" + m in d.subvols && "@" + n in d.subvols
    ensures var x := End(d, DiscardCommand(d, b, n, false, NO_CLI_FAULTS).trail);
      && x.staged == d.staged && x.entries == d.entries && "@" + n !in x.subvols
      && "@" + m in x.subvols && x.subvols["@" + m] == d.subvols["@" + m]
  {
    hide Sound, ValidName, Family, DiscardRun, FamilyShrunk, RunsOn, Deletes;
    NoFaultsDelete();
    DiscardSucceeds(d, b, n, NO_CLI_FAULTS.deletes);
    DiscardExact(d, b, n, NO_CLI_FAULTS.deletes);
    DiscardOnly(d, b, n, NO_CLI_FAULTS.deletes);
    ValidIsPlain(m);
    ValidIsPlain(n);
    SlateInFamily(m);
    SlateInFamily(n);
    FamiliesApart("@" + m, m, n);
    ShrunkSame(d, End(d, DiscardRun(d, b, n, NO_CLI_FAULTS.deletes).trail), n);
  }

  lemma ShrunkSame(d: Disk, x: Disk, n: string)
    requires FamilyShrunk(d, x, n)
    ensures x.staged == d.staged && x.entries == d.entries
    ensures forall k | k in x.subvols :: k in d.subvols && x.subvols[k] == d.subvols[k]
  {
  }

  lemma ForkStep(s: State, m: string, n: string)
    requires s.session.Up? && ValidName(n) && RunsOn(Record(s), "@" + m)
    requires "@" + m in s.disk.subvols && "@" + n !in s.disk.subvols && TEMPLATE in s.disk.entries
    ensures Forkable(s.disk, n, NO_CLI_FAULTS)
    ensures ForksFrom(s, "", s.disk.subvols["@" + m].files)
  {
    hide ValidName, RewriteEntry, Record;
    assert RESCUE[0] != PERSISTENT[0];
  }

  lemma StaleBoot(d: Disk, n: string, baked: Files)
    requires ValidName(n) && d.staged == Some(StagedText(ResetOf(n)))
    requires BASELINE in d.subvols && d.subvols[BASELINE].files == baked
    ensures BootFiles(d, "@" + n) == baked && Applies(d, "@" + n)
  {
    hide ValidName, ValidSubvol, StagedText, StagedSlate, StagedSource;
    ValidNameIsValidSubvol(n);
    BaselineIsSource(n);
    ResetIsStageable(n);
    StagedReads(d, ResetOf(n));
  }

  // Discarding a slate leaves a replacement staged for its name: a slate forked anew under that
  // name from the running one boots as the baseline, not as what it was forked from.
  lemma StaleResetHitsFork(s: State, m: string, n: string, baked: Files)
    requires Inv(s, baked) && TwoSlates(s, m, n)
    ensures var forked := Next(Next(Next(s, ResetN(n)), DiscardN(n)), ForkN(n));
            var booted := Next(Next(forked, Plainly(PowerOff)), Plainly(Boot(n, NO_FAULTS)));
      && "@" + n in forked.disk.subvols && forked.disk.subvols["@" + n].files == s.disk.subvols["@" + m].files
      && booted.session.Up? && booted.session.root == "@" + n
      && "@" + n in booted.disk.subvols && booted.disk.subvols["@" + n].files == baked
  {
    hide Inv, ValidName, Next, Record, RunsOn, ForkRun, ForksFrom, StagedText, ResetOf;
    var s1 := Next(s, ResetN(n));
    var s2 := Next(s1, DiscardN(n));
    var s3 := Next(s2, ForkN(n));
    ResetStep(s, m, n, baked);
    NextKeeps(s, ResetN(n), n, baked);
    SameRecord(s, s1);
    DiscardStep(s1, m, n, baked);
    NextKeeps(s1, DiscardN(n), n, baked);
    SameRecord(s1, s2);
    ForkStep(s2, m, n);
    ForkMakes(s2, n, "", NO_CLI_FAULTS, s.disk.subvols["@" + m].files);
    NextKeeps(s2, ForkN(n), n, baked);
    StaleBoots(s3, n, baked);
  }

  // Forking from the slate called `current` while m runs gives the files of m.
  lemma CurrentForksRunning(s: State, m: string, x: string, baked: Files)
    requires Inv(s, baked) && TwoSlates(s, m, CURRENT) && Forkable(s.disk, x, NO_CLI_FAULTS)
    ensures var s1 := Next(s, Plainly(Forking(x, CURRENT, true, NO_CLI_FAULTS)));
            "@" + x in s1.disk.subvols && s1.disk.subvols["@" + x].files == s.disk.subvols["@" + m].files
  {
    hide Inv, ValidName, Next, Record, ForkSource, Forkable;
    var b := Record(s);
    CurrentSource(s.disk, b, ForkSource(s.disk, b, CURRENT));
    assert RESCUE[0] != PERSISTENT[0];
    ForkMakes(s, x, CURRENT, NO_CLI_FAULTS, s.disk.subvols["@" + m].files);
  }

  lemma SameRecord(s: State, s1: State)
    requires s1.session == s.session
    ensures Record(s1) == Record(s)
  {
  }

  lemma StaleBoots(s: State, n: string, baked: Files)
    requires Inv(s, baked) && ValidName(n) && n in s.disk.entries && s.disk.staged == Some(StagedText(ResetOf(n)))
    ensures var booted := Next(Next(s, Plainly(PowerOff)), Plainly(Boot(n, NO_FAULTS)));
      && booted.session.Up? && booted.session.root == "@" + n
      && "@" + n in booted.disk.subvols && booted.disk.subvols["@" + n].files == baked
  {
    hide Inv, ValidName, BootFiles, StagedText, ResetOf, HookTrail, HookOutcome, Applies;
    var off := Next(s, Plainly(PowerOff));
    NoTrail(s);
    NextKeeps(s, Plainly(PowerOff), n, baked);
    InvParts(off, baked);
    StaleBoot(off.disk, n, baked);
    SlateBoots(off, n, baked);
  }

  // -------------------------------------------------------------------------
  // When the template entry is gone
  // -------------------------------------------------------------------------

  function DiscardMain(): Step { Plainly(Discarding(TEMPLATE, true, NO_CLI_FAULTS)) }

  lemma DiscardMainStep(s: State, m: string, baked: Files)
    requires Inv(s, baked) && TwoSlates(s, m, TEMPLATE)
    ensures var s1 := Next(s, DiscardMain());
      && s1.session == s.session && s1.disk.entries == s.disk.entries - {TEMPLATE}
      && "@" + TEMPLATE !in s1.disk.subvols
      && forall k | k in s1.disk.subvols :: k in s.disk.subvols
  {
    hide DiskOk, SessionOk, ValidName, Record, Trail, DiscardCommand, RunsOn;
    DiskParts(s.disk, baked);
    DiscardTrail(s, TEMPLATE, true, NO_CLI_FAULTS);
    OnlyRunning(Record(s), m, TEMPLATE);
    DiscardDropsEntry(s.disk, Record(s), TEMPLATE);
  }

  lemma DiscardDropsEntry(d: Disk, b: Option<Booted>, n: string)
    requires Sound(d) && ValidName(n) && !RunsOn(b, "@" + n) && "@" + n in d.subvols && n in d.entries
    ensures var x := End(d, DiscardCommand(d, b, n, true, NO_CLI_FAULTS).trail);
      && x.entries == d.entries - {n} && "@" + n !in x.subvols && forall k | k in x.subvols :: k in d.subvols
  {
    hide Sound, ValidName, Family, DiscardRun, FamilyShrunk, RunsOn, Deletes;
    var r := DiscardRun(d, b, n, NO_CLI_FAULTS.deletes);
    NoFaultsDelete();
    DiscardSucceeds(d, b, n, NO_CLI_FAULTS.deletes);
    DiscardExact(d, b, n, NO_CLI_FAULTS.deletes);
    DiscardOnly(d, b, n, NO_CLI_FAULTS.deletes);
    ValidIsPlain(n);
    SlateInFamily(n);
    ShrunkSame(d, End(d, r.trail), n);
  }

  lemma BaselineSource(d: Disk, b: Option<Booted>)
    ensures ForkSource(d, b, THE_BASELINE) == Ok(BASELINE)
  {
    assert THE_BASELINE[0] == 'b' && CURRENT[0] == 'c';
  }

  // Discarding `main` with its entry from another slate, then forking: the slate is made, but the
  // command reports an error and the slate has no boot entry.
  lemma DiscardedTemplateBlocksForks(s: State, m: string, n: string, baked: Files)
    requires Inv(s, baked) && TwoSlates(s, m, TEMPLATE) && ValidName(n)
    requires n == TEMPLATE || ("@" + n !in s.disk.subvols && n !in s.disk.entries)
    ensures var s1 := Next(s, DiscardMain());
            var s2 := Next(s1, Plainly(Forking(n, THE_BASELINE, true, NO_CLI_FAULTS)));
      && ForkRun(s1.disk, Record(s1), n, THE_BASELINE, true, NO_CLI_FAULTS).error == Some(CommandFailed)
      && "@" + n in s2.disk.subvols && s2.disk.subvols["@" + n].files == baked && n !in s2.disk.entries
  {
    hide Inv, ValidName, Next, Record, RunsOn, ForkRun, ForkSource, DiscardMain;
    var s1 := Next(s, DiscardMain());
    DiscardMainStep(s, m, baked);
    TemplateIsValid();
    NextKeeps(s, DiscardMain(), TEMPLATE, baked);
    InvParts(s1, baked);
    NoFaultsDelete();
    BaselineSource(s1.disk, Record(s1));
    ForkGetsItsEntry(s1.disk, Record(s1), n, THE_BASELINE, NO_CLI_FAULTS);
    ForkStepIs(s1, n, THE_BASELINE, true, NO_CLI_FAULTS);
  }

  // -------------------------------------------------------------------------
  // Without a template no entry is ever added
  // -------------------------------------------------------------------------

  ghost predicate EntriesShrink(d: Disk, x: Disk) {
    forall e | e in x.entries :: e in d.entries
  }

  lemma BootEntriesShrink(s: State, e: Event, i: nat, baked: Files)
    requires Inv(s, baked) && e.Boot? && i < |Trail(s, e)|
    ensures EntriesShrink(s.disk, Trail(s, e)[i])
  {
    hide DiskOk, SessionOk, HookTrail, CmdlineOf, ValidName, ScratchRun, PersistentRun, HookArgs, Sound, Only, KeepsKept,
         KeepsWork, Room;
    var d := s.disk;
    DiskParts(d, baked);
    EntryKinds(d, e.entry);
    BootTrailIs(d, e.entry, e.hookFaults);
    if e.entry == SCRATCH {
      ScratchRunOnly(d, HookArgs(CmdlineOf(d.entries[e.entry])).basis, e.hookFaults);
    } else if ValidName(e.entry) {
      PersistentSafe(d, e.entry, e.hookFaults);
      SafeSameEntries(d, Trail(s, e)[i], e.entry, Taken(d, e.entry, e.hookFaults));
    }
  }

  lemma SafeSameEntries(d: Disk, x: Disk, n: string, j: nat)
    requires Safe(d, x, n, j)
    ensures x.entries == d.entries
  {
  }

  lemma ForkEntriesShrink(d: Disk, b: Option<Booted>, name: string, from: string, bls: bool, f: CliFaults, i: nat)
    requires TEMPLATE !in d.entries && i < |ForkRun(d, b, name, from, bls, f).trail|
    ensures EntriesShrink(d, ForkRun(d, b, name, from, bls, f).trail[i])
  {
    hide ForkSource, RewriteEntry, ForkRun, ValidName;
    ForkTrailIs(d, b, name, from, bls, f);
  }

  lemma CheckpointEntriesShrink(d: Disk, b: Option<Booted>, message: string, allow: bool, f: CliFaults, i: nat)
    requires i < |CheckpointCommand(d, b, message, allow, f).trail|
    ensures EntriesShrink(d, CheckpointCommand(d, b, message, allow, f).trail[i])
  {
    hide CheckpointRun, CkptName, MaxSeq, ValidName;
    CheckpointTrailIs(d, b.value.name, MessageOr(message), allow, f);
  }

  lemma StageEntriesShrink(d: Disk, b: Option<Booted>, ref: string, name: string, f: CliFaults)
    ensures forall i | 0 <= i < |RollbackRun(d, b, ref, f).trail| :: EntriesShrink(d, RollbackRun(d, b, ref, f).trail[i])
    ensures forall i | 0 <= i < |ResetRun(d, name, f).trail| :: EntriesShrink(d, ResetRun(d, name, f).trail[i])
  {
    hide Find, RollbackTo, ResetOf, ValidName;
  }

  lemma DiscardEntriesShrink(d: Disk, b: Option<Booted>, m: string, bls: bool, f: CliFaults, i: nat, baked: Files)
    requires DiskOk(d, baked) && i < |DiscardCommand(d, b, m, bls, f).trail|
    ensures EntriesShrink(d, DiscardCommand(d, b, m, bls, f).trail[i])
  {
    hide DiskOk, DiscardRun, FamilyShrunk, ValidName, Family, DiscardCommand;
    DiskParts(d, baked);
    var r := DiscardRun(d, b, m, f.deletes);
    DiscardOnly(d, b, m, f.deletes);
    DiscardTrailAt(d, b, m, bls, f, i);
    ShrunkSame(d, End(d, r.trail), m);
    if i < |r.trail| {
      ShrunkSame(d, r.trail[i], m);
    }
  }

  lemma StepEntriesShrink(s: State, e: Event, i: nat, baked: Files)
    requires Inv(s, baked) && TEMPLATE !in s.disk.entries && i < |Trail(s, e)|
    ensures EntriesShrink(s.disk, Trail(s, e)[i])
  {
    hide DiskOk, SessionOk, HookTrail, WriteTrail, ForkRun, CheckpointCommand, DiscardCommand, RollbackRun, ResetRun,
         Record, EntriesShrink, ResetTarget;
    var d := s.disk;
    match e
    case Boot(_, _) => BootEntriesShrink(s, e, i, baked);
    case PowerOff =>
    case Write(path, files) => WriteEntriesShrink(d, s.session.root, path, files, i);
    case Configure(text) => SameEntriesShrink(d, d.(config := text));
    case Forking(name, from, bls, f) => ForkEntriesShrink(d, Record(s), name, from, bls, f, i);
    case Checkpointing(message, allow, f) => CheckpointEntriesShrink(d, Record(s), message, allow, f, i);
    case RollingBack(ref, f) => StageEntriesShrink(d, Record(s), ref, "", f);
    case Resetting(slate, f) => StageEntriesShrink(d, Record(s), "", ResetTarget(Record(s), slate), f);
    case Discarding(name, bls, f) => DiscardEntriesShrink(d, Record(s), name, bls, f, i, baked);
  }

  lemma SameEntriesShrink(d: Disk, x: Disk)
    requires x.entries == d.entries
    ensures EntriesShrink(d, x)
  {
  }

  lemma WriteEntriesShrink(d: Disk, root: string, path: string, files: Option<Files>, i: nat)
    requires i < |WriteTrail(d, root, path, files)|
    ensures EntriesShrink(d, WriteTrail(d, root, path, files)[i])
  {
  }

  // Once the template entry is gone no run adds an entry, so no later fork ever gets one.
  lemma {:induction false} NoEntryWithoutTemplate(s: State, steps: seq<Step>, baked: Files)
    requires Inv(s, baked) && TEMPLATE !in s.disk.entries
    ensures EntriesShrink(s.disk, Exec(s, steps).disk)
    decreases |steps|
  {
    hide Inv, Next, Trail;
    if steps != [] {
      var x := Next(s, steps[0]).disk;
      TemplateIsValid();
      NextKeeps(s, steps[0], TEMPLATE, baked);
      NextDisk(s, steps[0]);
      if x != s.disk {
        var i :| 0 <= i < |Trail(s, steps[0].event)| && Trail(s, steps[0].event)[i] == x;
        StepEntriesShrink(s, steps[0].event, i, baked);
      }
      NoEntryWithoutTemplate(Next(s, steps[0]), steps[1..], baked);
    }
  }
}
