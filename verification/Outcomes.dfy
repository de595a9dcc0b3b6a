/** What boots and commands come to, said of the stores, records and refusals they leave and not
    through the functions that compute them. */
module Outcomes {
  import opened Text
  import opened Decimal
  import opened Names
  import opened Staged
  import opened Config
  import opened Entries
  import opened EntryFile
  import opened Store
  import opened Sorting
  import opened Checkpoints
  import opened Pruning
  import opened Hook
  import opened HookSafety
  import opened BootSpec
  import opened Ops
  import opened OpsLaws
  import opened Machine
  import opened Steps
  import opened Runs
  import opened Reversal
  import opened Forks

  // -------------------------------------------------------------------------
  // The record a boot leaves
  // -------------------------------------------------------------------------

  predicate Tidy(s: string) { s == "" || (!GoSpace(s[0]) && !GoSpace(s[|s| - 1])) }

  lemma TidyTrims(s: string)
    requires Tidy(s)
    ensures TrimSpace(s) == s
  {
    if s != "" {
      TrimSolid(s);
    }
  }

  // A record written in full reads back as it was written.
  lemma RecordReads(name: string, mode: string, basis: string, ckpt: string, requested: string, cmdline: string)
    requires name != "" && mode != "" && Tidy(name) && Tidy(mode) && Tidy(basis) && Tidy(ckpt)
    ensures BootRecord(WriteFacts(name, mode, basis, ckpt, requested, {}), cmdline)
         == Some(Booted(name, mode, basis, ckpt, TrimSpace(requested), false))
  {
    hide TrimSpace, WriteFacts, Tidy;
    FactsAre(name, mode, basis, ckpt, requested, {});
    TidyTrims(name);
    TidyTrims(mode);
    TidyTrims(basis);
    TidyTrims(ckpt);
  }

  lemma ModesAreTidy()
    ensures Tidy("persistent") && Tidy("scratch") && Tidy("rescue") && Tidy("disabled") && Tidy("baseline")
    ensures Tidy(BASELINE) && Tidy("")
  {
    var p, s, r, d, b := "persistent", "scratch", "rescue", "disabled", "baseline";
    assert p[0] == 'p' && p[|p| - 1] == 't' && s[0] == 's' && s[|s| - 1] == 'h';
    assert r[0] == 'r' && r[|r| - 1] == 'e' && d[0] == 'd' && d[|d| - 1] == 'd';
    assert b[0] == 'b' && b[|b| - 1] == 'e' && BASELINE[0] == '@' && BASELINE[|BASELINE| - 1] == 'e';
  }

  // The rescue boot is on record as such, of the baseline.
  lemma RescueRecorded(s: State, baked: Files)
    requires Inv(s, baked) && s.session.Off?
    ensures var s1 := Next(s, Plainly(Boot(RESCUE, NO_FAULTS)));
      && Inv(s1, baked) && s1.disk == s.disk && s1.session.Up? && s1.session.root == BASELINE
      && Record(s1) == Some(Booted("baseline", "rescue", BASELINE, "", BASELINE, false))
  {
    hide Inv, Next, BootRecord;
    var s1 := Next(s, Plainly(Boot(RESCUE, NO_FAULTS)));
    InvParts(s, baked);
    ModesBoot(s, RESCUE, baked);
    TemplateIsValid();
    NextKeeps(s, Plainly(Boot(RESCUE, NO_FAULTS)), TEMPLATE, baked);
    RescueFacts(s, baked);
    ModesAreTidy();
    TidyTrims(BASELINE);
    RecordReads("baseline", "rescue", BASELINE, "", BASELINE, s1.session.cmdline);
  }

  lemma RescueFacts(s: State, baked: Files)
    requires Inv(s, baked) && s.session.Off?
    ensures var s1 := Next(s, Plainly(Boot(RESCUE, NO_FAULTS)));
            s1.session.Up? && s1.session.facts == WriteFacts("baseline", "rescue", BASELINE, "", BASELINE, {})
  {
    hide Sound, HookArgs, GoodTemplate, CmdlineOf, GoSubvol, WriteFacts, ValidName, HookTrail;
    var d := s.disk;
    assert EntryOk(RESCUE, d.entries[RESCUE]);
    assert SCRATCH[0] != RESCUE[0] && BASELINE != "";
    BootTrailIs(d, RESCUE, NO_FAULTS);
  }

  // So is the scratch boot.
  lemma ScratchRecorded(s: State, baked: Files)
    requires Inv(s, baked) && s.session.Off?
    ensures var s1 := Next(s, Plainly(Boot(SCRATCH, NO_FAULTS)));
      && Inv(s1, baked) && s1.session.Up? && s1.session.root == RUNTIME
      && Record(s1) == Some(Booted("baseline", "scratch", BASELINE, "", BASELINE, false))
  {
    hide Inv, Next, BootRecord;
    var s1 := Next(s, Plainly(Boot(SCRATCH, NO_FAULTS)));
    InvParts(s, baked);
    ModesBoot(s, SCRATCH, baked);
    TemplateIsValid();
    NextKeeps(s, Plainly(Boot(SCRATCH, NO_FAULTS)), TEMPLATE, baked);
    ScratchFacts(s, baked);
    ModesAreTidy();
    TidyTrims(BASELINE);
    RecordReads("baseline", "scratch", BASELINE, "", BASELINE, s1.session.cmdline);
  }

  lemma ScratchFacts(s: State, baked: Files)
    requires Inv(s, baked) && s.session.Off?
    ensures var s1 := Next(s, Plainly(Boot(SCRATCH, NO_FAULTS)));
            s1.session.Up? && s1.session.facts == WriteFacts("baseline", "scratch", BASELINE, "", BASELINE, {})
  {
    hide Sound, HookArgs, GoodTemplate, CmdlineOf, GoSubvol, WriteFacts, ValidName, ScratchRun, ScratchBasis;
    var d := s.disk;
    assert EntryOk(SCRATCH, d.entries[SCRATCH]);
    assert SCRATCH[0] != RESCUE[0] && BASELINE != "" && RUNTIME != "" && BASELINE != RUNTIME;
    BootTrailIs(d, SCRATCH, NO_FAULTS);
    ScratchMeetsSpec(d, BASELINE);
    BaselineBasis(d);
  }

  // The checkpoint on record, as far as a boot of n takes one that is retained.
  ghost predicate CkptOnRecord(d: Disk, x: Disk, n: string, c: string) {
    if !HookAutoOn(d.config) then c == "disabled"
    else HookRetain(d.config) >= 1 && MaxSeq(d, n) + 2 < 10000 ==>
      && AutoCkptOf(c, n) && c !in d.subvols && c in x.subvols && SeqOf(c) > MaxSeq(d, n)
      && "@" + n in x.subvols && x.subvols[c] == Subvol(x.subvols["@" + n].files, true)
  }

  // A slate's boot is on record with its name, its mode, its subvolume and its new checkpoint.
  lemma SlateBootRecorded(s: State, n: string, baked: Files) returns (c: string)
    requires Inv(s, baked) && s.session.Off? && ValidName(n) && n in s.disk.entries
    ensures var s1 := Next(s, Plainly(Boot(n, NO_FAULTS)));
      && Inv(s1, baked) && s1.session.Up? && s1.session.root == "@" + n && "@" + n in s1.disk.subvols
      && Record(s1) == Some(Booted(n, "persistent", "@" + n, c, "@" + n, false))
      && CkptOnRecord(s.disk, s1.disk, n, c)
      && (AutoCheckpointOff(Record(s1).value) <==> !HookAutoOn(s.disk.config)) && !Diverged(Record(s1).value)
  {
    hide Inv, Next, BootRecord, ValidName, BootsTo, Room, CkptOnRecord;
    var s1 := Next(s, Plainly(Boot(n, NO_FAULTS)));
    InvParts(s, baked);
    SlateBoots(s, n, baked);
    BootedThere(s.disk, s1.disk, n);
    NextKeeps(s, Plainly(Boot(n, NO_FAULTS)), n, baked);
    c := SlateFacts(s, n, baked);
    ModesAreTidy();
    SlateReads(n);
    TidyTrims("@" + n);
    RecordReads(n, "persistent", "@" + n, c, "@" + n, s1.session.cmdline);
  }

  lemma SlateFacts(s: State, n: string, baked: Files) returns (c: string)
    requires Inv(s, baked) && s.session.Off? && ValidName(n) && n in s.disk.entries
    ensures var s1 := Next(s, Plainly(Boot(n, NO_FAULTS)));
      && s1.session.Up? && s1.session.facts == WriteFacts(n, "persistent", "@" + n, c, "@" + n, {})
      && CkptOnRecord(s.disk, s1.disk, n, c) && Tidy(c) && (c == "disabled" <==> !HookAutoOn(s.disk.config))
  {
    hide Sound, HookArgs, GoodTemplate, CmdlineOf, GoSubvol, PersistentRun, PreparedRun, ValidName, BootsTo, SelfStaged,
         DiskOk, HookTrail, HookOutcome, CkptFact, WriteFacts, CkptOnRecord, Tidy;
    var d := s.disk;
    DiskParts(d, baked);
    BootTrailIs(d, n, NO_FAULTS);
    StagedNeverSelf(d, n, baked);
    BootMeetsSpec(d, n);
    BootedThere(d, End(d, PersistentRun(d, "@" + n, NO_FAULTS).trail), n);
    c := CkptFact(End(d, PreparedRun(d, "@" + n, NO_FAULTS).trail), "@" + n, NO_FAULTS);
    SlateFactsOf(d, n);
    CkptRecorded(d, n);
  }

  lemma SlateFactsOf(d: Disk, n: string)
    requires EntriesOk(d) && n in d.entries && ValidName(n) && BASELINE in d.subvols
    requires !PersistentRun(d, "@" + n, NO_FAULTS).panic
    ensures var o := HookOutcome(d, CmdlineOf(d.entries[n]), NO_FAULTS);
            var c := CkptFact(End(d, PreparedRun(d, "@" + n, NO_FAULTS).trail), "@" + n, NO_FAULTS);
            o == Mount("@" + n, WriteFacts(n, "persistent", "@" + n, c, "@" + n, {}))
  {
    hide HookArgs, GoodTemplate, CmdlineOf, GoSubvol, PersistentRun, PreparedRun, ValidName, CkptFact, WriteFacts;
    EntryKinds(d, n);
    assert EntryOk(n, d.entries[n]);
    SlateReads(n);
  }

  lemma CkptRecorded(d: Disk, n: string)
    requires Sound(d) && ValidName(n) && BASELINE in d.subvols && !PersistentRun(d, "@" + n, NO_FAULTS).panic
    ensures var y := End(d, PreparedRun(d, "@" + n, NO_FAULTS).trail);
            var c := CkptFact(y, "@" + n, NO_FAULTS);
            CkptOnRecord(d, End(d, PersistentRun(d, "@" + n, NO_FAULTS).trail), n, c) && Tidy(c)
            && (c == "disabled" <==> !HookAutoOn(d.config))
  {
    hide Sound, PreparedRun, CheckpointTrail, ValidSubvol, HookAutoOn, HookRetain, MaxSeq, AutoTrail, AutoName, Room,
         Grows, Only, KeepsKept, KeepsWork, PreparedTaken, ValidName, MatchCkpt, SeqOf;
    var t, p := "@" + n, PreparedRun(d, "@" + n, NO_FAULTS);
    var y := End(d, p.trail);
    PreparedSafe(d, n, NO_FAULTS);
    EndSafe(d, p.trail, n, PreparedTaken(d, n, NO_FAULTS));
    EndConcat(d, p.trail, CheckpointTrail(y, t, NO_FAULTS));
    PreparedHasSlate(d, n);
    ModesAreTidy();
    ValidNameIsValidSubvol(n);
    if HookAutoOn(d.config) {
      AutoIsTaken(y, n);
      AutoAdds(y, n, NO_FAULTS);
      CkptIsTidy(AutoName(y, t), n);
      if HookRetain(d.config) >= 1 && MaxSeq(d, n) + 2 < 10000 {
        RoomGrows(d, y, n, PreparedTaken(d, n, NO_FAULTS));
        TakenCkptStays(y, n, NO_FAULTS);
        CheckpointLeavesSlate(y, n);
        NewCkptWasNot(d, n, AutoName(y, t));
      }
    }
  }

  lemma NewCkptWasNot(d: Disk, n: string, k: string)
    requires CkptOf(k, n) && SeqOf(k) > MaxSeq(d, n)
    ensures k !in d.subvols
  {
    hide MatchCkpt, SeqOf, MaxSeq;
    if k in d.subvols {
      SeqAtMostMax(d, n, k);
    }
  }

  lemma RoomGrows(d: Disk, y: Disk, n: string, j: nat)
    requires Safe(d, y, n, j) && j <= 1 && HookRetain(d.config) >= 1 && MaxSeq(d, n) + 2 < 10000
    ensures MaxSeq(d, n) <= MaxSeq(y, n) <= MaxSeq(d, n) + 1
  {
    hide Sound, MaxSeq, HookRetain, HookAutoOn;
  }

  lemma PreparedHasSlate(d: Disk, n: string)
    requires Sound(d) && ValidName(n) && BASELINE in d.subvols && !PersistentRun(d, "@" + n, NO_FAULTS).panic
    ensures !PreparedRun(d, "@" + n, NO_FAULTS).panic
    ensures "@" + n in End(d, PreparedRun(d, "@" + n, NO_FAULTS).trail).subvols
  {
    hide Sound, PreparedRun, CheckpointTrail, ValidSubvol, BootsTo, Applied, Ensured, SelfStaged;
    BootMeetsSpec(d, n);
    PreparedGives(d, n);
    EnsureGives(d, n);
    if !PreparedRun(d, "@" + n, NO_FAULTS).panic {
      AppliedGives(d, n);
      BootedThere(d, Applied(Ensured(d, "@" + n), n), n);
    }
    ValidNameIsValidSubvol(n);
  }

  lemma AutoIsTaken(d: Disk, n: string)
    requires Sound(d) && ValidName(n) && "@" + n in d.subvols
    ensures AutoTrail(d, "@" + n, NO_FAULTS) != []
  {
    hide Sound, HookNext, MaxSeq, CkptName, HookCkpt;
    NextIsFree(d, n);
  }

  lemma CheckpointLeavesSlate(d: Disk, n: string)
    requires Sound(d) && ValidName(n) && "@" + n in d.subvols
    ensures var x := End(d, CheckpointTrail(d, "@" + n, NO_FAULTS));
            "@" + n in x.subvols && x.subvols["@" + n] == d.subvols["@" + n]
  {
    hide Sound, CheckpointTrail, MatchCkpt, ValidName;
    CheckpointOnly(d, n, NO_FAULTS);
    ValidIsPlain(n);
    SlateInFamily(n);
  }

  lemma CkptIsTidy(k: string, n: string)
    requires CkptOf(k, n)
    ensures Tidy(k) && k != "disabled"
  {
    MatchSound(k);
    hide MatchCkpt;
    var m := MatchCkpt(k).value;
    assert k[0] == '@' && k[|k| - 1] == m.class_[3];
    assert AUTO[3] == 'o' && KEEP[3] == 'p' && "disabled"[0] == 'd';
  }

  // -------------------------------------------------------------------------
  // Commands on a rescue and on a scratch boot
  // -------------------------------------------------------------------------

  lemma ForkNothing(d: Disk, b: Option<Booted>, name: string, bls: bool, f: CliFaults)
    requires b.Some? && b.value.mode == RESCUE && ValidName(name) && "@" + name !in d.subvols
    ensures ForkRun(d, b, name, "", bls, f) == Done([], Some(NoSlateRunning))
  {
    hide ValidName;
  }

  lemma NoTarget(d: Disk, b: Option<Booted>, f: CliFaults)
    requires b.Some? && b.value.mode != PERSISTENT
    ensures ResetRun(d, ResetTarget(b, None), f) == Done([], Some(InvalidName))
  {
  }

  lemma ModesApart()
    ensures PERSISTENT != SCRATCH && PERSISTENT != RESCUE && SCRATCH != RESCUE
  {
    assert PERSISTENT[0] == 'p' && SCRATCH[0] == 's' && RESCUE[0] == 'r';
  }

  // After a rescue boot there is no slate to fork, to checkpoint or to reset without naming one.
  lemma RescueRefuses(s: State, name: string, bls: bool, message: string, allow: bool, f: CliFaults, baked: Files)
    requires Inv(s, baked) && s.session.Off? && ValidName(name) && "@" + name !in s.disk.subvols
    ensures var s1 := Next(s, Plainly(Boot(RESCUE, NO_FAULTS)));
      && ForkRun(s1.disk, Record(s1), name, "", bls, f) == Done([], Some(NoSlateRunning))
      && Trail(s1, Forking(name, "", bls, f)) == [] && Trail(s1, Forking(name, CURRENT, bls, f)) == []
      && CheckpointCommand(s1.disk, Record(s1), message, allow, f) == Done([], Some(NoSlateRunning))
      && Trail(s1, Checkpointing(message, allow, f)) == [] && Trail(s1, Resetting(None, f)) == []
  {
    hide Inv, Next, Record, ForkRun, CheckpointRun, ValidName, ResetRun, ResetTarget;
    var s1 := Next(s, Plainly(Boot(RESCUE, NO_FAULTS)));
    RescueRecorded(s, baked);
    ForkNothing(s1.disk, Record(s1), name, bls, f);
    ModesApart();
    CurrentAsEmpty(s1.disk, Record(s1), name, bls, f);
    NoTarget(s1.disk, Record(s1), f);
  }

  lemma CurrentAsEmpty(d: Disk, b: Option<Booted>, name: string, bls: bool, f: CliFaults)
    ensures ForkRun(d, b, name, CURRENT, bls, f) == ForkRun(d, b, name, "", bls, f)
  {
    hide RewriteEntry, ValidName;
  }

  // After a scratch boot a fork without a source copies the baseline; checkpoints and a reset
  // without a name are refused.
  lemma ScratchForksBaseline(s: State, name: string, bls: bool, message: string, allow: bool, f: CliFaults, baked: Files)
    requires Inv(s, baked) && s.session.Off? && ValidName(name) && "@" + name !in s.disk.subvols && !f.snapshot
    ensures var s1 := Next(s, Plainly(Boot(SCRATCH, NO_FAULTS)));
            var s2 := Next(s1, Plainly(Forking(name, "", bls, f)));
      && "@" + name in s2.disk.subvols && s2.disk.subvols["@" + name] == Subvol(baked, false)
      && CheckpointCommand(s1.disk, Record(s1), message, allow, f) == Done([], Some(NoSlateRunning))
      && Trail(s1, Checkpointing(message, allow, f)) == [] && Trail(s1, Resetting(None, f)) == []
  {
    hide Inv, Next, Record, ForkRun, CheckpointRun, ValidName, ResetRun, ResetTarget;
    var s1 := Next(s, Plainly(Boot(SCRATCH, NO_FAULTS)));
    ScratchRecorded(s, baked);
    InvParts(s1, baked);
    ModesApart();
    ScratchAddsNone(s, name, baked);
    ForkOfBasis(s1.disk, Record(s1), name, "", BASELINE, bls, f);
    ForkStepIs(s1, name, "", bls, f);
    NoTarget(s1.disk, Record(s1), f);
  }

  lemma ScratchAddsNone(s: State, name: string, baked: Files)
    requires Inv(s, baked) && s.session.Off? && ValidName(name) && "@" + name !in s.disk.subvols
    ensures "@" + name !in Next(s, Plainly(Boot(SCRATCH, NO_FAULTS))).disk.subvols
  {
    hide Sound, HookArgs, GoodTemplate, CmdlineOf, GoSubvol, ScratchRun, ValidName, HookOutcome, HookTrail, MatchCkpt, Top;
    var d := s.disk;
    BootTrailIs(d, SCRATCH, NO_FAULTS);
    ScratchRunOnly(d, HookArgs(CmdlineOf(d.entries[SCRATCH])).basis, NO_FAULTS);
    OutsideRuntime(name);
    ValidIsPlain(name);
    SlateInFamily(name);
  }

  // Whatever becomes of the entry, a fork whose source is there makes the slate from it.
  lemma ForkOfBasis(d: Disk, b: Option<Booted>, name: string, from: string, src: string, bls: bool, f: CliFaults)
    requires ValidName(name) && "@" + name !in d.subvols && !f.snapshot && src in d.subvols
    requires from == "" || from == CURRENT
    requires b.Some? && b.value.mode != RESCUE && b.value.basis == src
    ensures End(d, ForkRun(d, b, name, from, bls, f).trail).subvols
         == d.subvols["@" + name := Subvol(d.subvols[src].files, false)]
  {
    hide RewriteEntry, ValidName;
  }

  // -------------------------------------------------------------------------
  // Commands on a slate's boot
  // -------------------------------------------------------------------------

  // A fork without a source copies the slate that runs.
  lemma ForkOfRunning(s: State, n: string, name: string, bls: bool, f: CliFaults, baked: Files)
    requires Inv(s, baked) && s.session.Off? && ValidName(n) && n in s.disk.entries && !f.snapshot
    requires var s1 := Next(s, Plainly(Boot(n, NO_FAULTS))); ValidName(name) && "@" + name !in s1.disk.subvols
    ensures var s1 := Next(s, Plainly(Boot(n, NO_FAULTS)));
            var s2 := Next(s1, Plainly(Forking(name, "", bls, f)));
      && "@" + n in s1.disk.subvols && "@" + name in s2.disk.subvols
      && s2.disk.subvols["@" + name] == Subvol(s1.disk.subvols["@" + n].files, false)
  {
    hide Inv, Next, Record, ForkRun, ValidName;
    var s1 := Next(s, Plainly(Boot(n, NO_FAULTS)));
    var c := SlateBootRecorded(s, n, baked);
    ModesApart();
    ForkOfBasis(s1.disk, Record(s1), name, "", "@" + n, bls, f);
    ForkStepIs(s1, name, "", bls, f);
  }

  lemma RunningIsTarget(s: State, n: string, c: string, f: CliFaults)
    requires s.session.Up? && ValidName(n) && "@" + n in s.disk.subvols && !f.write
    requires Record(s) == Some(Booted(n, PERSISTENT, "@" + n, c, "@" + n, false))
    ensures Trail(s, Resetting(None, f)) == StageRun(s.disk, ResetOf(n), false).trail
  {
    hide ValidName, StageRun, ResetOf, Record;
  }

  // A reset without a name resets the slate that runs.
  lemma ResetOfRunning(s: State, n: string, f: CliFaults, baked: Files)
    requires Inv(s, baked) && s.session.Off? && ValidName(n) && n in s.disk.entries && !f.write
    ensures var s1 := Next(s, Plainly(Boot(n, NO_FAULTS)));
            var s2 := Exec(s1, [Plainly(Resetting(None, f)), Plainly(PowerOff), Plainly(Boot(n, NO_FAULTS))]);
      && "@" + n in s1.disk.subvols
      && s2.session.Up? && s2.session.root == "@" + n
      && "@" + n in s2.disk.subvols && s2.disk.subvols["@" + n].files == baked
      && KeptIn(s2.disk, n, s1.disk.subvols["@" + n].files)
  {
    hide Inv, ValidName, ResetOf, Exec, ValidSubvol, KeepCkptOf, KeptName, KeptIn, Replaces, Trail, StageRun, Next, Record;
    var s1 := Next(s, Plainly(Boot(n, NO_FAULTS)));
    var c := SlateBootRecorded(s, n, baked);
    NextKeeps(s, Plainly(Boot(n, NO_FAULTS)), n, baked);
    InvParts(s1, baked);
    BaselineIsSource(n);
    RunningIsTarget(s1, n, c, f);
    StageThenBoot(s1, Resetting(None, f), ResetOf(n), n, baked);
    var s2 := Exec(s1, [Plainly(Resetting(None, f)), Plainly(PowerOff), Plainly(Boot(n, NO_FAULTS))]);
    ReplacesGives(s1.disk, s2.disk, n, BASELINE);
    ReplacedIsKept(s1.disk, s2.disk, n, BASELINE);
  }

  lemma NumberStages(s: State, n: string, k: string, c: string, f: CliFaults)
    requires s.session.Up? && ValidName(n) && Sound(s.disk) && k in s.disk.subvols && CkptOf(k, n) && !f.write
    requires Record(s) == Some(Booted(n, PERSISTENT, "@" + n, c, "@" + n, false))
    ensures Trail(s, RollingBack(Pad(SeqOf(k), 1), f)) == StageRun(s.disk, RollbackTo(k), false).trail
  {
    hide ValidName, StageRun, RollbackTo, Record, Find, Sound, SeqOf, MatchCkpt;
    SlateCkptsAreFound(s.disk, k, n, "");
  }

  // A rollback by a bare number is of the slate that runs.
  lemma RollbackByNumber(s: State, n: string, k: string, f: CliFaults, baked: Files)
    requires Inv(s, baked) && s.session.Off? && ValidName(n) && n in s.disk.entries && !f.write
    requires var s1 := Next(s, Plainly(Boot(n, NO_FAULTS))); k in s1.disk.subvols && CkptOf(k, n)
    ensures var s1 := Next(s, Plainly(Boot(n, NO_FAULTS)));
            var s2 := Exec(s1, RollbackAndBoot(Pad(SeqOf(k), 1), f, n));
      && BASELINE in s1.disk.subvols
      && s2.session.Up? && s2.session.root == "@" + n && Replaces(s1.disk, s2.disk, n, k)
  {
    hide Inv, ValidName, CkptOf, SeqOf, Replaces, Exec, StageRun, Trail, ValidSubvol, RollbackTo, Next, Record;
    var s1 := Next(s, Plainly(Boot(n, NO_FAULTS)));
    var c := SlateBootRecorded(s, n, baked);
    NextKeeps(s, Plainly(Boot(n, NO_FAULTS)), n, baked);
    InvParts(s1, baked);
    CkptIsSource(s1.disk, k, n);
    NumberStages(s1, n, k, c, f);
    StageThenBoot(s1, RollingBack(Pad(SeqOf(k), 1), f), RollbackTo(k), n, baked);
  }

  // The checkpoint command succeeds exactly for a slate that exists and has nothing nested in it
  // that was found, unless an incomplete one is allowed.
  lemma CheckpointSucceeds(d: Disk, n: string, message: string, allow: bool, f: CliFaults)
    requires Sound(d)
    ensures CheckpointRun(d, n, message, allow, f).error == None
       <==> ValidName(n) && "@" + n in d.subvols && !f.snapshot
            && (allow || "@" + n in f.deletes.noList || Nested(d, "@" + n) == {})
    ensures CheckpointRun(d, n, message, allow, f).error.Some? ==> CheckpointRun(d, n, message, allow, f).trail == []
  {
    hide Sound, ValidName, MaxSeq, CkptName, NestedPaths, HookCkpt;
    if ValidName(n) {
      NestedPathsEmpty(d, n);
      NextIsFree(d, n);
    }
  }

  // On a slate's boot it takes a kept checkpoint of that slate under the next number.
  lemma CheckpointOfRunning(s: State, n: string, message: string, allow: bool, f: CliFaults, baked: Files)
    requires Inv(s, baked) && s.session.Off? && ValidName(n) && n in s.disk.entries
    ensures var s1 := Next(s, Plainly(Boot(n, NO_FAULTS)));
            var r := CheckpointCommand(s1.disk, Record(s1), message, allow, f);
            var s2 := Next(s1, Plainly(Checkpointing(message, allow, f)));
            var k := CkptName(n, MaxSeq(s1.disk, n) + 1, KEEP);
      && "@" + n in s1.disk.subvols
      && (r.error == None <==> !f.snapshot && (allow || "@" + n in f.deletes.noList || Nested(s1.disk, "@" + n) == {}))
      && (r.error.Some? ==> s2.disk == s1.disk)
      && (r.error == None ==>
            k !in s1.disk.subvols
            && s2.disk == s1.disk.(subvols := s1.disk.subvols[k := Subvol(s1.disk.subvols["@" + n].files, true)]))
  {
    hide Inv, Next, Record, CheckpointRun, ValidName, MaxSeq, CkptName;
    var s1 := Next(s, Plainly(Boot(n, NO_FAULTS)));
    var c := SlateBootRecorded(s, n, baked);
    InvParts(s1, baked);
    CheckpointSucceeds(s1.disk, n, MessageOr(message), allow, f);
    CheckpointStepIs(s1, message, allow, f);
    if CheckpointRun(s1.disk, n, MessageOr(message), allow, f).error == None {
      CheckpointDone(s1.disk, n, MessageOr(message), allow, f);
    }
  }

  lemma CheckpointStepIs(s: State, message: string, allow: bool, f: CliFaults)
    requires s.session.Up?
    ensures Next(s, Plainly(Checkpointing(message, allow, f))).disk
         == End(s.disk, CheckpointCommand(s.disk, Record(s), message, allow, f).trail)
  {
    hide CheckpointCommand, Record;
  }

  // -------------------------------------------------------------------------
  // A fork from a checkpoint
  // -------------------------------------------------------------------------

  lemma RefIsNoKeyword(ref: string)
    requires '.' in ref
    ensures ref != "" && ref != CURRENT && ref != THE_BASELINE
  {
    assert '.' !in CURRENT && '.' !in THE_BASELINE;
  }

  lemma RefFinds(d: Disk, k: string, n: string, ref: string)
    requires Sound(d) && ValidName(n) && k in d.subvols && CkptOf(k, n) && (ref == RefOf(k, n) || ref == k)
    ensures Find(d, ref, "") == Some(k) && '.' in ref
  {
    hide Sound, ValidName, Find, SeqOf, Pad, MatchCkpt;
    SlateCkptsAreFound(d, k, n, "");
    MatchHasDot(k);
    DottedRef(n, Pad(SeqOf(k), 1));
  }

  lemma DottedRef(n: string, digits: string)
    ensures '.' in n + "." + digits
  {
    assert (n + "." + digits)[|n|] == '.';
  }

  lemma ForkOfFound(d: Disk, b: Option<Booted>, name: string, ref: string, k: string, bls: bool, f: CliFaults)
    requires ValidName(name) && "@" + name !in d.subvols && !f.snapshot && k in d.subvols
    requires Find(d, ref, "") == Some(k) && ref != "" && ref != CURRENT && ref != THE_BASELINE
    ensures End(d, ForkRun(d, b, name, ref, bls, f).trail).subvols
         == d.subvols["@" + name := Subvol(d.subvols[k].files, false)]
  {
    hide RewriteEntry, ValidName, Find;
  }

  // A fork from a checkpoint, by its printed reference or its full name, holds exactly what the
  // checkpoint holds.
  lemma ForkOfCheckpoint(s: State, k: string, n: string, ref: string, name: string, bls: bool, f: CliFaults, baked: Files)
    requires Inv(s, baked) && s.session.Up? && ValidName(n) && k in s.disk.subvols && CkptOf(k, n)
    requires ref == n + "." + Pad(SeqOf(k), 1) || ref == k
    requires ValidName(name) && "@" + name !in s.disk.subvols && !f.snapshot
    ensures var s1 := Next(s, Plainly(Forking(name, ref, bls, f)));
            s1.disk.subvols == s.disk.subvols["@" + name := Subvol(s.disk.subvols[k].files, false)]
  {
    hide Inv, Next, Record, ForkRun, ValidName, CkptOf, SeqOf, Find;
    InvParts(s, baked);
    RefFinds(s.disk, k, n, ref);
    RefIsNoKeyword(ref);
    ForkOfFound(s.disk, Record(s), name, ref, k, bls, f);
    ForkStepIs(s, name, ref, bls, f);
  }

  // And boots it, if nothing is staged for its name then or later.
  lemma ForkOfCheckpointBoots(s: State, k: string, n: string, ref: string, name: string, f: CliFaults, steps: seq<Step>,
                              baked: Files)
    requires Inv(s, baked) && s.session.Up? && ValidName(n) && k in s.disk.subvols && CkptOf(k, n)
    requires ref == n + "." + Pad(SeqOf(k), 1) || ref == k
    requires Forkable(s.disk, name, f) && TEMPLATE in s.disk.entries && StagedSlate(s.disk) != "@" + name
    requires Leaves(Next(s, Plainly(Forking(name, ref, true, f))), steps, name)
    requires NoneStaged(Next(s, Plainly(Forking(name, ref, true, f))), steps, name)
    requires Exec(Next(s, Plainly(Forking(name, ref, true, f))), steps).session.Off?
    ensures var s2 := Exec(Next(s, Plainly(Forking(name, ref, true, f))), steps);
            var s3 := Next(s2, Plainly(Boot(name, NO_FAULTS)));
            s3.session.Up? && s3.session.root == "@" + name && "@" + name in s3.disk.subvols
            && s3.disk.subvols["@" + name].files == s.disk.subvols[k].files
  {
    hide Inv, Next, Record, ForkSource, ValidName, CkptOf, SeqOf, Find, Exec, Leaves, NoneStaged, Forkable, StagedSlate;
    InvParts(s, baked);
    RefFinds(s.disk, k, n, ref);
    RefIsNoKeyword(ref);
    FoundIsSource(s.disk, Record(s), ref, k);
    ForkBootsUnstaged(s, name, ref, f, s.disk.subvols[k].files, steps, baked);
  }

  lemma FoundIsSource(d: Disk, b: Option<Booted>, ref: string, k: string)
    requires Find(d, ref, "") == Some(k) && ref != "" && ref != CURRENT && ref != THE_BASELINE
    ensures ForkSource(d, b, ref) == Ok(k)
  {
    hide Find;
  }

  // -------------------------------------------------------------------------
  // A scratch boot of any basis
  // -------------------------------------------------------------------------

  lemma BasisTaken(d: Disk, b: string)
    ensures ScratchBasis(d, b) == if ValidSubvol(b) && b != RUNTIME && b != HOSTID && b in d.subvols then b else BASELINE
  {
    hide ValidSubvol;
    EmptyIsInvalid();
  }

  lemma EmptyIsInvalid()
    ensures !ValidSubvol("")
  {
  }

  lemma ScratchHook(d: Disk, cmdline: string)
    requires BASELINE in d.subvols && HookArgs(cmdline).subvol == RUNTIME && HookArgs(cmdline).mode != "rescue"
    requires !ScratchRun(d, HookArgs(cmdline).basis, NO_FAULTS).panic
    ensures var b := HookArgs(cmdline).basis;
            var used := ScratchBasis(d, b);
      && HookTrail(d, cmdline, NO_FAULTS) == ScratchRun(d, b, NO_FAULTS).trail
      && HookOutcome(d, cmdline, NO_FAULTS)
         == Mount(RUNTIME, WriteFacts(DisplayName(used), "scratch", used, "", b, {}))
  {
    hide HookArgs, ScratchRun, ScratchBasis, WriteFacts, DisplayName;
    assert RUNTIME != "";
  }

  // A scratch boot copies the basis the command line names exactly if that is a well-formed
  // subvolume that is there and is neither the scratch root nor the host identity, and the
  // baseline if not; the record says which, and that it is not what was asked for just then.
  lemma ScratchBootOfBasis(d: Disk, cmdline: string)
    requires Sound(d) && BASELINE in d.subvols
    requires HookArgs(cmdline).subvol == RUNTIME && HookArgs(cmdline).mode != "rescue"
    ensures var b := HookArgs(cmdline).basis;
            var named := ValidSubvol(b) && b != RUNTIME && b != HOSTID && b in d.subvols;
            var used := if named then b else BASELINE;
            var x := End(d, HookTrail(d, cmdline, NO_FAULTS));
            var o := HookOutcome(d, cmdline, NO_FAULTS);
      && o.Mount? && o.root == RUNTIME && RUNTIME in x.subvols
      && x.subvols[RUNTIME] == Subvol(d.subvols[used].files, false)
      && var r := BootRecord(o.facts, cmdline);
         && r == Some(Booted(DisplayName(used), "scratch", used, "", TrimSpace(b), false))
         && (Tidy(b) ==> (Diverged(r.value) <==> b != "" && !named))
  {
    hide Sound, HookArgs, ScratchRun, ScratchBasis, ValidSubvol, WriteFacts, BootRecord, HookTrail, HookOutcome,
         DisplayName, Tidy, TrimSpace;
    var b := HookArgs(cmdline).basis;
    BasisTaken(d, b);
    ScratchMeetsSpec(d, b);
    ScratchHook(d, cmdline);
    var used := ScratchBasis(d, b);
    ModesAreTidy();
    BasisIsTidy(d, used);
    RecordReads(DisplayName(used), "scratch", used, "", b, cmdline);
    if Tidy(b) {
      TidyTrims(b);
    }
    BaselineIsNamed(d);
  }

  lemma BaselineIsNamed(d: Disk)
    requires BASELINE in d.subvols
    ensures ValidSubvol(BASELINE) && BASELINE != RUNTIME && BASELINE != HOSTID && BASELINE != ""
  {
    BaselineIsSource(TEMPLATE);
    assert BASELINE[1] == 'b' && RUNTIME[1] == 'r' && HOSTID[1] == 'h';
  }

  lemma BasisIsTidy(d: Disk, used: string)
    requires used == BASELINE || (ValidSubvol(used) && used != RUNTIME)
    ensures Tidy(used) && Tidy(DisplayName(used)) && DisplayName(used) != ""
  {
    ModesAreTidy();
    if used != BASELINE {
      ValidSubvolText(used);
      assert DisplayName(used) == used[1..];
      assert used[1..][0] == used[1] && used[1..][|used| - 2] == used[|used| - 1];
    }
  }

  lemma ValidSubvolText(s: string)
    requires ValidSubvol(s)
    ensures |s| >= 2 && s[0] == '@' && "@" <= s && forall i | 0 <= i < |s| :: !GoSpace(s[i])
  {
  }

  // -------------------------------------------------------------------------
  // The record when the slate's name was lost
  // -------------------------------------------------------------------------

  // The command line then gives the mode, and for a scratch boot the scratch root as its basis.
  lemma RecordFromEntry(e: string, text: string, facts: Facts)
    requires EntryOk(e, text) && "slate" !in facts
    ensures BootRecord(facts, CmdlineOf(text))
         == Some(if e == SCRATCH then Booted("scratch", "scratch", RUNTIME, "", "", true)
                 else if e == RESCUE then Booted("baseline", "rescue", BASELINE, "", "", true)
                 else Booted(e, "persistent", "@" + e, "", "", true))
  {
    hide HookArgs, GoodTemplate, CmdlineOf, GoSubvol, ValidName;
    assert BASELINE[1] == 'b' && RUNTIME[1] == 'r';
    if e != SCRATCH && e != RESCUE {
      SlateReads(e);
    }
  }

  // A name without a mode is of a system in no known mode.
  lemma RecordWithoutMode(facts: Facts, cmdline: string)
    requires Fact(facts, "slate") != "" && "mode" !in facts
    ensures var b := BootRecord(facts, cmdline);
            b.Some? && b.value.mode == "unknown" && b.value.name == Fact(facts, "slate") && !b.value.fromCmdline
  {
    hide TrimSpace;
  }

  // -------------------------------------------------------------------------
  // Retention
  // -------------------------------------------------------------------------

  // A boot that prunes leaves, of the automatic checkpoints and the one it takes, the newest ones,
  // as many as are to be retained or all there are, and nothing else goes.
  lemma RetainsNewest(d: Disk, n: string, f: HookFaults)
    requires Sound(d) && ValidName(n) && MaxSeq(d, n) + 1 < 10000 && Deletes(f.deletes)
    requires HookAutoOn(d.config) && AutoTrail(d, "@" + n, f) != []
    ensures var x := End(d, CheckpointTrail(d, "@" + n, f));
            var retain := HookRetain(d.config);
      && |GoAutos(x, n)| == (if |GoAutos(d, n)| + 1 < retain then |GoAutos(d, n)| + 1 else retain)
      && (|GoAutos(d, n)| + 1 <= retain ==> GoAutos(d, n) < GoAutos(x, n))
      && (forall j, k | j in GoAutos(d, n) && j !in x.subvols && k in GoAutos(x, n) :: SeqOf(j) < SeqOf(k))
  {
    hide Sound, AutoName, MaxSeq, MatchCkpt, PruneTrail, HookDrop, SeqOf, AutoTrail, HookRetain, HookAutoOn, GoAutos;
    AutoAdds(d, n, f);
    var c := AutoTrail(d, "@" + n, f);
    var d1, k, retain := c[0], AutoName(d, "@" + n), HookRetain(d.config);
    var drop := HookDrop(d1, "@" + n, retain);
    AllBelow(d1, n);
    NewestSurvive(d1, n, retain);
    PruneClears(d1, n, f.deletes);
    EndConcat(d, c, PruneTrail(d1, "@" + n, f.deletes));
    AutosOneMore(d, d1, n, k);
    AutosLess(d1, n, Elements(drop));
    DropIsAuto(d1, n, retain);
    KeptAllIfFew(d1, n, Elements(drop), retain);
    DroppedIsOlder(d, d1, n, drop);
  }

  lemma AllBelow(d: Disk, n: string)
    requires MaxSeq(d, n) < 10000
    ensures Below10000(d, n)
  {
    hide MaxSeq, MatchCkpt, SeqOf;
    forall k | k in d.subvols && CkptOf(k, n) ensures SeqOf(k) < 10000 {
      SeqAtMostMax(d, n, k);
    }
  }

  lemma AutosOneMore(d: Disk, d1: Disk, n: string, k: string)
    requires ValidName(n) && AutoCkptOf(k, n) && k !in d.subvols && d1.subvols.Keys == d.subvols.Keys + {k}
    ensures GoAutos(d1, n) == GoAutos(d, n) + {k} && |GoAutos(d1, n)| == |GoAutos(d, n)| + 1
  {
    hide MatchCkpt;
    ValidNotEmpty(n);
    assert k !in GoAutos(d, n);
  }

  lemma AutosLess(d: Disk, n: string, gone: set<string>)
    ensures GoAutos(Remove(d, gone), n) == GoAutos(d, n) - gone
  {
    hide MatchCkpt;
  }

  lemma KeptAllIfFew(d: Disk, n: string, gone: set<string>, retain: nat)
    requires gone <= GoAutos(d, n) || forall k | k in gone :: k in d.subvols && AutoCkptOf(k, n)
    requires |GoAutos(d, n) - gone| == if |GoAutos(d, n)| < retain then |GoAutos(d, n)| else retain
    ensures |GoAutos(d, n)| <= retain ==> GoAutos(d, n) - gone == GoAutos(d, n)
  {
    hide GoAutos, AutoCkptOf;
    SameSize(GoAutos(d, n) - gone, GoAutos(d, n));
  }

  lemma SameSize(a: set<string>, b: set<string>)
    requires a <= b
    ensures |a| == |b| ==> a == b
  {
    if a != b {
      var x :| x in b && x !in a;
      assert a <= b - {x};
      FewerIn(a, b - {x});
    }
  }

  lemma FewerIn(a: set<string>, b: set<string>)
    requires a <= b
    ensures |a| <= |b|
  {
    assert b == a + (b - a);
  }

  lemma DroppedIsOlder(d: Disk, d1: Disk, n: string, drop: seq<string>)
    requires forall k | k in d.subvols :: k in d1.subvols
    requires GoAutos(d, n) <= GoAutos(d1, n)
    requires forall x, y | x in drop && y in GoAutos(d1, n) - Elements(drop) :: SeqOf(x) < SeqOf(y)
    ensures var x := Remove(d1, Elements(drop));
            forall j, k | j in GoAutos(d, n) && j !in x.subvols && k in GoAutos(x, n) :: SeqOf(j) < SeqOf(k)
  {
    hide SeqOf, MatchCkpt;
    AutosLess(d1, n, Elements(drop));
  }

  // Without a settings file ten automatic checkpoints are retained.
  lemma TenRetained(d: Disk, n: string, f: HookFaults)
    requires Sound(d) && ValidName(n) && MaxSeq(d, n) + 1 < 10000 && Deletes(f.deletes)
    requires d.config == None && AutoTrail(d, "@" + n, f) != []
    ensures var x := End(d, CheckpointTrail(d, "@" + n, f));
      && |GoAutos(x, n)| == (if |GoAutos(d, n)| < 10 then |GoAutos(d, n)| + 1 else 10)
      && (|GoAutos(d, n)| <= 9 ==> GoAutos(d, n) < GoAutos(x, n))
      && (forall j, k | j in GoAutos(d, n) && j !in x.subvols && k in GoAutos(x, n) :: SeqOf(j) < SeqOf(k))
  {
    hide Sound, MaxSeq, MatchCkpt, CheckpointTrail, SeqOf, AutoTrail, GoAutos;
    RetainsNewest(d, n, f);
  }

  // -------------------------------------------------------------------------
  // Refusals
  // -------------------------------------------------------------------------

  // Why a fork is refused, in this order, each time with the store unchanged.
  lemma ForkRefusals(d: Disk, b: Option<Booted>, name: string, from: string, bls: bool, f: CliFaults)
    ensures var r := ForkRun(d, b, name, from, bls, f);
      && (!ValidName(name) <==> r == Done([], Some(InvalidName)))
      && (ValidName(name) && "@" + name in d.subvols <==> r == Done([], Some(SlateExists)))
      && (r == Done([], Some(NoBootRecord)) <==>
            ValidName(name) && "@" + name !in d.subvols && (from == "" || from == CURRENT) && b == None)
      && (r == Done([], Some(NoSlateRunning)) <==>
            ValidName(name) && "@" + name !in d.subvols && (from == "" || from == CURRENT) && b.Some? && b.value.mode == RESCUE)
      && (r.error.Some? && r.trail != [] ==> bls && r.error == Some(CommandFailed))
      && (f.snapshot ==> r.error.Some? && r.trail == [])
  {
    hide RewriteEntry, ValidName, Find;
  }

  // A name that is neither a keyword, nor a slate's that is there, nor a checkpoint's is refused.
  lemma ForkOfNothing(d: Disk, b: Option<Booted>, name: string, from: string, bls: bool, f: CliFaults)
    requires ValidName(name) && "@" + name !in d.subvols && ValidName(from) && from != CURRENT
    requires "@" + from !in d.subvols && !Numbered(d, from)
    ensures ForkRun(d, b, name, from, bls, f) == Done([], Some(NoSuchSource))
  {
    hide RewriteEntry, ValidName, Find, ForkSource, Numbered;
    var r := ForkSource(d, b, from);
    ForkSourceNamed(d, b, from, r);
    FindByNumber(d, from);
  }

  // Staging: done exactly for a source that is there, and else nothing changes.
  lemma StageSucceeds(d: Disk, p: Pending, fault: bool)
    ensures var r := StageRun(d, p, fault);
      && (r.error == None <==> p.slate != "" && p.source != "" && p.source in d.subvols && !fault)
      && (r.error.Some? ==> r.trail == [])
      && (r.error == None ==> End(d, r.trail) == d.(staged := Some(StagedText(p))))
      && (p.slate != "" && p.source != "" && p.source !in d.subvols ==> r.error == Some(NoSuchSource))
  {
    hide StagedText;
  }

  // A reset is refused for what is no slate's name and for a slate that is not there.
  lemma ResetRefusals(d: Disk, n: string, f: CliFaults)
    requires BASELINE in d.subvols
    ensures var r := ResetRun(d, n, f);
      && (r.error == Some(InvalidName) <==> !ValidName(n))
      && (r.error == Some(NoSuchSlate) <==> ValidName(n) && "@" + n !in d.subvols)
      && (r.error == None <==> ValidName(n) && "@" + n in d.subvols && !f.write)
      && (r.error.Some? ==> r.trail == [])
  {
    hide ValidName, StagedText;
    assert BASELINE != "" && "@" + n != "";
  }

  // A rollback is done exactly for a reference that finds a checkpoint.
  lemma RollbackSucceeds(d: Disk, b: Option<Booted>, ref: string, f: CliFaults)
    requires !f.write
    ensures var r := RollbackRun(d, b, ref, f);
            var c := Find(d, ref, if b.Some? then b.value.name else "");
      && (r.error == None <==> c.Some?)
      && (c == None ==> r == Done([], Some(NoSuchCheckpoint)))
  {
    hide Find, StagedText;
    var name := if b.Some? then b.value.name else "";
    if Find(d, ref, name).Some? {
      FoundIsListed(d, ref, name);
      MatchHasDot(Find(d, ref, name).value);
    }
  }

  // A checkpoint is refused without a record of a slate's boot, for what is no slate's name or not
  // there, and, naming them, for nested subvolumes it would miss.
  lemma CheckpointRefusals(d: Disk, b: Option<Booted>, message: string, allow: bool, f: CliFaults)
    requires Sound(d)
    ensures var r := CheckpointCommand(d, b, message, allow, f);
      && (r.error == Some(NoBootRecord) <==> b == None)
      && (r.error == Some(NoSlateRunning) <==> b.Some? && b.value.mode != PERSISTENT)
      && (b.Some? && b.value.mode == PERSISTENT ==>
            var n := b.value.name;
            && (r.error == Some(InvalidName) <==> !ValidName(n))
            && (r.error == Some(NoSuchSlate) <==> ValidName(n) && "@" + n !in d.subvols)
            && (r.error.Some? && r.error.value.Incomplete? <==>
                  ValidName(n) && !allow && "@" + n in d.subvols && "@" + n !in f.deletes.noList
                  && Nested(d, "@" + n) != {})
            && (r.error.Some? && r.error.value.Incomplete? ==>
                  forall k :: k in r.error.value.paths <==> "@" + n + "/" + k in d.subvols && k != ""))
      && (r.error.Some? ==> r.trail == [])
  {
    hide Sound, ValidName, MaxSeq, CkptName, NestedPaths;
    if b.Some? && ValidName(b.value.name) {
      NestedPathsEmpty(d, b.value.name);
      NestedPathsAre(d, b.value.name);
      TextOrder();
    }
  }

  lemma NestedPathsAre(d: Disk, n: string)
    ensures forall k :: k in NestedPaths(d, n) <==> "@" + n + "/" + k in d.subvols && k != ""
  {
    var p := "@" + n + "/";
    assert |p| == |n| + 2;
    forall k ensures k in NestedPaths(d, n) <==> p + k in d.subvols && k != "" {
      if k in NestedPaths(d, n) {
        var q :| q in d.subvols && Inside(q, "@" + n) && |q| > |n| + 2 && k == q[|n| + 2..];
        assert q == p + k;
      }
      if p + k in d.subvols && k != "" {
        assert Inside(p + k, "@" + n) && (p + k)[|n| + 2..] == k;
      }
    }
  }

  // Why a discard is refused, with the store unchanged.
  lemma DiscardRefusals(d: Disk, b: Option<Booted>, n: string, f: DeleteFaults)
    ensures var r := DiscardRun(d, b, n, f);
      && (!ValidName(n) <==> r == Done([], Some(InvalidName)))
      && (ValidName(n) && "@" + n !in d.subvols <==> r == Done([], Some(NoSuchSlate)))
      && (r == Done([], Some(SlateIsRunning)) <==>
            ValidName(n) && "@" + n in d.subvols && b.Some? && b.value.basis == "@" + n && b.value.mode == PERSISTENT)
  {
    hide ValidName, Listed;
    DeleteListErrors(d, Listed(d, n) + ["@" + n], f);
  }

  lemma {:induction false} DeleteListErrors(d: Disk, ps: seq<string>, f: DeleteFaults)
    ensures var r := DeleteList(d, ps, f); r.error == None || r.error == Some(CommandFailed)
    decreases |ps|
  {
    hide GoDelete;
    if ps != [] {
      DeleteListErrors(End(d, GoDelete(d, ps[0], f)), ps[1..], f);
    }
  }

  // With its entry the discard drops that entry once the slate is gone, and no other.
  lemma DiscardEntry(d: Disk, b: Option<Booted>, n: string, bls: bool, f: CliFaults)
    requires Sound(d)
    ensures var r, x := DiscardCommand(d, b, n, bls, f), End(d, DiscardCommand(d, b, n, bls, f).trail);
      && r.error == DiscardRun(d, b, n, f.deletes).error
      && x.entries == (if r.error == None && bls && !f.entry then d.entries - {n} else d.entries)
  {
    hide Sound, DiscardRun, FamilyShrunk;
    var r := DiscardRun(d, b, n, f.deletes);
    DiscardOnly(d, b, n, f.deletes);
    ShrunkSame(d, End(d, r.trail), n);
  }
}
