/** Boots, rollbacks, resets and forks put together: what a slate holds after them, and that a
    rollback can be rolled back. */
module Reversal {
  import opened Text
  import opened Decimal
  import opened Names
  import opened Staged
  import opened Config
  import opened Entries
  import opened EntryFile
  import opened Store
  import opened Checkpoints
  import opened Pruning
  import opened Hook
  import opened HookSafety
  import opened BootSpec
  import opened Ops
  import opened OpsLaws
  import opened Machine
  import opened Steps
  import opened Runs

  // -------------------------------------------------------------------------
  // Booting without faults
  // -------------------------------------------------------------------------

  function Plainly(e: Event): Step { Step(e, None) }

  lemma StagedNeverSelf(d: Disk, n: string, baked: Files)
    requires DiskOk(d, baked)
    ensures !SelfStaged(d, "@" + n)
  {
    hide Sound, EntriesOk, StagedSlate, StagedSource;
    assert "@" + n != "";
  }

  // From every reachable state every slate's entry boots to the specified files, stale or not and
  // whatever is staged.
  lemma SlateBoots(s: State, n: string, baked: Files)
    requires Inv(s, baked) && s.session.Off? && ValidName(n) && n in s.disk.entries
    ensures var s1 := Next(s, Plainly(Boot(n, NO_FAULTS)));
      && s1.session.Up? && s1.session.root == "@" + n
      && BootsTo(s.disk, s1.disk, n)
  {
    hide Sound, HookArgs, GoodTemplate, CmdlineOf, GoSubvol, PersistentRun, ValidName, BootsTo, CkptFact,
         WriteFacts, SelfStaged, DiskOk;
    var d := s.disk;
    DiskParts(d, baked);
    BootTrailIs(d, n, NO_FAULTS);
    StagedNeverSelf(d, n, baked);
    BootMeetsSpec(d, n);
    SlateOutcome(d, n);
    BootedThere(d, End(d, PersistentRun(d, "@" + n, NO_FAULTS).trail), n);
  }

  lemma BootedThere(d: Disk, x: Disk, n: string)
    requires BASELINE in d.subvols && BootsTo(d, x, n)
    ensures "@" + n in x.subvols
  {
  }

  lemma SlateOutcome(d: Disk, n: string)
    requires EntriesOk(d) && n in d.entries && ValidName(n) && BASELINE in d.subvols
    requires !PersistentRun(d, "@" + n, NO_FAULTS).panic
    ensures var o := HookOutcome(d, CmdlineOf(d.entries[n]), NO_FAULTS);
            o.Mount? && o.root == "@" + n
  {
    hide HookArgs, GoodTemplate, CmdlineOf, GoSubvol, PersistentRun, ValidName, CkptFact, WriteFacts;
    EntryKinds(d, n);
    assert EntryOk(n, d.entries[n]);
    SlateReads(n);
  }

  // What a faultless boot records is that its slate runs.
  lemma SlateRecorded(s: State, n: string, baked: Files)
    requires Inv(s, baked) && s.session.Off? && ValidName(n) && n in s.disk.entries
    ensures var s1 := Next(s, Plainly(Boot(n, NO_FAULTS)));
            Inv(s1, baked) && RunsOn(Record(s1), "@" + n)
  {
    hide Inv, ValidName, Next, BootsTo, RunsOn, BootRecord, GoSubvol, RecordTrue;
    var s1 := Next(s, Plainly(Boot(n, NO_FAULTS)));
    SlateBoots(s, n, baked);
    NextKeeps(s, Plainly(Boot(n, NO_FAULTS)), n, baked);
    FactsWritten(s, n, baked);
    SessionTruth(s1, n, baked);
    RecordTells(s1.session.facts, s1.session.cmdline, n);
  }

  lemma SessionTruth(s: State, n: string, baked: Files)
    requires Inv(s, baked) && ValidName(n) && s.session.Up? && s.session.root == "@" + n
    ensures GoSubvol(s.session.cmdline) == Some("@" + n) && RecordTrue(s.session.facts, n)
  {
    hide DiskOk, GoSubvol, RecordTrue;
    SlateReads(n);
    assert ("@" + n)[1..] == n;
  }

  lemma FactsWritten(s: State, n: string, baked: Files)
    requires Inv(s, baked) && s.session.Off? && ValidName(n) && n in s.disk.entries
    ensures var s1 := Next(s, Plainly(Boot(n, NO_FAULTS)));
            s1.session.Up? && "basis" in s1.session.facts && "mode" in s1.session.facts
  {
    hide Sound, HookArgs, GoodTemplate, CmdlineOf, GoSubvol, PersistentRun, ValidName, BootsTo, SelfStaged, DiskOk,
         HookOutcome, HookTrail;
    var d := s.disk;
    DiskParts(d, baked);
    BootTrailIs(d, n, NO_FAULTS);
    StagedNeverSelf(d, n, baked);
    BootMeetsSpec(d, n);
    FactsOfOutcome(d, n);
    BootedThere(d, End(d, PersistentRun(d, "@" + n, NO_FAULTS).trail), n);
  }

  lemma FactsOfOutcome(d: Disk, n: string)
    requires EntriesOk(d) && n in d.entries && ValidName(n) && BASELINE in d.subvols
    requires !PersistentRun(d, "@" + n, NO_FAULTS).panic
    ensures var o := HookOutcome(d, CmdlineOf(d.entries[n]), NO_FAULTS);
            o.Mount? && o.root == "@" + n && "basis" in o.facts && "mode" in o.facts
  {
    hide HookArgs, GoodTemplate, CmdlineOf, GoSubvol, PersistentRun, PreparedRun, ValidName, CkptFact, WriteFacts;
    EntryKinds(d, n);
    assert EntryOk(n, d.entries[n]);
    SlateReads(n);
    var ckpt := CkptFact(End(d, PreparedRun(d, "@" + n, NO_FAULTS).trail), "@" + n, NO_FAULTS);
    FactsAre(DisplayName("@" + n), "persistent", "@" + n, ckpt, "@" + n, {});
  }

  lemma BaselineBasis(d: Disk)
    requires BASELINE in d.subvols
    ensures ScratchBasis(d, BASELINE) == BASELINE
  {
    hide ValidSubvol;
    BaselineIsSource(TEMPLATE);
    assert BASELINE != "" && BASELINE[1] == 'b' && RUNTIME[1] == 'r' && HOSTID[1] == 'h';
  }

  // The scratch entry boots a fresh copy of the baseline, the rescue entry the baseline itself.
  lemma ModesBoot(s: State, e: string, baked: Files)
    requires Inv(s, baked) && s.session.Off? && (e == SCRATCH || e == RESCUE)
    ensures var s1 := Next(s, Plainly(Boot(e, NO_FAULTS)));
      && s1.session.Up?
      && (e == RESCUE ==> s1.session.root == BASELINE && s1.disk == s.disk)
      && (e == SCRATCH ==>
            s1.session.root == RUNTIME && RUNTIME in s1.disk.subvols
            && s1.disk.subvols[RUNTIME] == Subvol(baked, false))
  {
    hide Sound, HookArgs, GoodTemplate, CmdlineOf, GoSubvol, ScratchRun, WriteFacts, ValidName, ScratchBasis;
    var d := s.disk;
    assert EntryOk(e, d.entries[e]);
    assert SCRATCH != RESCUE && BASELINE != "" && RUNTIME != "";
    BootTrailIs(d, e, NO_FAULTS);
    ScratchMeetsSpec(d, BASELINE);
    BaselineBasis(d);
  }

  // -------------------------------------------------------------------------
  // Staging, then booting
  // -------------------------------------------------------------------------

  // Stage p on a running machine, power off, boot p's slate.
  lemma StageThenBoot(s: State, e: Event, p: Pending, n: string, baked: Files)
    requires Inv(s, baked) && s.session.Up? && ValidName(n) && n in s.disk.entries && Stages(e)
    requires p.slate == "@" + n && Free(p.source, '\n') && p.source in s.disk.subvols && ValidSubvol(p.source)
    requires Trail(s, e) == StageRun(s.disk, p, false).trail
    ensures var s1 := Exec(s, [Plainly(e), Plainly(PowerOff), Plainly(Boot(n, NO_FAULTS))]);
      && Inv(s1, baked) && s1.session.Up? && s1.session.root == "@" + n && Replaces(s.disk, s1.disk, n, p.source)
  {
    hide DiskOk, SessionOk, ValidName, Next, Trail, BootsTo, StagedText, Replaces;
    DiskParts(s.disk, baked);
    var steps := [Plainly(e), Plainly(PowerOff), Plainly(Boot(n, NO_FAULTS))];
    var s1 := Next(s, steps[0]);
    var s2 := Next(s1, steps[1]);
    var s3 := Next(s2, steps[2]);
    ThreeSteps(s, steps);
    RunKeepsInv(s, steps[..2], baked);
    TwoSteps(s, steps);
    RunKeepsInv(s, steps, baked);
    StagedThenOff(s, e, p, n);
    SlateBoots(s2, n, baked);
    StagedBootReplaces(s.disk, s2.disk, s3.disk, p, n);
  }

  lemma ThreeSteps(s: State, steps: seq<Step>)
    requires |steps| == 3
    ensures Exec(s, steps) == Next(Next(Next(s, steps[0]), steps[1]), steps[2])
  {
    hide Next;
    var a, b := steps[1..], steps[1..][1..];
    assert a[0] == steps[1] && b[0] == steps[2] && b[1..] == [];
    var s1 := Next(s, steps[0]);
    var s2 := Next(s1, steps[1]);
    assert Exec(s, steps) == Exec(s1, a) && Exec(s1, a) == Exec(s2, b);
    assert Exec(s2, b) == Exec(Next(s2, steps[2]), []);
  }

  lemma TwoSteps(s: State, steps: seq<Step>)
    requires |steps| >= 2
    ensures Exec(s, steps[..2]) == Next(Next(s, steps[0]), steps[1])
  {
    hide Next;
    var two := steps[..2];
    var a := two[1..];
    assert two[0] == steps[0] && a[0] == steps[1] && a[1..] == [];
    var s1 := Next(s, steps[0]);
    assert Exec(s, two) == Exec(s1, a) && Exec(s1, a) == Exec(Next(s1, steps[1]), []);
  }

  lemma StagedThenOff(s: State, e: Event, p: Pending, n: string)
    requires s.session.Up? && ValidName(n) && Stages(e)
    requires p.slate == "@" + n && p.source in s.disk.subvols && ValidSubvol(p.source)
    requires Trail(s, e) == StageRun(s.disk, p, false).trail
    ensures var s2 := Next(Next(s, Plainly(e)), Plainly(PowerOff));
            s2 == State(s.disk.(staged := Some(StagedText(p))), Off)
  {
    hide ValidName, StagedText, Trail, ValidSubvol;
    SourceNotEmpty(p.source);
    assert Trail(s, e)[1] == s.disk.(staged := Some(StagedText(p)));
    NoTrail(Next(s, Plainly(e)));
  }

  lemma NoTrail(s: State)
    ensures Trail(s, PowerOff) == []
  {
  }

  lemma SourceNotEmpty(source: string)
    requires ValidSubvol(source)
    ensures source != ""
  {
  }

  // What a replacement of n by a source leaves: the source's files with nothing nested, nothing
  // staged, and the files it had before in a new kept checkpoint.
  ghost predicate Replaces(d: Disk, x: Disk, n: string, source: string)
    requires source in d.subvols && BASELINE in d.subvols
  {
    && "@" + n in x.subvols && x.subvols["@" + n].files == d.subvols[source].files
    && Nested(x, "@" + n) == {} && x.staged == None
    && KeptName(d, n) !in d.subvols && KeepCkptOf(KeptName(d, n), n)
    && KeptName(d, n) in x.subvols && x.subvols[KeptName(d, n)].files == OwnFiles(d, "@" + n)
  }

  lemma StagedBootReplaces(d: Disk, y: Disk, x: Disk, p: Pending, n: string)
    requires BASELINE in d.subvols && y == d.(staged := Some(StagedText(p)))
    requires ValidName(n) && p.slate == "@" + n && Free(p.source, '\n')
    requires p.source in d.subvols && ValidSubvol(p.source) && BootsTo(y, x, n)
    ensures Replaces(d, x, n, p.source)
  {
    hide ValidName, StagedText, ValidSubvol, MatchCkpt, CkptName, StagedSlate, StagedSource;
    ValidNameIsValidSubvol(n);
    StagedReads(y, p);
    assert Applies(y, "@" + n);
    assert Seqs(y, n) == Seqs(d, n);
  }

  // -------------------------------------------------------------------------
  // Rollback
  // -------------------------------------------------------------------------

  function RefOf(k: string, n: string): string { n + "." + Pad(SeqOf(k), 1) }

  // Roll slate n back, reboot.
  function RollbackAndBoot(ref: string, f: CliFaults, n: string): seq<Step> {
    [Plainly(RollingBack(ref, f)), Plainly(PowerOff), Plainly(Boot(n, NO_FAULTS))]
  }

  lemma CkptIsSource(d: Disk, k: string, n: string)
    requires Sound(d) && ValidName(n) && k in d.subvols && CkptOf(k, n)
    ensures var p := RollbackTo(k);
            p.slate == "@" + n && p.source == k && Free(k, '\n') && ValidSubvol(k)
  {
    hide Sound, Ref, ValidSubvol, CkptName;
    CkptIsCanonical(d, k, n);
    CkptIsValidSubvol(n, SeqOf(k), MatchCkpt(k).value.class_);
    MatchSound(k);
    CkptText(k, MatchCkpt(k).value);
  }

  lemma RollbackStages(s: State, ref: string, f: CliFaults, k: string)
    requires s.session.Up? && !f.write
    requires forall name :: Find(s.disk, ref, name) == Some(k)
    ensures Trail(s, RollingBack(ref, f)) == StageRun(s.disk, RollbackTo(k), false).trail
  {
    hide Find, Record, StageRun, RollbackTo;
  }

  // After a rollback to k and a faultless boot the slate holds what k holds, and what it held
  // before is in a new kept checkpoint.
  lemma RollbackRestores(s: State, k: string, n: string, f: CliFaults, baked: Files)
    requires Inv(s, baked) && s.session.Up? && ValidName(n) && n in s.disk.entries && !f.write
    requires k in s.disk.subvols && CkptOf(k, n)
    ensures var s1 := Exec(s, RollbackAndBoot(RefOf(k, n), f, n));
      && Inv(s1, baked) && s1.session.Up? && s1.session.root == "@" + n && Replaces(s.disk, s1.disk, n, k)
  {
    hide DiskOk, SessionOk, ValidName, CkptOf, Find, SeqOf, Replaces, Exec, StageRun, Trail, ValidSubvol, RollbackTo;
    DiskParts(s.disk, baked);
    CkptIsSource(s.disk, k, n);
    forall name ensures Find(s.disk, RefOf(k, n), name) == Some(k) {
      SlateCkptsAreFound(s.disk, k, n, name);
    }
    RollbackStages(s, RefOf(k, n), f, k);
    StageThenBoot(s, RollingBack(RefOf(k, n), f), RollbackTo(k), n, baked);
  }

  lemma ReplacesGives(d: Disk, x: Disk, n: string, source: string)
    requires source in d.subvols && BASELINE in d.subvols && Replaces(d, x, n, source)
    ensures "@" + n in x.subvols && x.subvols["@" + n].files == d.subvols[source].files
    ensures Nested(x, "@" + n) == {}
    ensures KeepCkptOf(KeptName(d, n), n) && KeptName(d, n) in x.subvols
    ensures x.subvols[KeptName(d, n)].files == OwnFiles(d, "@" + n)
  {
  }

  // However much later, unless the slate is discarded, a kept checkpoint is there to roll back to
  // and gives exactly what it held.
  lemma KeptRollsBack(s: State, steps: seq<Step>, k: string, n: string, g: CliFaults, baked: Files)
    requires Inv(s, baked) && ValidName(n) && n in s.disk.entries && NoDiscard(s, steps, n) && !g.write
    requires k in s.disk.subvols && KeepCkptOf(k, n) && Exec(s, steps).session.Up?
    ensures var s3 := Exec(Exec(s, steps), RollbackAndBoot(RefOf(k, n), g, n));
      && s3.session.Up? && s3.session.root == "@" + n
      && "@" + n in s3.disk.subvols && s3.disk.subvols["@" + n].files == s.disk.subvols[k].files
  {
    hide Inv, ValidName, CkptOf, RefOf, Replaces, Exec, NoDiscard, RollbackAndBoot;
    KeptCkptsStay(s, steps, n, baked);
    RunKeepsInv(s, steps, baked);
    var s2 := Exec(s, steps);
    InvParts(s2, baked);
    RollbackRestores(s2, k, n, g, baked);
    ReplacesGives(s2.disk, Exec(s2, RollbackAndBoot(RefOf(k, n), g, n)).disk, n, k);
  }

  // A rollback can be rolled back: after any later boots, writes, commands and power losses that
  // do not discard the slate, rolling back to the checkpoint the first rollback took gives
  // exactly what the slate held before it.
  lemma RollbackIsReversible(s: State, k: string, n: string, f: CliFaults, g: CliFaults, steps: seq<Step>, baked: Files)
    requires Inv(s, baked) && s.session.Up? && ValidName(n) && n in s.disk.entries && !f.write && !g.write
    requires k in s.disk.subvols && CkptOf(k, n)
    requires NoDiscard(Exec(s, RollbackAndBoot(RefOf(k, n), f, n)), steps, n)
    ensures var s1 := Exec(s, RollbackAndBoot(RefOf(k, n), f, n));
            var s2 := Exec(s1, steps);
            var pre := KeptName(s.disk, n);
            "@" + n in s1.disk.subvols && s1.disk.subvols["@" + n].files == s.disk.subvols[k].files
            && (s2.session.Up? ==>
                  var s3 := Exec(s2, RollbackAndBoot(RefOf(pre, n), g, n));
                  s3.session.Up? && s3.session.root == "@" + n
                  && "@" + n in s3.disk.subvols && s3.disk.subvols["@" + n].files == OwnFiles(s.disk, "@" + n))
  {
    hide Inv, ValidName, CkptOf, KeepCkptOf, RefOf, Replaces, Exec, OwnFiles, NoDiscard, KeptName, RollbackAndBoot;
    InvParts(s, baked);
    RollbackRestores(s, k, n, f, baked);
    var s1 := Exec(s, RollbackAndBoot(RefOf(k, n), f, n));
    ReplacesGives(s.disk, s1.disk, n, k);
    EntryKept(s, RefOf(k, n), f, n, baked);
    if Exec(s1, steps).session.Up? {
      KeptRollsBack(s1, steps, KeptName(s.disk, n), n, g, baked);
    }
  }

  lemma InvParts(s: State, baked: Files)
    requires Inv(s, baked)
    ensures Sound(s.disk) && EntriesOk(s.disk) && BASELINE in s.disk.subvols
    ensures s.disk.subvols[BASELINE] == Subvol(baked, true)
  {
  }

  lemma EntryKept(s: State, ref: string, f: CliFaults, n: string, baked: Files)
    requires Inv(s, baked) && ValidName(n) && n in s.disk.entries
    ensures n in Exec(s, RollbackAndBoot(ref, f, n)).disk.entries
  {
    hide Inv, ValidName, Exec;
    NeverNamed(s, RollbackAndBoot(ref, f, n), n);
    KeptCkptsStay(s, RollbackAndBoot(ref, f, n), n, baked);
  }

  // -------------------------------------------------------------------------
  // Reset
  // -------------------------------------------------------------------------

  lemma BaselineIsSource(n: string)
    ensures Free(BASELINE, '\n') && ValidSubvol(BASELINE)
    ensures ResetOf(n).slate == "@" + n && ResetOf(n).source == BASELINE
  {
    var b := BASELINE;
    assert |b| == 9 && b[0] == '@' && forall i | 1 <= i < 9 :: NameChar(b[i]);
  }

  // A reset and a faultless boot give exactly the baked content, whatever ran before.
  lemma ResetGivesBaseline(s: State, n: string, f: CliFaults, baked: Files)
    requires Inv(s, baked) && s.session.Up? && ValidName(n) && n in s.disk.entries && !f.write
    requires "@" + n in s.disk.subvols
    ensures var s1 := Exec(s, [Plainly(Resetting(Some(n), f)), Plainly(PowerOff), Plainly(Boot(n, NO_FAULTS))]);
      && s1.session.Up? && s1.session.root == "@" + n
      && "@" + n in s1.disk.subvols && s1.disk.subvols["@" + n].files == baked
      && KeptIn(s1.disk, n, s.disk.subvols["@" + n].files)
  {
    hide Inv, ValidName, ResetOf, Exec, ValidSubvol, KeepCkptOf, KeptName, KeptIn, Replaces, Trail, StageRun;
    InvParts(s, baked);
    BaselineIsSource(n);
    ResetStages(s, n, f);
    StageThenBoot(s, Resetting(Some(n), f), ResetOf(n), n, baked);
    var s1 := Exec(s, [Plainly(Resetting(Some(n), f)), Plainly(PowerOff), Plainly(Boot(n, NO_FAULTS))]);
    ReplacesGives(s.disk, s1.disk, n, BASELINE);
    ReplacedIsKept(s.disk, s1.disk, n, BASELINE);
  }

  lemma ResetStages(s: State, n: string, f: CliFaults)
    requires s.session.Up? && ValidName(n) && "@" + n in s.disk.subvols && !f.write
    ensures Trail(s, Resetting(Some(n), f)) == StageRun(s.disk, ResetOf(n), false).trail
  {
    hide ValidName, StageRun, ResetOf, Record;
  }

  lemma ReplacedIsKept(d: Disk, x: Disk, n: string, source: string)
    requires source in d.subvols && BASELINE in d.subvols && Replaces(d, x, n, source)
    ensures KeptIn(x, n, OwnFiles(d, "@" + n))
  {
    hide OwnFiles, KeepCkptOf, KeptName;
  }

  // -------------------------------------------------------------------------
  // Whole trees
  // -------------------------------------------------------------------------

  // A subvolume with all that is nested in it, by path relative to it.
  function WholeTree(d: Disk, p: string): map<string, Files> {
    map r | r in RelativePaths(d, p) :: d.subvols[p + r].files
  }

  function RelativePaths(d: Disk, p: string): (rs: set<string>)
    ensures forall r | r in rs :: p + r in d.subvols
  {
    RelativeExact(d, p);
    set k | k in Tree(d, p) :: k[|p|..]
  }

  lemma RelativeExact(d: Disk, p: string)
    ensures forall k | k in Tree(d, p) :: p + k[|p|..] == k
  {
  }

  lemma TreeAlone(d: Disk, p: string)
    requires p in d.subvols
    ensures WholeTree(d, p) == map["" := d.subvols[p].files] <==> Nested(d, p) == {}
  {
    var one: map<string, Files> := map["" := d.subvols[p].files];
    assert p in Tree(d, p) && p[|p|..] == "" && p + "" == p;
    if Nested(d, p) == {} {
      assert Tree(d, p) == {p};
      assert RelativePaths(d, p) == {""};
      assert WholeTree(d, p) == one;
    } else {
      var k :| k in Nested(d, p);
      assert k in Tree(d, p) && k[|p|..] in RelativePaths(d, p);
      assert |k[|p|..]| >= 1;
      assert k[|p|..] in WholeTree(d, p) && k[|p|..] !in one;
    }
  }

  // Rolling back to a checkpoint of slate n taken when the store was d restores the slate's whole
  // tree exactly when nothing was nested in it then; otherwise just the nested parts are missing.
  lemma RollbackRestoresTree(d: Disk, s: State, k: string, n: string, f: CliFaults, baked: Files)
    requires Inv(s, baked) && s.session.Up? && ValidName(n) && n in s.disk.entries && !f.write
    requires k in s.disk.subvols && CkptOf(k, n)
    requires "@" + n in d.subvols && d.subvols["@" + n].files == s.disk.subvols[k].files
    ensures var x := Exec(s, RollbackAndBoot(RefOf(k, n), f, n)).disk;
      && WholeTree(x, "@" + n) == map["" := d.subvols["@" + n].files]
      && (WholeTree(x, "@" + n) == WholeTree(d, "@" + n) <==> Nested(d, "@" + n) == {})
  {
    hide Inv, ValidName, CkptOf, Exec, Replaces, WholeTree;
    InvParts(s, baked);
    RollbackRestores(s, k, n, f, baked);
    var x := Exec(s, RollbackAndBoot(RefOf(k, n), f, n)).disk;
    ReplacesGives(s.disk, x, n, k);
    TreeAlone(x, "@" + n);
    TreeAlone(d, "@" + n);
  }

  lemma NestedIsLonger(d: Disk, n: string, k: string)
    requires Sound(d) && ValidName(n) && k in Nested(d, "@" + n)
    ensures |k| > |n| + 2
  {
    hide MatchCkpt, ValidName, SlatePath, CkptPath;
    assert StorePath(k);
    ValidIsPlain(n);
    TopUnique(k, "@" + n);
    InsideHasSlash(k, "@" + n);
  }

  lemma NestedPathsEmpty(d: Disk, n: string)
    requires Sound(d) && ValidName(n)
    ensures NestedPaths(d, n) == {} <==> Nested(d, "@" + n) == {}
  {
    hide Sound, ValidName;
    forall k | k in Nested(d, "@" + n) ensures |k| > |n| + 2 {
      NestedIsLonger(d, n, k);
    }
    assert forall k | k in d.subvols && Inside(k, "@" + n) :: k in Nested(d, "@" + n);
    if Nested(d, "@" + n) != {} {
      var k :| k in Nested(d, "@" + n);
      assert k[|n| + 2..] in NestedPaths(d, n);
    }
  }

  // A checkpoint taken without allowing an incomplete one, after an enumeration that succeeded,
  // exists only if nothing is nested in the slate, and holds the slate's files.
  lemma CheckpointIsComplete(d: Disk, n: string, message: string, f: CliFaults)
    requires Sound(d) && ValidName(n) && "@" + n !in f.deletes.noList
    ensures var r := CheckpointRun(d, n, message, false, f);
      && (r.error == None ==>
            && Nested(d, "@" + n) == {} && "@" + n in d.subvols
            && var k := CkptName(n, MaxSeq(d, n) + 1, if message == "" then AUTO else KEEP);
               k !in d.subvols && k in End(d, r.trail).subvols
               && End(d, r.trail).subvols[k] == Subvol(d.subvols["@" + n].files, true))
      && (Nested(d, "@" + n) != {} ==>
            r.error.Some? && ("@" + n in d.subvols ==> r.error.value.Incomplete?))
  {
    hide Sound, ValidName, MaxSeq, CkptName, NestedPaths;
    NestedPathsEmpty(d, n);
  }

  // What a checkpoint command that succeeds leaves.
  lemma CheckpointMakes(s: State, n: string, message: string, allow: bool, f: CliFaults, baked: Files)
    requires Inv(s, baked) && s.session.Up? && Record(s).Some? && Record(s).value.name == n
    requires CheckpointCommand(s.disk, Record(s), message, allow, f).error == None
    ensures var s1, k := Next(s, Plainly(Checkpointing(message, allow, f))), KeptName(s.disk, n);
      && ValidName(n) && s1.session == s.session && "@" + n in s.disk.subvols && KeepCkptOf(k, n)
      && s1.disk == s.disk.(subvols := s.disk.subvols[k := Subvol(s.disk.subvols["@" + n].files, true)])
      && (!allow && "@" + n !in f.deletes.noList ==> Nested(s.disk, "@" + n) == {})
  {
    hide Inv, Record, ValidName, MaxSeq, CkptName, MatchCkpt, CheckpointRun;
    InvParts(s, baked);
    CheckpointDone(s.disk, n, MessageOr(message), allow, f);
    CkptPathOf(n, MaxSeq(s.disk, n) + 1, KEEP);
    if !allow && "@" + n !in f.deletes.noList {
      CheckpointIsComplete(s.disk, n, MessageOr(message), f);
    }
  }

  lemma CheckpointDone(d: Disk, n: string, message: string, allow: bool, f: CliFaults)
    requires CheckpointRun(d, n, message, allow, f).error == None && message != ""
    ensures ValidName(n) && CanSnap(d, "@" + n, KeptName(d, n))
    ensures CheckpointRun(d, n, message, allow, f).trail == [Snap(d, "@" + n, KeptName(d, n), true)]
  {
    hide ValidName, MaxSeq, CkptName, NestedPaths;
  }

  // A checkpoint the command takes, rolled back to after any later run without a discard, gives
  // the slate's own files of the time it was taken: its whole tree if nothing was nested in it,
  // which the command made sure of unless an incomplete one was allowed or enumeration failed.
  lemma CheckpointRestoresTree(s: State, n: string, message: string, allow: bool, f: CliFaults, steps: seq<Step>,
                               g: CliFaults, baked: Files)
    requires Inv(s, baked) && s.session.Up? && Record(s).Some? && Record(s).value.name == n && n in s.disk.entries
    requires CheckpointCommand(s.disk, Record(s), message, allow, f).error == None && !g.write
    requires NoDiscard(Next(s, Plainly(Checkpointing(message, allow, f))), steps, n)
    requires Exec(Next(s, Plainly(Checkpointing(message, allow, f))), steps).session.Up?
    ensures var s2 := Exec(Next(s, Plainly(Checkpointing(message, allow, f))), steps);
      var x := Exec(s2, RollbackAndBoot(RefOf(KeptName(s.disk, n), n), g, n)).disk;
      && "@" + n in s.disk.subvols
      && WholeTree(x, "@" + n) == map["" := s.disk.subvols["@" + n].files]
      && (WholeTree(x, "@" + n) == WholeTree(s.disk, "@" + n) <==> Nested(s.disk, "@" + n) == {})
      && (!allow && "@" + n !in f.deletes.noList ==> WholeTree(x, "@" + n) == WholeTree(s.disk, "@" + n))
  {
    hide Inv, Record, ValidName, KeepCkptOf, CkptOf, Next, Exec, KeptName, NoDiscard, RefOf, RollbackAndBoot, WholeTree,
         CheckpointCommand;
    var step := Plainly(Checkpointing(message, allow, f));
    var s1, k := Next(s, step), KeptName(s.disk, n);
    CheckpointMakes(s, n, message, allow, f, baked);
    NextKeeps(s, step, n, baked);
    KeptCkptsStay(s1, steps, n, baked);
    RunKeepsInv(s1, steps, baked);
    KeepIsCkpt(k, n);
    RollbackRestoresTree(s.disk, Exec(s1, steps), k, n, g, baked);
  }

  lemma KeepIsCkpt(k: string, n: string)
    requires KeepCkptOf(k, n)
    ensures CkptOf(k, n)
  {
  }

  // -------------------------------------------------------------------------
  // A rollback that waits
  // -------------------------------------------------------------------------

  lemma StagedApplies(d: Disk, n: string, c: string)
    requires Sound(d) && ValidName(n) && BASELINE in d.subvols && d.staged.Some?
    requires StagedSlate(d) == "@" + n && StagedSource(d) == c && c in d.subvols && CkptOf(c, n)
    ensures BootFiles(d, "@" + n) == d.subvols[c].files
  {
    hide Sound, ValidSubvol, CkptOf, StagedSlate, StagedSource, ValidName;
    ValidNameIsValidSubvol(n);
    CkptIsSource(d, c, n);
  }

  // A rollback staged to checkpoint c takes effect at the slate's next faultless boot, however many
  // other boots with their prunings, commands and power losses come first.
  lemma StagedRollbackApplies(s: State, steps: seq<Step>, n: string, c: string, baked: Files)
    requires Inv(s, baked) && ValidName(n) && n in s.disk.entries && Waits(s, steps, n) && s.disk.staged.Some?
    requires StagedSlate(s.disk) == "@" + n && StagedSource(s.disk) == c && c in s.disk.subvols && CkptOf(c, n)
    requires Exec(s, steps).session.Off?
    ensures var s1 := Next(Exec(s, steps), Plainly(Boot(n, NO_FAULTS)));
      && s1.session.Up? && s1.session.root == "@" + n
      && "@" + n in s1.disk.subvols && s1.disk.subvols["@" + n].files == s.disk.subvols[c].files
  {
    hide Inv, ValidName, CkptOf, Next, Exec, HookField, BootFiles, KeepsKept;
    var s2 := Exec(s, steps);
    StagedSourceSurvives(s, steps, n, c, baked);
    WaitsIsNoDiscard(s, steps, n);
    KeptCkptsStay(s, steps, n, baked);
    RunKeepsInv(s, steps, baked);
    InvParts(s2, baked);
    StagedApplies(s2.disk, n, c);
    SlateBoots(s2, n, baked);
  }

  // -------------------------------------------------------------------------
  // A replacement that is interrupted
  // -------------------------------------------------------------------------

  // A boot that fails or loses power while the slate is deleted leaves it missing with nothing
  // staged: the next faultless boot gives the baseline's files, and the work is in a kept
  // checkpoint.
  lemma InterruptedReplacement(s: State, f: HookFaults, cut: Option<nat>, n: string, baked: Files)
    requires Inv(s, baked) && s.session.Off? && ValidName(n) && n in s.disk.entries && !f.unlink
    requires "@" + n in s.disk.subvols && "@" + n !in Next(s, Step(Boot(n, f), cut)).disk.subvols
    ensures var s1 := Next(s, Step(Boot(n, f), cut));
            var s2 := Next(s1, Plainly(Boot(n, NO_FAULTS)));
      && s1.session.Off? && s1.disk.staged == None
      && s2.session.Up? && s2.session.root == "@" + n
      && "@" + n in s2.disk.subvols && s2.disk.subvols["@" + n].files == baked
      && KeptIn(s2.disk, n, s.disk.subvols["@" + n].files)
  {
    hide Inv, ValidName, Next, KeptIn, Trail;
    var step := Step(Boot(n, f), cut);
    var s1 := Next(s, step);
    var files := s.disk.subvols["@" + n].files;
    NextKeeps(s, step, n, baked);
    MissingUnstaged(s, f, cut, n, baked);
    InvParts(s1, baked);
    SlateBoots(s1, n, baked);
    NextKeeps(s1, Plainly(Boot(n, NO_FAULTS)), n, baked);
    KeptInOver(s1.disk, Next(s1, Plainly(Boot(n, NO_FAULTS))).disk, n, files);
  }

  lemma MissingUnstaged(s: State, f: HookFaults, cut: Option<nat>, n: string, baked: Files)
    requires Inv(s, baked) && s.session.Off? && ValidName(n) && n in s.disk.entries && !f.unlink
    requires "@" + n in s.disk.subvols && "@" + n !in Next(s, Step(Boot(n, f), cut)).disk.subvols
    ensures Next(s, Step(Boot(n, f), cut)).session.Off? && Next(s, Step(Boot(n, f), cut)).disk.staged == None
  {
    hide Sound, EntryOk, StagedOk, SessionOk, ValidName, PersistentRun, HookTrail, CmdlineOf, UnstagedIfMissing, Next;
    var step := Step(Boot(n, f), cut);
    InvParts(s, baked);
    BootTrailIs(s.disk, n, f);
    UnlinkedBeforeDelete(s.disk, n, f);
    NextDisk(s, step);
    MissingAt(Trail(s, step.event), "@" + n, Next(s, step).disk);
    MissingIsOff(s, step, n, baked);
  }

  lemma MissingAt(t: seq<Disk>, p: string, x: Disk)
    requires UnstagedIfMissing(t, p) && p !in x.subvols && exists i | 0 <= i < |t| :: t[i] == x
    ensures x.staged == None
  {
  }

  lemma MissingIsOff(s: State, step: Step, n: string, baked: Files)
    requires Inv(s, baked) && s.session.Off? && ValidName(n) && n in s.disk.entries && Boots(step.event, n)
    requires "@" + n !in Next(s, step).disk.subvols
    ensures Next(s, step).session.Off?
  {
    hide Sound, StagedOk, SessionOk, ValidName, PersistentRun, PreparedRun, CkptFact, HookTrail, CmdlineOf, HookArgs,
         GoodTemplate, GoSubvol, WriteFacts, ScratchRun;
    EntryKinds(s.disk, n);
    assert EntryOk(n, s.disk.entries[n]);
    SlateReads(n);
  }
}
