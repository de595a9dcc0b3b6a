/** What a boot gives when no command fails: the staged source's files if a replacement applies,
    else the slate's own, else the baseline's. */
module BootSpec {
  import opened Text
  import opened Names
  import opened Staged
  import opened Config
  import opened Entries
  import opened Store
  import opened Sorting
  import opened Checkpoints
  import opened Pruning
  import opened Hook
  import opened HookSafety

  // The files the slate has before anything is replaced.
  function OwnFiles(d: Disk, t: string): Files
    requires BASELINE in d.subvols
  {
    if t in d.subvols then d.subvols[t].files else d.subvols[BASELINE].files
  }

  // The files a boot of t gives.
  function BootFiles(d: Disk, t: string): Files
    requires BASELINE in d.subvols
  {
    if Applies(d, t) then d.subvols[StagedSource(d)].files else OwnFiles(d, t)
  }

  // The staged file asks to replace t by t.
  predicate SelfStaged(d: Disk, t: string) {
    d.staged.Some? && StagedSlate(d) == t && StagedSource(d) == t
  }

  // -------------------------------------------------------------------------
  // The steps without faults
  // -------------------------------------------------------------------------

  function Ensured(d: Disk, t: string): Disk {
    if CanSnap(d, BASELINE, t) then Snap(d, BASELINE, t, false) else d
  }

  lemma EnsureGives(d: Disk, n: string)
    requires Sound(d) && ValidName(n) && BASELINE in d.subvols
    ensures var e := EnsureRun(d, "@" + n, NO_FAULTS);
            !e.panic && End(d, e.trail) == Ensured(d, "@" + n)
    ensures var x := Ensured(d, "@" + n);
            Sound(x) && "@" + n in x.subvols && x.subvols["@" + n].files == OwnFiles(d, "@" + n)
            && MaxSeq(x, n) == MaxSeq(d, n)
  {
    hide Sound, MaxSeq, MatchCkpt, CkptOf;
    EnsureSafe(d, n, NO_FAULTS);
    if CanSnap(d, BASELINE, "@" + n) {
      MakeSafe(d, BASELINE, n);
      SafeIsSound(d, Ensured(d, "@" + n), n, 0);
      ValidIsPlain(n);
      SlateInFamily(n);
      SameSeqs(d, Ensured(d, "@" + n), n);
    }
  }

  lemma SameSeqs(d: Disk, x: Disk, n: string)
    requires forall k | CkptOf(k, n) :: k in d.subvols <==> k in x.subvols
    ensures MaxSeq(x, n) == MaxSeq(d, n)
  {
    assert Seqs(d, n) == Seqs(x, n);
  }

  // The store after a replacement of t from source, the old files kept as pre.
  function Replaced(d: Disk, t: string, source: string, pre: string): Disk
    requires t in d.subvols && source in d.subvols
  {
    var d1 := WithCopy(d, t, pre).(staged := None);
    var d2 := Remove(d1, Tree(d1, t));
    d2.(subvols := d2.subvols[t := Subvol(d.subvols[source].files, false)])
  }

  function WithCopy(d: Disk, t: string, pre: string): Disk
    requires t in d.subvols
  {
    d.(subvols := d.subvols[pre := Subvol(d.subvols[t].files, true)])
  }

  lemma DeleteGives(d: Disk, t: string)
    requires t in d.subvols
    ensures HookDelete(d, t, NO_FAULTS.deletes) == [Remove(d, Tree(d, t))]
    ensures t !in Remove(d, Tree(d, t)).subvols
  {
    assert t in Tree(d, t);
  }

  lemma SourceOutside(d: Disk, t: string, source: string)
    requires t in d.subvols && source in d.subvols && '/' !in source
    ensures source in Remove(d, Tree(d, t)).subvols <==> source != t
    ensures source != t ==> Remove(d, Tree(d, t)).subvols[source] == d.subvols[source]
  {
    InsideHasSlash(source, t);
  }

  lemma ReplaceGives(d: Disk, t: string, source: string)
    requires t in d.subvols && source in d.subvols && '/' !in source
    ensures var r := ReplaceRun(d, t, source, NO_FAULTS);
      && (r.panic <==> source == t)
      && (source != t ==>
            var d2 := Remove(d, Tree(d, t));
            End(d, r.trail) == d2.(subvols := d2.subvols[t := Subvol(d.subvols[source].files, false)]))
  {
    hide HookDelete;
    DeleteGives(d, t);
    SourceOutside(d, t, source);
  }

  lemma KeepAndReplaceGives(d: Disk, n: string, source: string)
    requires Sound(d) && ValidName(n) && "@" + n in d.subvols && source in d.subvols && '/' !in source
    requires d.staged.Some?
    ensures var r := KeepAndReplace(d, "@" + n, source, NO_FAULTS);
      && (r.panic <==> source == "@" + n)
      && (source != "@" + n ==>
            End(d, r.trail) == Replaced(d, "@" + n, source, CkptName(n, MaxSeq(d, n) + 1, KEEP)))
  {
    hide Sound, HookNext, MaxSeq, CkptName, HookCkpt, ReplaceRun, Tree;
    var t := "@" + n;
    NextIsFree(d, n);
    var pre := PreName(d, t);
    var d1 := Snap(d, t, pre, true);
    assert CanSnap(d, t, pre);
    var d2 := d1.(staged := None);
    assert UnlinkTrail(d1, false) == [d2];
    assert source in d2.subvols && d2.subvols[source] == d.subvols[source];
    ReplaceGives(d2, t, source);
    ThreeParts(d, d1, [d2], ReplaceRun(d2, t, source, NO_FAULTS).trail);
  }

  ghost function Applied(d: Disk, n: string): Disk
    requires "@" + n in d.subvols
  {
    var t := "@" + n;
    if d.staged.None? || StagedSlate(d) != t then d
    else if !Applies(d, t) then d.(staged := None)
    else Replaced(d, t, StagedSource(d), KeptName(d, n))
  }

  // The name the kept checkpoint of a replacement gets.
  ghost function KeptName(d: Disk, n: string): string { CkptName(n, MaxSeq(d, n) + 1, KEEP) }

  lemma ApplyGives(d: Disk, n: string)
    requires Sound(d) && ValidName(n) && "@" + n in d.subvols
    ensures var r := ApplyRun(d, "@" + n, NO_FAULTS);
      && (r.panic <==> SelfStaged(d, "@" + n))
      && (!r.panic ==> End(d, r.trail) == Applied(d, n))
  {
    hide Sound, KeepAndReplace, MaxSeq, CkptName, Replaced, StagedSlate, StagedSource;
    ValidNameIsValidSubvol(n);
    if Applies(d, "@" + n) {
      assert '/' !in StagedSource(d);
      KeepAndReplaceGives(d, n, StagedSource(d));
    }
  }

  // What a replacement leaves: the slate anew with nothing nested, its old files in a kept
  // checkpoint, everything outside its tree as it was.
  lemma ReplacedHas(d: Disk, n: string, source: string)
    requires Sound(d) && ValidName(n) && "@" + n in d.subvols && source in d.subvols
    ensures var x := Replaced(d, "@" + n, source, KeptName(d, n));
      && "@" + n in x.subvols && x.subvols["@" + n] == Subvol(d.subvols[source].files, false)
      && Nested(x, "@" + n) == {} && x.staged == None
      && KeptName(d, n) !in d.subvols && KeepCkptOf(KeptName(d, n), n)
      && KeptName(d, n) in x.subvols
      && x.subvols[KeptName(d, n)] == Subvol(d.subvols["@" + n].files, true)
  {
    hide Sound, MaxSeq, CkptName, MatchCkpt;
    NextIsFree(d, n);
    CkptPathOf(n, MaxSeq(d, n) + 1, KEEP);
    ValidIsPlain(n);
    CkptIsNotInTree(KeptName(d, n), n, n);
    assert !Inside("@" + n, "@" + n);
  }

  // After the automatic checkpoint and the pruning only automatic checkpoints differ.
  ghost predicate OnlyAutos(d: Disk, x: Disk, n: string) {
    && x.staged == d.staged && x.config == d.config && x.entries == d.entries
    && (forall k | k in d.subvols && !AutoCkptOf(k, n) :: k in x.subvols && x.subvols[k] == d.subvols[k])
    && (forall k | k in x.subvols && !AutoCkptOf(k, n) :: k in d.subvols)
  }

  lemma AutoOnly(d: Disk, n: string, f: HookFaults)
    requires Sound(d) && ValidName(n)
    ensures OnlyAutos(d, End(d, AutoTrail(d, "@" + n, f)), n)
  {
    hide Sound, MaxSeq, CkptName, MatchCkpt, HookNext, HookCkpt;
    NextIsFree(d, n);
    CkptPathOf(n, MaxSeq(d, n) + 1, AUTO);
  }

  lemma PruneOnly(d: Disk, n: string, f: DeleteFaults)
    requires Sound(d) && ValidName(n)
    ensures OnlyAutos(d, End(d, PruneTrail(d, "@" + n, f)), n)
  {
    hide Sound, PruneTrail, HookDrop, MatchCkpt, HookRetain;
    PruneSafe(d, n, f);
  }

  lemma CheckpointOnly(d: Disk, n: string, f: HookFaults)
    requires Sound(d) && ValidName(n)
    ensures OnlyAutos(d, End(d, CheckpointTrail(d, "@" + n, f)), n)
  {
    hide Sound, PruneTrail, AutoTrail, HookAutoOn, AutoCkptOf;
    var c := AutoTrail(d, "@" + n, f);
    AutoOnly(d, n, f);
    AutoSafe(d, n, f);
    EndSafe(d, c, n, AutoTaken(f));
    PruneOnly(End(d, c), n, f.deletes);
    EndConcat(d, c, PruneTrail(End(d, c), "@" + n, f.deletes));
  }

  // -------------------------------------------------------------------------
  // The specification
  // -------------------------------------------------------------------------

  lemma PreparedGives(d: Disk, n: string)
    requires Sound(d) && ValidName(n) && BASELINE in d.subvols
    ensures var r := PreparedRun(d, "@" + n, NO_FAULTS);
      && (r.panic <==> SelfStaged(d, "@" + n))
      && Sound(End(d, r.trail))
      && (!r.panic ==> End(d, r.trail) == Applied(Ensured(d, "@" + n), n))
  {
    hide Sound, EnsureRun, ApplyRun, Applied, Ensured, MaxSeq, StagedSlate, StagedSource;
    var e := EnsureRun(d, "@" + n, NO_FAULTS);
    var d1 := Ensured(d, "@" + n);
    EnsureGives(d, n);
    EnsuredStaged(d, n);
    ApplyGives(d1, n);
    EndConcat(d, e.trail, ApplyRun(d1, "@" + n, NO_FAULTS).trail);
    PreparedSafe(d, n, NO_FAULTS);
    EndSafe(d, PreparedRun(d, "@" + n, NO_FAULTS).trail, n, PreparedTaken(d, n, NO_FAULTS));
  }

  lemma EnsuredStaged(d: Disk, n: string)
    ensures var x := Ensured(d, "@" + n);
      && x.staged == d.staged && StagedSlate(x) == StagedSlate(d) && StagedSource(x) == StagedSource(d)
      && (SelfStaged(x, "@" + n) <==> SelfStaged(d, "@" + n))
      && x.config == d.config && x.entries == d.entries
  {
  }

  // What a faultless boot of n leaves.
  ghost predicate BootsTo(d: Disk, x: Disk, n: string)
    requires BASELINE in d.subvols
  {
    var t := "@" + n;
    && t in x.subvols && x.subvols[t].files == BootFiles(d, t)
    && x.staged == (if d.staged.Some? && StagedSlate(d) == t then None else d.staged)
    && (Applies(d, t) ==>
          && Nested(x, t) == {} && KeptName(d, n) !in d.subvols
          && KeptName(d, n) in x.subvols && KeepCkptOf(KeptName(d, n), n)
          && x.subvols[KeptName(d, n)].files == OwnFiles(d, t))
  }

  lemma AppliedGives(d: Disk, n: string)
    requires Sound(d) && ValidName(n) && BASELINE in d.subvols && !SelfStaged(d, "@" + n)
    requires "@" + n in Ensured(d, "@" + n).subvols && Sound(Ensured(d, "@" + n))
    ensures BootsTo(d, Applied(Ensured(d, "@" + n), n), n)
  {
    hide Sound, MaxSeq, CkptName, MatchCkpt, KeepCkptOf, ValidSubvol, Replaced, StagedSlate, StagedSource;
    var t, x := "@" + n, Ensured(d, "@" + n);
    EnsureGives(d, n);
    EnsuredStaged(d, n);
    assert KeptName(x, n) == KeptName(d, n);
    assert Applies(x, t) ==> StagedSource(x) in x.subvols;
    assert Applies(x, t) <==> Applies(d, t);
    if Applies(x, t) {
      ReplacedHas(x, n, StagedSource(x));
    }
  }

  lemma StillBootsTo(d: Disk, y: Disk, x: Disk, n: string)
    requires BASELINE in d.subvols && ValidName(n) && BootsTo(d, y, n) && OnlyAutos(y, x, n)
    ensures BootsTo(d, x, n)
  {
    hide MaxSeq, CkptName, MatchCkpt, BootFiles, OwnFiles, Applies, StagedSlate;
    ValidIsPlain(n);
    SlateInFamily(n);
    assert AUTO[0] != KEEP[0];
    forall k | Inside(k, "@" + n) ensures !CkptOf(k, n) {
      if CkptOf(k, n) {
        CkptIsNotInTree(k, n, n);
      }
    }
    assert Nested(x, "@" + n) <= Nested(y, "@" + n);
  }

  // With the baseline present and no faults a boot of n panics exactly when the staged file asks
  // to replace n by itself; otherwise it gives the specified files, whatever else is staged.
  lemma BootMeetsSpec(d: Disk, n: string)
    requires Sound(d) && ValidName(n) && BASELINE in d.subvols
    ensures var r := PersistentRun(d, "@" + n, NO_FAULTS);
      && (r.panic <==> SelfStaged(d, "@" + n))
      && (!r.panic ==> BootsTo(d, End(d, r.trail), n))
  {
    hide Sound, PreparedRun, CheckpointTrail, ValidSubvol, BootsTo, SelfStaged, Applied, Ensured;
    var p := PreparedRun(d, "@" + n, NO_FAULTS);
    ValidNameIsValidSubvol(n);
    PreparedGives(d, n);
    if !p.panic {
      var y := End(d, p.trail);
      EnsureGives(d, n);
      AppliedGives(d, n);
      CheckpointOnly(y, n, NO_FAULTS);
      EndConcat(d, p.trail, CheckpointTrail(y, "@" + n, NO_FAULTS));
      StillBootsTo(d, y, End(y, CheckpointTrail(y, "@" + n, NO_FAULTS)), n);
    }
  }

  lemma BasisOutside(d: Disk, basis: string)
    requires BASELINE in d.subvols
    ensures var b := ScratchBasis(d, basis);
            b in d.subvols && b != RUNTIME && '/' !in b
  {
    hide ValidSubvol;
    assert '/' !in BASELINE && BASELINE != RUNTIME;
    var b := if basis == "" then BASELINE else basis;
    assert ValidSubvol(b) ==> '/' !in b by {
      ValidHasNoSlash(b);
    }
  }

  lemma ValidHasNoSlash(s: string)
    ensures ValidSubvol(s) ==> '/' !in s
  {
  }

  // Without faults a scratch boot never panics and gives a copy of its basis.
  lemma ScratchMeetsSpec(d: Disk, basis: string)
    requires BASELINE in d.subvols
    ensures var r := ScratchRun(d, basis, NO_FAULTS);
      && !r.panic
      && var x := End(d, r.trail);
         RUNTIME in x.subvols && (RUNTIME in d.subvols ==> Nested(x, RUNTIME) == {})
         && x.subvols[RUNTIME] == Subvol(d.subvols[ScratchBasis(d, basis)].files, false)
  {
    hide ScratchBasis, HookDelete;
    BasisOutside(d, basis);
    var b := ScratchBasis(d, basis);
    if RUNTIME in d.subvols {
      DeleteGives(d, RUNTIME);
      SourceOutside(d, RUNTIME, b);
    }
  }

  // A staged file that names one slate as both slate and source: the boot panics after deleting
  // the slate, whose files are then only in the kept checkpoint.
  lemma SelfStagedPanics(d: Disk, n: string, reason: string)
    requires Sound(d) && ValidName(n) && BASELINE in d.subvols
    requires d.staged == Some(StagedText(Pending("@" + n, "@" + n, reason)))
    ensures PersistentRun(d, "@" + n, NO_FAULTS).panic
  {
    hide Sound, PersistentRun, HookField, StagedText, OneLine;
    ValidNameIsValidSubvol(n);
    StagedRoundTrip(Pending("@" + n, "@" + n, reason));
    BootMeetsSpec(d, n);
  }

  lemma AutosWith(d: Disk, n: string, k: string, s: Subvol)
    requires AutoCkptOf(k, n) && n != "" && k !in d.subvols && GoAutos(d, n) == {}
    ensures GoAutos(d.(subvols := d.subvols[k := s]), n) == {k}
  {
    hide MatchCkpt;
    forall j | j in d.subvols ensures !AutoCkptOf(j, n) {
      assert j !in GoAutos(d, n);
    }
  }

  // -------------------------------------------------------------------------
  // The first boot of a slate
  // -------------------------------------------------------------------------

  lemma FewAutosStay(d: Disk, t: string, f: DeleteFaults)
    requires |HookAutos(d, t)| <= HookRetain(d.config)
    ensures PruneTrail(d, t, f) == []
  {
    hide AutoGlob, HookRetain;
    TextOrder();
  }

  // A slate that does not exist yet is made from the baseline and checkpointed under number 1.
  lemma FirstBootOfSlate(d: Disk, n: string)
    requires Sound(d) && ValidName(n) && BASELINE in d.subvols && "@" + n !in d.subvols && d.staged == None
    requires HookAutoOn(d.config) && HookRetain(d.config) >= 1
    requires forall k | k in d.subvols :: !CkptOf(k, n)
    ensures var files := d.subvols[BASELINE].files;
            End(d, PersistentRun(d, "@" + n, NO_FAULTS).trail)
            == d.(subvols := d.subvols["@" + n := Subvol(files, false)]
                                      [CkptName(n, 1, AUTO) := Subvol(files, true)])
  {
    hide Sound, CkptName, HookCkpt, MatchCkpt, ValidName, HookRetain, HookAutoOn, PruneTrail, HookNext, EnsureRun,
         CheckpointTrail, ValidSubvol;
    var t, e, d1 := "@" + n, EnsureRun(d, "@" + n, NO_FAULTS), Ensured(d, "@" + n);
    ValidNameIsValidSubvol(n);
    EnsureGives(d, n);
    assert PreparedRun(d, t, NO_FAULTS) == Run(e.trail + [], false);
    assert e.trail + [] == e.trail;
    assert Seqs(d, n) == {};
    ValidIsPlain(n);
    SlateInFamily(n);
    FirstCheckpoint(d1, n);
    EndConcat(d, e.trail, CheckpointTrail(d1, t, NO_FAULTS));
  }

  lemma FirstCheckpoint(d: Disk, n: string)
    requires Sound(d) && ValidName(n) && "@" + n in d.subvols && MaxSeq(d, n) == 0
    requires HookAutoOn(d.config) && HookRetain(d.config) >= 1
    requires forall k | k in d.subvols :: !CkptOf(k, n)
    ensures End(d, CheckpointTrail(d, "@" + n, NO_FAULTS))
         == d.(subvols := d.subvols[CkptName(n, 1, AUTO) := Subvol(d.subvols["@" + n].files, true)])
  {
    hide Sound, CkptName, HookCkpt, MatchCkpt, ValidName, HookRetain, HookAutoOn, PruneTrail, HookNext, MaxSeq, GoAutos,
         HookAutos;
    var k := CkptName(n, 1, AUTO);
    var s := Subvol(d.subvols["@" + n].files, true);
    NextIsFree(d, n);
    CkptPathOf(n, 1, AUTO);
    ValidNotEmpty(n);
    NoAutos(d, n);
    AutosWith(d, n, k, s);
    CkptAddedSound(d, n, AUTO, s);
    var d1 := d.(subvols := d.subvols[k := s]);
    AutosAgree(d1, n);
    FewAutosStay(d1, "@" + n, NO_FAULTS.deletes);
    assert AutoTrail(d, "@" + n, NO_FAULTS) == [d1];
  }

  lemma NoAutos(d: Disk, n: string)
    requires n != "" && forall k | k in d.subvols :: !CkptOf(k, n)
    ensures GoAutos(d, n) == {}
  {
    hide MatchCkpt;
  }

  // -------------------------------------------------------------------------
  // The order of a replacement
  // -------------------------------------------------------------------------

  // Wherever the slate is missing nothing is staged.
  ghost predicate UnstagedIfMissing(trail: seq<Disk>, t: string) {
    forall i | 0 <= i < |trail| :: t in trail[i].subvols || trail[i].staged == None
  }

  lemma ReplaceUnstaged(d: Disk, t: string, source: string, f: HookFaults)
    requires t in d.subvols && d.staged == None
    ensures UnstagedIfMissing(ReplaceRun(d, t, source, f).trail, t)
  {
    hide HookDelete;
    DeleteShrinks(d, t, f.deletes);
    var a := HookDelete(d, t, f.deletes);
    assert forall i | 0 <= i < |a| :: a[i].staged == None;
  }

  lemma ApplyUnstaged(d: Disk, t: string, f: HookFaults)
    requires t in d.subvols && !f.unlink
    ensures UnstagedIfMissing(ApplyRun(d, t, f).trail, t)
  {
    hide ReplaceRun, HookNext, HookCkpt, ValidSubvol, StagedSlate, StagedSource;
    if Applies(d, t) && CanSnap(d, t, PreName(d, t)) {
      var d1 := Snap(d, t, PreName(d, t), true);
      var d2 := End(d1, UnlinkTrail(d1, f.unlink));
      assert t in d2.subvols && d2.staged == None;
      ReplaceUnstaged(d2, t, StagedSource(d), f);
    }
  }

  lemma PruneKeepsSlate(d: Disk, n: string, f: DeleteFaults)
    requires Sound(d) && ValidName(n) && "@" + n in d.subvols
    ensures UnstagedIfMissing(PruneTrail(d, "@" + n, f), "@" + n)
  {
    hide Sound, PruneTrail, HookDrop, MatchCkpt;
    PruneSafe(d, n, f);
    ValidIsPlain(n);
    SlateInFamily(n);
  }

  lemma CheckpointKeepsSlate(d: Disk, n: string, f: HookFaults)
    requires Sound(d) && ValidName(n) && "@" + n in d.subvols
    ensures UnstagedIfMissing(CheckpointTrail(d, "@" + n, f), "@" + n)
  {
    hide Sound, PruneTrail, HookAutoOn, AutoName;
    var c := AutoTrail(d, "@" + n, f);
    AutoSafe(d, n, f);
    EndSafe(d, c, n, AutoTaken(f));
    PruneKeepsSlate(End(d, c), n, f.deletes);
  }

  lemma UnstagedConcat(a: seq<Disk>, b: seq<Disk>, t: string)
    requires UnstagedIfMissing(a, t) && UnstagedIfMissing(b, t)
    ensures UnstagedIfMissing(a + b, t)
  {
  }

  // The staged file is gone before its replacement removes the slate: as long as unlinking works,
  // every state of a boot that lacks the slate has nothing staged, so nothing is tried twice.
  lemma UnlinkedBeforeDelete(d: Disk, n: string, f: HookFaults)
    requires Sound(d) && ValidName(n) && "@" + n in d.subvols && !f.unlink
    ensures UnstagedIfMissing(PersistentRun(d, "@" + n, f).trail, "@" + n)
  {
    hide Sound, ApplyRun, CheckpointTrail, ValidSubvol, UnstagedIfMissing;
    var t := "@" + n;
    var a := ApplyRun(d, t, f);
    ApplyUnstaged(d, t, f);
    ApplySafe(d, n, f);
    EndSafe(d, a.trail, n, ApplyTaken(d, t, f));
    NothingMissing(t);
    assert [] + a.trail == a.trail;
    assert PreparedRun(d, t, f) == Run(a.trail, a.panic);
    if !a.panic {
      AppliedHasSlate(d, t, f);
      CheckpointKeepsSlate(End(d, a.trail), n, f);
      UnstagedConcat(a.trail, CheckpointTrail(End(d, a.trail), t, f), t);
    }
  }

  lemma NothingMissing(t: string)
    ensures UnstagedIfMissing([], t)
  {
  }

  lemma AppliedHasSlate(d: Disk, t: string, f: HookFaults)
    requires t in d.subvols && !ApplyRun(d, t, f).panic
    ensures t in End(d, ApplyRun(d, t, f).trail).subvols
  {
    hide HookDelete, HookNext, HookCkpt, ValidSubvol, StagedSlate, StagedSource;
    if Applies(d, t) && CanSnap(d, t, PreName(d, t)) && !f.keep {
      var d1 := Snap(d, t, PreName(d, t), true);
      var u := UnlinkTrail(d1, f.unlink);
      ThreeParts(d, d1, u, ReplaceRun(End(d1, u), t, StagedSource(d), f).trail);
      ReplacedHasSlate(End(d1, u), t, StagedSource(d), f);
    }
  }

  lemma ReplacedHasSlate(d: Disk, t: string, source: string, f: HookFaults)
    requires !ReplaceRun(d, t, source, f).panic
    ensures t in End(d, ReplaceRun(d, t, source, f).trail).subvols
  {
    hide HookDelete;
  }

  // -------------------------------------------------------------------------
  // The checkpoint a boot takes and its number
  // -------------------------------------------------------------------------

  lemma AutoAdds(d: Disk, n: string, f: HookFaults)
    requires Sound(d) && ValidName(n) && AutoTrail(d, "@" + n, f) != []
    ensures "@" + n in d.subvols
    ensures var k, s := AutoName(d, "@" + n), Subvol(d.subvols["@" + n].files, true);
            var d1 := d.(subvols := d.subvols[k := s]);
      && AutoTrail(d, "@" + n, f) == [d1] && Sound(d1) && k !in d.subvols && AutoCkptOf(k, n)
      && SeqOf(k) == MaxSeq(d, n) + 1 == MaxSeq(d1, n)
  {
    hide Sound, HookNext, MaxSeq, CkptName, HookCkpt, MatchCkpt;
    NextIsFree(d, n);
    var k, s := AutoName(d, "@" + n), Subvol(d.subvols["@" + n].files, true);
    CkptPathOf(n, MaxSeq(d, n) + 1, AUTO);
    CkptAddedSound(d, n, AUTO, s);
    CkptAddedGrows(d, n, k, s);
    SeqAtMostMax(d.(subvols := d.subvols[k := s]), n, k);
  }

  // The checkpoint a boot takes is there when it ends, holding what the slate held, if any
  // automatic checkpoint is retained and the numbers are small, whatever deletion fails.
  lemma TakenCkptStays(d: Disk, n: string, f: HookFaults)
    requires Sound(d) && ValidName(n) && MaxSeq(d, n) + 1 < 10000 && HookRetain(d.config) >= 1
    requires HookAutoOn(d.config) && AutoTrail(d, "@" + n, f) != []
    ensures var x, k := End(d, CheckpointTrail(d, "@" + n, f)), AutoName(d, "@" + n);
            k in x.subvols && x.subvols[k] == Subvol(d.subvols["@" + n].files, true) && k !in d.subvols
  {
    hide Sound, AutoName, MaxSeq, MatchCkpt, PruneTrail, HookDrop, SeqOf, AutoTrail;
    AutoAdds(d, n, f);
    var k, c := AutoName(d, "@" + n), AutoTrail(d, "@" + n, f);
    var d1 := c[0];
    NewestNotDropped(d1, n, k);
    PruneSafe(d1, n, f.deletes);
    EndConcat(d, c, PruneTrail(d1, "@" + n, f.deletes));
  }

  lemma DropsAllAutos(d: Disk, n: string)
    requires Sound(d) && ValidName(n)
    ensures Elements(HookDrop(d, "@" + n, 0)) == GoAutos(d, n)
  {
    hide Sound, GoAutos, HookAutos;
    AutosAgree(d, n);
    TextOrder();
    AllButNone(TextSorted(HookAutos(d, "@" + n)));
  }

  // The largest number of a kept checkpoint.
  ghost function MaxKept(d: Disk, n: string): nat {
    MaxOf(set k | k in d.subvols && KeepCkptOf(k, n) :: SeqOf(k))
  }

  lemma WithoutAutos(d: Disk, n: string)
    requires n != ""
    ensures MaxSeq(Remove(d, GoAutos(d, n)), n) == MaxKept(d, n)
  {
    hide SeqOf, MatchCkpt;
    ClassOfCkpts(d, n);
    var x := Remove(d, GoAutos(d, n));
    assert Seqs(x, n) == set k | k in d.subvols && KeepCkptOf(k, n) :: SeqOf(k);
  }

  lemma ClassOfCkpts(d: Disk, n: string)
    ensures forall k | k in d.subvols && CkptOf(k, n) :: AutoCkptOf(k, n) <==> !KeepCkptOf(k, n)
  {
    forall k | k in d.subvols && CkptOf(k, n) ensures AutoCkptOf(k, n) <==> !KeepCkptOf(k, n) {
      MatchSound(k);
      assert AUTO[0] != KEEP[0];
    }
  }

  lemma MaxKeptAtMost(d: Disk, n: string)
    ensures MaxKept(d, n) <= MaxSeq(d, n)
  {
    hide SeqOf, MatchCkpt;
    var kept: set<nat> := set k | k in d.subvols && KeepCkptOf(k, n) :: SeqOf(k);
    assert kept <= Seqs(d, n);
  }

  // Retaining none removes every automatic checkpoint, the one just taken too, and nothing else:
  // the numbers fall back to the largest kept one, so the number taken or a smaller one is given
  // again.
  lemma RetainZeroReuses(d: Disk, n: string, f: HookFaults)
    requires Sound(d) && ValidName(n) && HookAutoOn(d.config) && HookRetain(d.config) == 0 && Deletes(f.deletes)
    ensures var x := End(d, CheckpointTrail(d, "@" + n, f));
      && x == Remove(d, GoAutos(d, n))
      && MaxSeq(x, n) == MaxKept(d, n) <= MaxSeq(d, n)
      && HookNext(x, "@" + n) == MaxKept(d, n) + 1 <= HookNext(d, "@" + n)
  {
    hide Sound, AutoName, MaxSeq, MaxKept, MatchCkpt, PruneTrail, HookDrop, HookRetain, HookAutoOn, HookNext, AutoTrail, SeqOf;
    var c := AutoTrail(d, "@" + n, f);
    var d1 := End(d, c);
    ValidNotEmpty(n);
    if c != [] {
      AutoAdds(d, n, f);
      AutosWithOne(d, n, AutoName(d, "@" + n), Subvol(d.subvols["@" + n].files, true));
    }
    assert d1.config == d.config;
    PruneClears(d1, n, f.deletes);
    DropsAllAutos(d1, n);
    EndConcat(d, c, PruneTrail(d1, "@" + n, f.deletes));
    assert Remove(d1, GoAutos(d1, n)) == Remove(d, GoAutos(d, n));
    var x := Remove(d, GoAutos(d, n));
    WithoutAutos(d, n);
    MaxKeptAtMost(d, n);
    SoundSubset(d, x);
    NextNumbersAgree(d, n);
    NextNumbersAgree(x, n);
  }

  lemma AutosWithOne(d: Disk, n: string, k: string, s: Subvol)
    requires AutoCkptOf(k, n) && n != "" && k !in d.subvols
    ensures var d1 := d.(subvols := d.subvols[k := s]);
            Remove(d1, GoAutos(d1, n)) == Remove(d, GoAutos(d, n))
  {
    hide MatchCkpt;
    var d1 := d.(subvols := d.subvols[k := s]);
    assert GoAutos(d1, n) == GoAutos(d, n) + {k};
    assert d1.subvols - (GoAutos(d, n) + {k}) == d.subvols - GoAutos(d, n);
  }

  // Below 10000 and with deletions working, the checkpoint a boot takes survives the boot's own
  // pruning, and its number is not given again, exactly when some automatic one is retained.
  lemma TakenCkptStaysIff(d: Disk, n: string, f: HookFaults)
    requires Sound(d) && ValidName(n) && MaxSeq(d, n) + 1 < 10000 && Deletes(f.deletes)
    requires HookAutoOn(d.config) && AutoTrail(d, "@" + n, f) != []
    ensures var x, k := End(d, CheckpointTrail(d, "@" + n, f)), AutoName(d, "@" + n);
      && (k in x.subvols <==> HookRetain(d.config) >= 1)
      && (HookNext(x, "@" + n) > SeqOf(k) <==> HookRetain(d.config) >= 1)
  {
    hide Sound, AutoName, MaxSeq, MaxKept, MatchCkpt, CheckpointTrail, HookRetain, HookAutoOn, HookNext, AutoTrail, SeqOf;
    AutoAdds(d, n, f);
    var x, k := End(d, CheckpointTrail(d, "@" + n, f)), AutoName(d, "@" + n);
    NextNumbersAgree(d, n);
    if HookRetain(d.config) >= 1 {
      TakenCkptStays(d, n, f);
      CheckpointTrailSafe(d, n, f);
      EndSafe(d, CheckpointTrail(d, "@" + n, f), n, if HookAutoOn(d.config) then AutoTaken(f) else 0);
      NextNumbersAgree(x, n);
      SeqAtMostMax(x, n, k);
    } else {
      RetainZeroReuses(d, n, f);
    }
  }
}
