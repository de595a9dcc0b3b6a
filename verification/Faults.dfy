/** What a boot comes to when commands fail, and where the hook turns back. */
module Faults {
  import opened Text
  import opened Names
  import opened Staged
  import opened Config
  import opened Entries
  import opened Store
  import opened Sorting
  import opened Checkpoints
  import opened Pruning
  import opened Hook
  import opened HookSafety
  import opened BootSpec
  import opened Ops
  import opened OpsLaws
  import opened Outcomes

  // -------------------------------------------------------------------------
  // Deletion
  // -------------------------------------------------------------------------

  // When the recursive form fails and enumeration too, the hook still tries the subvolume itself
  // and succeeds exactly if nothing is nested in it; Go gives up.
  lemma UnlistedDelete(d: Disk, p: string, f: DeleteFaults)
    requires p in d.subvols && p in f.noRecursive && p in f.noList
    ensures GoDelete(d, p, f) == []
    ensures End(d, HookDelete(d, p, f)) == if Nested(d, p) == {} && p !in f.stuck then Remove(d, {p}) else d
  {
    assert PlainEach(d, [], f) == [];
  }

  // A subvolume that cannot be deleted even when it is empty stays, unless the recursive form works.
  lemma StuckStays(d: Disk, p: string, f: DeleteFaults)
    requires p in d.subvols && p in f.noRecursive && p in f.stuck
    ensures p in End(d, HookDelete(d, p, f)).subvols && p in End(d, GoDelete(d, p, f)).subvols
  {
    FallbackOutcome(d, p, f);
  }

  // -------------------------------------------------------------------------
  // Where the hook turns back
  // -------------------------------------------------------------------------

  // Without a subvolume, on a rescue boot, without the baseline and for a malformed subvolume the
  // hook changes nothing; the first mounts the default root in no known mode, the second what is
  // named if it is there, and the others panic.
  lemma HookTurnsBack(d: Disk, cmdline: string, f: HookFaults)
    ensures var a, o, t := HookArgs(cmdline), HookOutcome(d, cmdline, f), HookTrail(d, cmdline, f);
      && (a.subvol == "" ==>
            t == [] && if BASELINE in d.subvols
                       then o == Mount(BASELINE, WriteFacts("unknown", "unknown", "", "", "", f.lostFacts)) else o == Panic)
      && (a.subvol != "" && a.mode == "rescue" ==>
            t == [] && (o == Panic <==> a.subvol !in d.subvols) && (o.Mount? ==> o.root == a.subvol))
      && (a.subvol != "" && a.mode != "rescue" && BASELINE !in d.subvols ==> t == [] && o == Panic)
      && (a.subvol != "" && a.mode != "rescue" && a.subvol != RUNTIME && !ValidSubvol(a.subvol) ==> t == [] && o == Panic)
  {
    hide HookArgs, ValidSubvol, ScratchRun, PreparedRun, CheckpointTrail, WriteFacts, DisplayName, CkptFact;
  }

  // A scratch boot panics exactly when the old scratch root cannot be deleted or the new one not be
  // made.
  lemma ScratchPanics(d: Disk, basis: string, f: HookFaults)
    requires BASELINE in d.subvols
    ensures ScratchRun(d, basis, f).panic
       <==> f.recreate || (RUNTIME in d.subvols && RUNTIME in End(d, HookDelete(d, RUNTIME, f.deletes)).subvols)
  {
    hide ScratchBasis, HookDelete;
    BasisOutside(d, basis);
    var b := ScratchBasis(d, basis);
    if RUNTIME in d.subvols {
      DeleteShrinks(d, RUNTIME, f.deletes);
      BasisStays(d, End(d, HookDelete(d, RUNTIME, f.deletes)), b, RUNTIME);
    }
  }

  lemma BasisStays(d: Disk, x: Disk, b: string, p: string)
    requires Shrunk(d, x, p) && b in d.subvols && b != p && '/' !in b
    ensures b in x.subvols
  {
    InsideHasSlash(b, p);
  }

  // -------------------------------------------------------------------------
  // A slate's boot
  // -------------------------------------------------------------------------

  // The store once the slate is kept and the staged file unlinked, if that works.
  ghost function KeptStore(d: Disk, n: string, f: HookFaults): Disk
    requires "@" + n in d.subvols
  {
    d.(subvols := d.subvols[KeptName(d, n) := Subvol(d.subvols["@" + n].files, true)],
       staged := if f.unlink then d.staged else None)
  }

  // The slate, kept, cannot be deleted.
  ghost predicate SlateSticks(d: Disk, n: string, f: HookFaults)
    requires "@" + n in d.subvols
  {
    var y := KeptStore(d, n, f);
    "@" + n in End(y, HookDelete(y, "@" + n, f.deletes)).subvols
  }

  lemma KeepAndReplacePanics(d: Disk, n: string, source: string, f: HookFaults)
    requires Sound(d) && ValidName(n) && "@" + n in d.subvols && source in d.subvols && '/' !in source && !f.keep
    ensures KeepAndReplace(d, "@" + n, source, f).panic <==> source == "@" + n || f.recreate || SlateSticks(d, n, f)
  {
    hide Sound, HookDelete, HookNext, HookCkpt, MaxSeq, CkptName;
    NextIsFree(d, n);
    var t, y := "@" + n, KeptStore(d, n, f);
    var d1 := Snap(d, t, PreName(d, t), true);
    assert End(d1, UnlinkTrail(d1, f.unlink)) == y;
    DeleteShrinks(y, t, f.deletes);
    var x := End(y, HookDelete(y, t, f.deletes));
    if source != t {
      BasisStays(y, x, source, t);
    }
  }

  // A slate's boot panics exactly when the slate is missing and cannot be made, or when a
  // replacement of it has been checkpointed and the slate cannot be deleted or not be made anew, or
  // is its own source. Neither a checkpoint that fails nor pruning stops a boot.
  lemma SlateBootPanics(d: Disk, n: string, f: HookFaults)
    requires Sound(d) && ValidName(n) && BASELINE in d.subvols
    ensures "@" + n in Ensured(d, "@" + n).subvols
    ensures PersistentRun(d, "@" + n, f).panic
       <==> ("@" + n !in d.subvols && f.create) || ReplacementFails(Ensured(d, "@" + n), n, f)
  {
    hide Sound, EnsureRun, ApplyRun, Ensured, CheckpointTrail, ValidSubvol, ReplacementFails;
    var y := Ensured(d, "@" + n);
    ValidNameIsValidSubvol(n);
    EnsureGives(d, n);
    EnsuredBy(d, n, f);
    ApplyPanics(y, n, f);
  }

  ghost predicate ReplacementFails(d: Disk, n: string, f: HookFaults)
    requires "@" + n in d.subvols
  {
    && Applies(d, "@" + n) && !f.keep
    && (StagedSource(d) == "@" + n || f.recreate || SlateSticks(d, n, f))
  }

  lemma ApplyPanics(d: Disk, n: string, f: HookFaults)
    requires Sound(d) && ValidName(n) && "@" + n in d.subvols
    ensures ApplyRun(d, "@" + n, f).panic <==> ReplacementFails(d, n, f)
  {
    hide Sound, KeepAndReplace, SlateSticks, ValidSubvol, StagedSlate, StagedSource;
    if Applies(d, "@" + n) && !f.keep {
      ValidHasNoSlash(StagedSource(d));
      KeepAndReplacePanics(d, n, StagedSource(d), f);
    } else {
      NoReplacing(d, "@" + n, f);
    }
  }

  lemma EnsuredBy(d: Disk, n: string, f: HookFaults)
    requires BASELINE in d.subvols
    ensures var e := EnsureRun(d, "@" + n, f);
      && (e.panic <==> "@" + n !in d.subvols && f.create)
      && (!e.panic ==> End(d, e.trail) == Ensured(d, "@" + n))
  {
  }

  lemma NoReplacing(d: Disk, t: string, f: HookFaults)
    requires !Applies(d, t) || f.keep
    ensures !ApplyRun(d, t, f).panic
  {
    hide StagedSlate, StagedSource, ValidSubvol, ReplaceRun, HookNext, HookCkpt;
  }

  // If the checkpoint before a replacement fails, the replacement is off: the slate boots its own
  // files, and the staged file goes.
  lemma KeepFailureCallsOff(d: Disk, n: string, f: HookFaults)
    requires Sound(d) && ValidName(n) && "@" + n in d.subvols && f.keep
    ensures var r := PersistentRun(d, "@" + n, f);
            var x := End(d, r.trail);
      && !r.panic && "@" + n in x.subvols && x.subvols["@" + n] == d.subvols["@" + n]
      && (d.staged.Some? && StagedSlate(d) == "@" + n && !f.unlink ==> x.staged == None)
  {
    hide Sound, CheckpointTrail, ValidSubvol, StagedSlate, StagedSource, ReplaceRun, HookNext, HookCkpt, MatchCkpt;
    var t := "@" + n;
    ValidNameIsValidSubvol(n);
    var a := ApplyRun(d, t, f);
    assert a == Run(a.trail, false) && (a.trail == [] || a.trail == UnlinkTrail(d, f.unlink));
    var y := End(d, a.trail);
    assert y.subvols == d.subvols;
    assert [] + a.trail == a.trail;
    SoundSubset(d, y);
    CheckpointOnly(y, n, f);
    ValidIsPlain(n);
    SlateInFamily(n);
    EndConcat(d, a.trail, CheckpointTrail(y, t, f));
  }

  // If unlinking fails the staged file stays, through the whole boot.
  lemma UnlinkFailureKeepsStage(d: Disk, n: string, f: HookFaults)
    requires Sound(d) && ValidName(n) && f.unlink
    ensures End(d, PersistentRun(d, "@" + n, f).trail).staged == d.staged
  {
    hide Sound, CheckpointTrail, ValidSubvol, StagedSlate, StagedSource, HookDelete, HookNext, HookCkpt;
    var t := "@" + n;
    var e := EnsureRun(d, t, f);
    var y := End(d, e.trail);
    EnsureSafe(d, n, f);
    EndSafe(d, e.trail, n, 0);
    SafeIsSound(d, y, n, 0);
    if !e.panic {
      ApplyKeepsStage(y, t, f);
      ApplySafe(y, n, f);
      EndSafe(y, ApplyRun(y, t, f).trail, n, ApplyTaken(y, t, f));
      var z := End(y, ApplyRun(y, t, f).trail);
      SafeIsSound(y, z, n, ApplyTaken(y, t, f));
      CheckpointOnly(z, n, f);
      EndConcat(d, e.trail, ApplyRun(y, t, f).trail);
      EndConcat(d, PreparedRun(d, t, f).trail, CheckpointTrail(z, t, f));
    }
  }

  lemma ApplyKeepsStage(d: Disk, t: string, f: HookFaults)
    requires f.unlink && t in d.subvols
    ensures End(d, ApplyRun(d, t, f).trail).staged == d.staged
  {
    hide StagedSlate, StagedSource, ValidSubvol, HookDelete, HookNext, HookCkpt;
    if Applies(d, t) && CanSnap(d, t, PreName(d, t)) && !f.keep {
      var d1 := Snap(d, t, PreName(d, t), true);
      DeleteShrinks(d1, t, f.deletes);
      ThreeParts(d, d1, [], ReplaceRun(d1, t, StagedSource(d), f).trail);
    }
  }

  // If the automatic checkpoint fails the boot goes on and none is on record.
  lemma AutoFailureOnRecord(d: Disk, cmdline: string, n: string, f: HookFaults)
    requires Sound(d) && ValidName(n) && BASELINE in d.subvols && HookAutoOn(d.config) && f.auto && f.lostFacts == {}
    requires HookArgs(cmdline).subvol == "@" + n && HookArgs(cmdline).mode != "rescue"
    requires !PersistentRun(d, "@" + n, f).panic
    ensures var o := HookOutcome(d, cmdline, f);
            o.Mount? && BootRecord(o.facts, cmdline) == Some(Booted(n, "persistent", "@" + n, "", "@" + n, false))
  {
    hide Sound, HookArgs, PersistentRun, PreparedRun, ValidName, WriteFacts, BootRecord, HookAutoOn, HookNext, Tidy,
         PreparedTaken, AutoName;
    SlateReads(n);
    PreparedSafe(d, n, f);
    EndSafe(d, PreparedRun(d, "@" + n, f).trail, n, PreparedTaken(d, n, f));
    SafeIsSame(d, End(d, PreparedRun(d, "@" + n, f).trail), n, PreparedTaken(d, n, f));
    ModesAreTidy();
    NameIsTidy(n);
    TidyTrims("@" + n);
    RecordReads(n, "persistent", "@" + n, "", "@" + n, cmdline);
  }

  lemma NameIsTidy(n: string)
    requires ValidName(n)
    ensures Tidy(n) && Tidy("@" + n)
  {
    SlateReads(n);
  }

  // -------------------------------------------------------------------------
  // What a replacement never does before its checkpoint
  // -------------------------------------------------------------------------

  // In every state a boot that replaces the slate passes through its old files are in the kept
  // checkpoint: that is taken before the staged file goes and before the slate does.
  lemma KeptFromTheStart(d: Disk, n: string, f: HookFaults)
    requires Sound(d) && ValidName(n) && "@" + n in d.subvols && Applies(d, "@" + n) && !f.keep
    ensures var t := PersistentRun(d, "@" + n, f).trail;
            forall i | 0 <= i < |t| ::
              KeptName(d, n) in t[i].subvols && t[i].subvols[KeptName(d, n)] == Subvol(d.subvols["@" + n].files, true)
  {
    hide Sound, KeepAndReplace, CheckpointTrail, ValidSubvol, StagedSlate, StagedSource, Safe, KeptName, MatchCkpt;
    var t, source := "@" + n, StagedSource(d);
    ValidNameIsValidSubvol(n);
    var d1, rest := KeptThenReplaced(d, n, source, f);
    var a := ApplyRun(d, t, f);
    assert a == KeepAndReplace(d, t, source, f);
    assert [] + a.trail == a.trail;
    EndConcat(d, [d1], rest);
    EndSafe(d1, rest, n, 0);
    var y := End(d1, rest);
    SafeIsSound(d1, y, n, 0);
    var all := if a.panic then rest else rest + CheckpointTrail(y, t, f);
    var j := if HookAutoOn(y.config) then AutoTaken(f) else 0;
    CheckpointTrailSafe(y, n, f);
    SafeConcat(d1, rest, CheckpointTrail(y, t, f), n, 0, j);
    AllSafeMore(d1, rest, n, 0, j);
    assert PersistentRun(d, t, f).trail == [d1] + all;
    forall i | 0 <= i < |all|
      ensures KeptName(d, n) in all[i].subvols && all[i].subvols[KeptName(d, n)] == Subvol(d.subvols[t].files, true)
    {
      SafeHasKept(d1, all[i], n, j, KeptName(d, n));
    }
  }

  lemma SafeHasKept(d: Disk, x: Disk, n: string, j: nat, k: string)
    requires Safe(d, x, n, j) && k in d.subvols && KeepCkptOf(k, n)
    ensures k in x.subvols && x.subvols[k] == d.subvols[k]
  {
  }

  // The replacement as its checkpoint and the rest.
  lemma KeptThenReplaced(d: Disk, n: string, source: string, f: HookFaults) returns (d1: Disk, rest: seq<Disk>)
    requires Sound(d) && ValidName(n) && "@" + n in d.subvols && !f.keep
    ensures Sound(d1) && KeepAndReplace(d, "@" + n, source, f).trail == [d1] + rest && AllSafe(d1, rest, n, 0)
    ensures KeptName(d, n) in d1.subvols && d1.subvols[KeptName(d, n)] == Subvol(d.subvols["@" + n].files, true)
    ensures KeepCkptOf(KeptName(d, n), n)
  {
    hide Safe, Sound, ReplaceRun, HookCkpt, HookNext, MaxSeq, KeptIn, CkptName, MatchCkpt;
    var t := "@" + n;
    NextIsFree(d, n);
    CkptPathOf(n, MaxSeq(d, n) + 1, KEEP);
    d1 := Snap(d, t, PreName(d, t), true);
    CkptSafe(d, t, n, KEEP);
    SafeIsSound(d, d1, n, 1);
    var u := UnlinkTrail(d1, f.unlink);
    UnlinkSafe(d1, n, f.unlink);
    var d2 := End(d1, u);
    EndSafe(d1, u, n, 0);
    SafeIsSound(d1, d2, n, 0);
    JustKept(d, d2, n);
    ReplaceSafe(d2, n, source, f);
    rest := u + ReplaceRun(d2, t, source, f).trail;
    SafeConcat(d1, u, ReplaceRun(d2, t, source, f).trail, n, 0, 0);
    assert [d1] + u + ReplaceRun(d2, t, source, f).trail == [d1] + rest;
  }
}
