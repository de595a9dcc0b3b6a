/** The boot hook: what it does to the store for a command line, command by command, with every
    command allowed to fail; and the hook itself, changing the store in place. */
module Hook {
  import opened Text
  import opened Decimal
  import opened Names
  import opened Staged
  import opened Config
  import opened Entries
  import opened Store
  import opened Checkpoints
  import opened Pruning
  import opened Sorting

  // Which commands of one boot fail: creating a missing slate, the checkpoint before a
  // replacement, unlinking the staged file, re-creating the slate (or making the scratch root),
  // the automatic checkpoint, deletions, and the boot-record files that cannot be written.
  datatype HookFaults = HookFaults(create: bool, keep: bool, unlink: bool, recreate: bool, auto: bool,
                                   deletes: DeleteFaults, lostFacts: set<string>)

  const NO_FAULTS := HookFaults(false, false, false, false, false, DeleteFaults({}, {}, {}), {})

  // The commands issued, as the contents after each, and whether the hook panics after them.
  datatype Run = Run(trail: seq<Disk>, panic: bool)

  function HookCkpt(subvol: string, s: nat, class_: string): string {
    subvol + ".ckpt." + Pad(s, 4) + "." + class_
  }

  function UnlinkTrail(d: Disk, fault: bool): seq<Disk> {
    if !fault && d.staged.Some? then [d.(staged := None)] else []
  }

  // -------------------------------------------------------------------------
  // The parts of a persistent boot
  // -------------------------------------------------------------------------

  function EnsureRun(d: Disk, t: string, f: HookFaults): Run {
    if t in d.subvols then Run([], false)
    else Run(SnapTrail(d, BASELINE, t, false, f.create), f.create || !CanSnap(d, BASELINE, t))
  }

  function StagedSlate(d: Disk): string {
    if d.staged.None? then "" else HookField(d.staged.value, "slate")
  }

  function StagedSource(d: Disk): string {
    if d.staged.None? then "" else HookField(d.staged.value, "source")
  }

  // The staged replacement is for t and can be carried out.
  predicate Applies(d: Disk, t: string) {
    && d.staged.Some? && StagedSlate(d) == t
    && ValidSubvol(StagedSlate(d)) && ValidSubvol(StagedSource(d)) && StagedSource(d) in d.subvols
  }

  // Delete the slate, then make it anew from the source.
  ghost function ReplaceRun(d: Disk, t: string, source: string, f: HookFaults): Run {
    var a := HookDelete(d, t, f.deletes);
    var d1 := End(d, a);
    if t in d1.subvols then Run(a, true)
    else Run(a + SnapTrail(d1, source, t, false, f.recreate), f.recreate || !CanSnap(d1, source, t))
  }

  // The kept checkpoint of what is replaced.
  ghost function PreName(d: Disk, t: string): string { HookCkpt(t, HookNext(d, t), KEEP) }

  // Checkpoint the slate, unlink the staged file, replace the slate; without a checkpoint,
  // unlink only.
  ghost function KeepAndReplace(d: Disk, t: string, source: string, f: HookFaults): Run {
    if f.keep || !CanSnap(d, t, PreName(d, t)) then Run(UnlinkTrail(d, f.unlink), false)
    else
      var d1 := Snap(d, t, PreName(d, t), true);
      var u := UnlinkTrail(d1, f.unlink);
      var r := ReplaceRun(End(d1, u), t, source, f);
      Run([d1] + u + r.trail, r.panic)
  }

  ghost function ApplyRun(d: Disk, t: string, f: HookFaults): Run {
    if d.staged.None? || StagedSlate(d) != t then Run([], false)
    else if !Applies(d, t) then Run(UnlinkTrail(d, f.unlink), false)
    else KeepAndReplace(d, t, StagedSource(d), f)
  }

  ghost function AutoName(d: Disk, t: string): string { HookCkpt(t, HookNext(d, t), AUTO) }

  ghost function AutoTrail(d: Disk, t: string, f: HookFaults): seq<Disk> {
    SnapTrail(d, t, AutoName(d, t), true, f.auto)
  }

  // The automatic checkpoint and the pruning after it.
  ghost function CheckpointTrail(d: Disk, t: string, f: HookFaults): seq<Disk> {
    if !HookAutoOn(d.config) then []
    else
      var c := AutoTrail(d, t, f);
      c + PruneTrail(End(d, c), t, f.deletes)
  }

  ghost function PreparedRun(d: Disk, t: string, f: HookFaults): Run {
    var e := EnsureRun(d, t, f);
    if e.panic then e
    else
      var a := ApplyRun(End(d, e.trail), t, f);
      Run(e.trail + a.trail, a.panic)
  }

  ghost function PersistentRun(d: Disk, t: string, f: HookFaults): Run {
    if !ValidSubvol(t) then Run([], true)
    else
      var p := PreparedRun(d, t, f);
      if p.panic then p
      else Run(p.trail + CheckpointTrail(End(d, p.trail), t, f), false)
  }

  // -------------------------------------------------------------------------
  // A scratch boot
  // -------------------------------------------------------------------------

  function ScratchBasis(d: Disk, basis: string): string {
    var b := if basis == "" then BASELINE else basis;
    if !ValidSubvol(b) || b == RUNTIME || b == HOSTID || b !in d.subvols then BASELINE else b
  }

  ghost function ScratchRun(d: Disk, basis: string, f: HookFaults): Run {
    var a := if RUNTIME in d.subvols then HookDelete(d, RUNTIME, f.deletes) else [];
    var d1 := End(d, a);
    var b := ScratchBasis(d, basis);
    if RUNTIME in d1.subvols then Run(a, true)
    else Run(a + SnapTrail(d1, b, RUNTIME, false, f.recreate), f.recreate || !CanSnap(d1, b, RUNTIME))
  }

  // -------------------------------------------------------------------------
  // The whole hook
  // -------------------------------------------------------------------------

  type Facts = map<string, string>

  function WriteFacts(slate: string, mode: string, basis: string, ckpt: string, requested: string,
                      lost: set<string>): Facts {
    map["slate" := slate, "mode" := mode, "basis" := basis, "checkpoint" := ckpt,
        "requested" := requested] - lost
  }

  datatype Outcome = Panic | Mount(root: string, facts: Facts)

  // The checkpoint field of the boot record.
  ghost function CkptFact(d: Disk, t: string, f: HookFaults): string {
    if !HookAutoOn(d.config) then "disabled"
    else if AutoTrail(d, t, f) == [] then ""
    else AutoName(d, t)
  }

  ghost function HookTrail(d: Disk, cmdline: string, f: HookFaults): seq<Disk> {
    var a := HookArgs(cmdline);
    if a.subvol == "" || a.mode == "rescue" || BASELINE !in d.subvols then []
    else if a.subvol == RUNTIME then ScratchRun(d, a.basis, f).trail
    else PersistentRun(d, a.subvol, f).trail
  }

  // With no subvolume named, the default one is mounted, which is the baseline.
  ghost function HookOutcome(d: Disk, cmdline: string, f: HookFaults): Outcome {
    var a := HookArgs(cmdline);
    if a.subvol == "" then
      if BASELINE in d.subvols
      then Mount(BASELINE, WriteFacts("unknown", "unknown", "", "", "", f.lostFacts)) else Panic
    else if a.mode == "rescue" then
      if a.subvol in d.subvols
      then Mount(a.subvol, WriteFacts(DisplayName(a.subvol), "rescue", a.subvol, "", a.subvol, f.lostFacts))
      else Panic
    else if BASELINE !in d.subvols then Panic
    else if a.subvol == RUNTIME then
      var b := ScratchBasis(d, a.basis);
      if ScratchRun(d, a.basis, f).panic then Panic
      else Mount(RUNTIME, WriteFacts(DisplayName(b), "scratch", b, "", a.basis, f.lostFacts))
    else
      var p := PersistentRun(d, a.subvol, f);
      if p.panic then Panic
      else
        var ckpt := CkptFact(End(d, PreparedRun(d, a.subvol, f).trail), a.subvol, f);
        Mount(a.subvol, WriteFacts(DisplayName(a.subvol), "persistent", a.subvol, ckpt, a.subvol, f.lostFacts))
  }

  // -------------------------------------------------------------------------
  // The hook, step by step on the mounted filesystem root
  // -------------------------------------------------------------------------

  method EnsureSlate(fs: FsRoot, t: string, f: HookFaults) returns (panic: bool)
    modifies fs
    ensures fs.trail == old(fs.trail) + EnsureRun(old(fs.Now()), t, f).trail
    ensures fs.Now() == End(old(fs.Now()), EnsureRun(old(fs.Now()), t, f).trail)
    ensures panic == EnsureRun(old(fs.Now()), t, f).panic
    ensures !panic ==> t in fs.subvols
  {
    if t in fs.subvols {
      return false;
    }
    var ok := fs.Snapshot(BASELINE, t, false, f.create);
    return !ok;
  }

  method Unlink(fs: FsRoot, fault: bool)
    modifies fs
    ensures fs.trail == old(fs.trail) + UnlinkTrail(old(fs.Now()), fault)
    ensures fs.Now() == End(old(fs.Now()), UnlinkTrail(old(fs.Now()), fault))
    ensures fs.subvols == old(fs.subvols)
  {
    if !fault && fs.staged.Some? {
      fs.staged := None;
      fs.trail := fs.trail + [fs.Now()];
    }
  }

  method Replace(fs: FsRoot, t: string, source: string, f: HookFaults) returns (panic: bool)
    requires t in fs.subvols
    modifies fs
    ensures var r := ReplaceRun(old(fs.Now()), t, source, f);
            fs.trail == old(fs.trail) + r.trail && fs.Now() == End(old(fs.Now()), r.trail) && panic == r.panic
    ensures !panic ==> t in fs.subvols
  {
    hide HookDelete;
    ghost var d := fs.Now();
    var gone := DeleteSubvol(fs, t, f.deletes);
    if !gone {
      return true;
    }
    EndConcat(d, HookDelete(d, t, f.deletes), SnapTrail(fs.Now(), source, t, false, f.recreate));
    var made := fs.Snapshot(source, t, false, f.recreate);
    return !made;
  }

  lemma ThreeParts(d: Disk, d1: Disk, u: seq<Disk>, r: seq<Disk>)
    ensures End(d, [d1] + u + r) == End(End(d1, u), r)
  {
  }

  method ApplyPending(fs: FsRoot, t: string, f: HookFaults) returns (panic: bool)
    requires t in fs.subvols
    modifies fs
    ensures var r := ApplyRun(old(fs.Now()), t, f);
            fs.trail == old(fs.trail) + r.trail && fs.Now() == End(old(fs.Now()), r.trail) && panic == r.panic
    ensures !panic ==> t in fs.subvols
  {
    hide KeepAndReplace, ValidSubvol, UnlinkTrail, Split;
    if fs.staged.None? {
      return false;
    }
    var slate := TailOne(SedPrint(Split(fs.staged.value, '\n'), "slate" + "="));
    var source := TailOne(SedPrint(Split(fs.staged.value, '\n'), "source" + "="));
    if slate != t {
      return false;
    }
    if !ValidSubvol(slate) || !ValidSubvol(source) {
      Unlink(fs, f.unlink);
      return false;
    }
    if source !in fs.subvols {
      Unlink(fs, f.unlink);
      return false;
    }
    panic := KeepThenReplace(fs, t, source, f);
  }

  method KeepThenReplace(fs: FsRoot, t: string, source: string, f: HookFaults) returns (panic: bool)
    requires t in fs.subvols
    modifies fs
    ensures var r := KeepAndReplace(old(fs.Now()), t, source, f);
            fs.trail == old(fs.trail) + r.trail && fs.Now() == End(old(fs.Now()), r.trail) && panic == r.panic
    ensures !panic ==> t in fs.subvols
  {
    hide ReplaceRun, HookNext, HookCkpt;
    var number := NextSeqOfHook(fs, t);
    ghost var d := fs.Now();
    var made := fs.Snapshot(t, HookCkpt(t, number, KEEP), true, f.keep);
    if !made {
      Unlink(fs, f.unlink);
      return false;
    }
    ghost var d1 := fs.Now();
    Unlink(fs, f.unlink);
    ThreeParts(d, d1, UnlinkTrail(d1, f.unlink), ReplaceRun(fs.Now(), t, source, f).trail);
    panic := Replace(fs, t, source, f);
  }

  method CheckpointSlate(fs: FsRoot, t: string, f: HookFaults) returns (ckpt: string)
    modifies fs
    ensures fs.trail == old(fs.trail) + AutoTrail(old(fs.Now()), t, f)
    ensures fs.Now() == End(old(fs.Now()), AutoTrail(old(fs.Now()), t, f))
    ensures ckpt == if AutoTrail(old(fs.Now()), t, f) == [] then "" else AutoName(old(fs.Now()), t)
  {
    var number := NextSeqOfHook(fs, t);
    ckpt := HookCkpt(t, number, AUTO);
    var ok := fs.Snapshot(t, ckpt, true, f.auto);
    if !ok {
      ckpt := "";
    }
  }

  lemma DeleteAllStep(d: Disk, done: seq<Disk>, ps: seq<string>, i: nat, f: DeleteFaults)
    requires i < |ps| && HookDeleteAll(d, ps, f) == done + HookDeleteAll(End(d, done), ps[i..], f)
    ensures var a := HookDelete(End(d, done), ps[i], f);
      && HookDeleteAll(d, ps, f) == (done + a) + HookDeleteAll(End(d, done + a), ps[i + 1..], f)
      && End(d, done + a) == End(End(d, done), a)
  {
    hide HookDelete;
    assert ps[i..][0] == ps[i] && ps[i..][1..] == ps[i + 1..];
    EndConcat(d, done, HookDelete(End(d, done), ps[i], f));
  }

  // ls -d ....ckpt.*.auto | sort
  method SortedAutos(fs: FsRoot, t: string) returns (all: seq<string>)
    ensures all == TextSorted(HookAutos(fs.Now(), t))
  {
    var names := fs.Names(set k | k in fs.subvols && AutoGlob(k, t));
    assert Elements(names) == HookAutos(fs.Now(), t);
    TextOrder();
    all := Sort(names, Before);
  }

  method DeleteAll(fs: FsRoot, ps: seq<string>, f: DeleteFaults)
    modifies fs
    ensures fs.trail == old(fs.trail) + HookDeleteAll(old(fs.Now()), ps, f)
    ensures fs.Now() == End(old(fs.Now()), HookDeleteAll(old(fs.Now()), ps, f))
  {
    hide HookDelete, HookDeleteAll;
    ghost var d := fs.Now();
    ghost var done: seq<Disk> := [];
    NoneDeleted(d, ps, f);
    for i := 0 to |ps|
      invariant fs.trail == old(fs.trail) + done && fs.Now() == End(d, done)
      invariant HookDeleteAll(d, ps, f) == done + HookDeleteAll(End(d, done), ps[i..], f)
    {
      DeleteAllStep(d, done, ps, i, f);
      done := done + HookDelete(fs.Now(), ps[i], f);
      var _ := DeleteSubvol(fs, ps[i], f);
    }
    NoneDeleted(fs.Now(), ps, f);
  }

  lemma NoneDeleted(d: Disk, ps: seq<string>, f: DeleteFaults)
    ensures HookDeleteAll(d, [], f) == []
    ensures ps[0..] == ps && ps[|ps|..] == [] && [] + HookDeleteAll(d, ps, f) == HookDeleteAll(d, ps, f)
  {
  }

  method PruneAuto(fs: FsRoot, t: string, f: DeleteFaults)
    modifies fs
    ensures fs.trail == old(fs.trail) + PruneTrail(old(fs.Now()), t, f)
    ensures fs.Now() == End(old(fs.Now()), PruneTrail(old(fs.Now()), t, f))
  {
    hide HookDeleteAll, HookAutos, TextSorted, HookRetain;
    var keep := HookRetain(fs.config);
    var all := SortedAutos(fs, t);
    if |all| <= keep {
      NoneDeleted(fs.Now(), [], f);
      return;
    }
    DeleteAll(fs, all[..|all| - keep], f);
  }

  method CheckpointAndPrune(fs: FsRoot, t: string, f: HookFaults) returns (ckpt: string)
    modifies fs
    ensures fs.trail == old(fs.trail) + CheckpointTrail(old(fs.Now()), t, f)
    ensures fs.Now() == End(old(fs.Now()), CheckpointTrail(old(fs.Now()), t, f))
    ensures ckpt == CkptFact(old(fs.Now()), t, f)
  {
    hide AutoTrail, PruneTrail, AutoName;
    if !HookAutoOn(fs.config) {
      return "disabled";
    }
    ghost var d := fs.Now();
    ckpt := CheckpointSlate(fs, t, f);
    EndConcat(d, AutoTrail(d, t, f), PruneTrail(fs.Now(), t, f.deletes));
    PruneAuto(fs, t, f.deletes);
  }

  method PreparePersistent(fs: FsRoot, t: string, f: HookFaults) returns (panic: bool)
    modifies fs
    ensures var r := PreparedRun(old(fs.Now()), t, f);
            fs.trail == old(fs.trail) + r.trail && fs.Now() == End(old(fs.Now()), r.trail) && panic == r.panic
  {
    hide EnsureRun, ApplyRun;
    ghost var d := fs.Now();
    panic := EnsureSlate(fs, t, f);
    if panic {
      return;
    }
    EndConcat(d, EnsureRun(d, t, f).trail, ApplyRun(fs.Now(), t, f).trail);
    panic := ApplyPending(fs, t, f);
  }

  method Persistent(fs: FsRoot, t: string, f: HookFaults) returns (panic: bool, ckpt: string)
    modifies fs
    ensures var r := PersistentRun(old(fs.Now()), t, f);
            fs.trail == old(fs.trail) + r.trail && fs.Now() == End(old(fs.Now()), r.trail) && panic == r.panic
    ensures !panic ==> ckpt == CkptFact(End(old(fs.Now()), PreparedRun(old(fs.Now()), t, f).trail), t, f)
  {
    hide PreparedRun, CheckpointTrail, CkptFact;
    ckpt := "";
    if !ValidSubvol(t) {
      return true, "";
    }
    ghost var d := fs.Now();
    panic := PreparePersistent(fs, t, f);
    if panic {
      return;
    }
    EndConcat(d, PreparedRun(d, t, f).trail, CheckpointTrail(fs.Now(), t, f));
    ckpt := CheckpointAndPrune(fs, t, f);
  }

  method Scratch(fs: FsRoot, requested: string, f: HookFaults) returns (panic: bool, basis: string)
    modifies fs
    ensures var r := ScratchRun(old(fs.Now()), requested, f);
            fs.trail == old(fs.trail) + r.trail && fs.Now() == End(old(fs.Now()), r.trail) && panic == r.panic
    ensures basis == ScratchBasis(old(fs.Now()), requested)
  {
    hide HookDelete;
    basis := requested;
    if basis == "" {
      basis := BASELINE;
    }
    if !ValidSubvol(basis) {
      basis := BASELINE;
    } else if basis == RUNTIME || basis == HOSTID {
      basis := BASELINE;
    } else if basis !in fs.subvols {
      basis := BASELINE;
    }
    ghost var d := fs.Now();
    ghost var a: seq<Disk> := [];
    if RUNTIME in fs.subvols {
      a := HookDelete(d, RUNTIME, f.deletes);
      var gone := DeleteSubvol(fs, RUNTIME, f.deletes);
      if !gone {
        return true, basis;
      }
    }
    EndConcat(d, a, SnapTrail(fs.Now(), basis, RUNTIME, false, f.recreate));
    var ok := fs.Snapshot(basis, RUNTIME, false, f.recreate);
    return !ok, basis;
  }

  // The script itself. The whole effect is a function of the store, the command line and the
  // faults; a power loss leaves the store as after some prefix of the trail.
  method BootHook(fs: FsRoot, cmdline: string, f: HookFaults) returns (o: Outcome)
    modifies fs
    ensures fs.trail == old(fs.trail) + HookTrail(old(fs.Now()), cmdline, f)
    ensures fs.Now() == End(old(fs.Now()), HookTrail(old(fs.Now()), cmdline, f))
    ensures o == HookOutcome(old(fs.Now()), cmdline, f)
  {
    hide ScratchRun, PersistentRun, PreparedRun, CkptFact;
    var args := ReadCmdline(cmdline);
    var subvol, basis, mode := args.subvol, args.basis, args.mode;
    if subvol == "" {
      if BASELINE in fs.subvols {
        return Mount(BASELINE, WriteFacts("unknown", "unknown", "", "", "", f.lostFacts));
      }
      return Panic;
    }
    if mode == "rescue" {
      if subvol in fs.subvols {
        return Mount(subvol, WriteFacts(DisplayName(subvol), "rescue", subvol, "", subvol, f.lostFacts));
      }
      return Panic;
    }
    if BASELINE !in fs.subvols {
      return Panic;
    }
    if subvol == RUNTIME {
      var panic, b := Scratch(fs, basis, f);
      if panic {
        return Panic;
      }
      return Mount(RUNTIME, WriteFacts(DisplayName(b), "scratch", b, "", basis, f.lostFacts));
    }
    var panic, ckpt := Persistent(fs, subvol, f);
    if panic {
      return Panic;
    }
    return Mount(subvol, WriteFacts(DisplayName(subvol), "persistent", subvol, ckpt, subvol, f.lostFacts));
  }
}
