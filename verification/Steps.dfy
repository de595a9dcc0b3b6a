/** What every change an event makes keeps: the invariant of the store, and for each slate its
    kept checkpoints, its work, its numbers and what is staged for it. */
module Steps {
  import opened Text
  import opened Decimal
  import opened Names
  import opened Staged
  import opened Config
  import opened Entries
  import opened EntryFile
  import opened Store
  import opened Checkpoints
  import opened Pruning
  import opened Hook
  import opened HookSafety
  import opened BootSpec
  import opened Ops
  import opened OpsLaws
  import opened Machine

  predicate Boots(e: Event, n: string) { e.Boot? && e.entry == n }

  predicate Discards(e: Event, n: string) { e.Discarding? && e.name == n }

  predicate Stages(e: Event) { e.RollingBack? || e.Resetting? }

  predicate WritesTo(s: State, e: Event, n: string) {
    e.Write? && s.session.Up? && s.session.root == "@" + n
  }

  // All checkpoints of n are still there, unchanged.
  ghost predicate CkptsStay(d: Disk, x: Disk, n: string) {
    forall k | k in d.subvols && CkptOf(k, n) :: k in x.subvols && x.subvols[k] == d.subvols[k]
  }

  ghost predicate SlateStays(d: Disk, x: Disk, n: string) {
    "@" + n in d.subvols ==> "@" + n in x.subvols && x.subvols["@" + n] == d.subvols["@" + n]
  }

  // The numbers of n grow, in a boot of n only if there is room for those it takes.
  ghost predicate NumbersGrow(d: Disk, e: Event, x: Disk, n: string) {
    (Boots(e, n) ==> Room(d, n, Taken(d, n, e.hookFaults))) ==> Grows(d, x, n, 2)
  }

  // What an event that passes through x keeps of slate n.
  ghost predicate Keeps(s: State, e: Event, x: Disk, n: string) {
    var d := s.disk;
    && (!Discards(e, n) ==> KeepsKept(d, x, n) && NumbersGrow(d, e, x, n))
    && (!Discards(e, n) && !WritesTo(s, e, n) ==> KeepsWork(d, x, n))
    && (!Discards(e, n) && !Boots(e, n) ==> CkptsStay(d, x, n))
    && (!Discards(e, n) && !Boots(e, n) && !WritesTo(s, e, n) ==> SlateStays(d, x, n))
    && (!(Discards(e, n) && e.bls) ==> EntryStays(d, x, n))
    && (!Stages(e) ==> StagedKept(d, x, e))
  }

  ghost predicate EntryStays(d: Disk, x: Disk, n: string) { n in d.entries ==> n in x.entries }

  // A staged file goes only when its own slate is booted.
  ghost predicate StagedKept(d: Disk, x: Disk, e: Event) {
    x.staged == d.staged || (x.staged == None && e.Boot? && StagedSlate(d) == "@" + e.entry)
  }

  // -------------------------------------------------------------------------
  // Slates that are not touched
  // -------------------------------------------------------------------------

  ghost predicate Untouched(d: Disk, x: Disk, n: string) {
    forall k | Family(k, n) :: (k in d.subvols <==> k in x.subvols)
                               && (k in d.subvols ==> x.subvols[k] == d.subvols[k])
  }

  ghost predicate AllKept(d: Disk, x: Disk, n: string) {
    KeepsKept(d, x, n) && Grows(d, x, n, 2) && KeepsWork(d, x, n) && CkptsStay(d, x, n) && SlateStays(d, x, n)
  }

  lemma UntouchedIsKept(d: Disk, x: Disk, n: string)
    requires PlainName(n) && Untouched(d, x, n)
    ensures AllKept(d, x, n)
  {
    hide Top, MatchCkpt;
    SlateInFamily(n);
    SameCkpts(d, x, n, 2);
  }

  lemma OthersUntouched(d: Disk, x: Disk, m: string, n: string)
    requires PlainName(m) && PlainName(n) && m != n && Only(d, x, m)
    ensures Untouched(d, x, n)
  {
    hide Family;
    forall k | Family(k, n) ensures !Family(k, m) {
      FamiliesApart(k, m, n);
    }
  }

  lemma ScratchUntouched(d: Disk, x: Disk, n: string)
    requires ValidName(n) && ScratchOnly(d, x)
    ensures Untouched(d, x, n)
  {
    hide MatchCkpt, Sound, ValidName, Top;
    OutsideRuntime(n);
  }

  lemma OutsideRuntime(n: string)
    requires ValidName(n)
    ensures forall k | Family(k, n) :: !Within(k, RUNTIME)
  {
    hide MatchCkpt;
    ValidIsPlain(n);
    SlateReads(n);
    assert '/' !in RUNTIME;
    forall k | Family(k, n) ensures !Within(k, RUNTIME) {
      TopUnique(k, RUNTIME);
      if CkptOf(k, n) {
        CkptIsTop(k, n);
        MatchHasDot(k);
        assert '.' !in RUNTIME;
      }
    }
  }

  lemma BaselineOutside(n: string)
    requires ValidName(n)
    ensures !Family(BASELINE, n) && !Within(BASELINE, RUNTIME)
  {
    hide ValidName;
    BaselineText();
    SlateReads(n);
    NoDotNoMatch(BASELINE);
    InsideHasSlash(BASELINE, RUNTIME);
  }

  lemma BaselineText()
    ensures '/' !in BASELINE && '.' !in BASELINE && BASELINE != RUNTIME
  {
  }

  // -------------------------------------------------------------------------
  // A boot
  // -------------------------------------------------------------------------

  lemma EntryKinds(d: Disk, e: string)
    requires EntriesOk(d) && e in d.entries
    ensures e == SCRATCH || e == RESCUE || ValidName(e)
    ensures ValidName(e) ==> e != SCRATCH && e != RESCUE
  {
    hide HookArgs, GoodTemplate, CmdlineOf, GoSubvol;
    assert EntryOk(e, d.entries[e]);
  }

  // The hook takes the branch the entry is named for.
  lemma BootTrailIs(d: Disk, e: string, f: HookFaults)
    requires EntriesOk(d) && e in d.entries && BASELINE in d.subvols
    ensures var cmdline := CmdlineOf(d.entries[e]);
      && (e == RESCUE ==> HookTrail(d, cmdline, f) == [])
      && (e == SCRATCH ==> HookTrail(d, cmdline, f) == ScratchRun(d, HookArgs(cmdline).basis, f).trail)
      && (ValidName(e) ==> HookTrail(d, cmdline, f) == PersistentRun(d, "@" + e, f).trail)
  {
    hide HookArgs, GoodTemplate, CmdlineOf, GoSubvol, ScratchRun, PersistentRun, ValidName;
    assert EntryOk(e, d.entries[e]);
    EntryKinds(d, e);
    assert RUNTIME != "" && BASELINE != "" && SCRATCH != RESCUE;
    if ValidName(e) {
      SlateReads(e);
    }
  }

  lemma PruneKeepsStaged(d: Disk, n: string, f: DeleteFaults)
    requires Sound(d) && ValidName(n)
    ensures forall i | 0 <= i < |PruneTrail(d, "@" + n, f)| :: PruneTrail(d, "@" + n, f)[i].staged == d.staged
  {
    hide Sound, PruneTrail, HookDrop;
    PruneSafe(d, n, f);
  }

  ghost predicate SameStaged(d: Disk, trail: seq<Disk>) {
    forall i | 0 <= i < |trail| :: trail[i].staged == d.staged
  }

  lemma SameStagedConcat(d: Disk, a: seq<Disk>, b: seq<Disk>)
    requires SameStaged(d, a) && SameStaged(End(d, a), b)
    ensures SameStaged(d, a + b)
  {
  }

  lemma CheckpointKeepsStaged(d: Disk, n: string, f: HookFaults)
    requires Sound(d) && ValidName(n)
    ensures SameStaged(d, CheckpointTrail(d, "@" + n, f))
  {
    hide Sound, PruneTrail, HookAutoOn, AutoName;
    var c := AutoTrail(d, "@" + n, f);
    AutoSafe(d, n, f);
    EndSafe(d, c, n, AutoTaken(f));
    PruneKeepsStaged(End(d, c), n, f.deletes);
    SameStagedConcat(d, c, PruneTrail(End(d, c), "@" + n, f.deletes));
  }

  // What is staged for another slate stays staged.
  lemma OtherBootKeepsStaged(d: Disk, n: string, f: HookFaults)
    requires Sound(d) && ValidName(n) && StagedSlate(d) != "@" + n
    ensures SameStaged(d, PersistentRun(d, "@" + n, f).trail)
  {
    hide Sound, CheckpointTrail, ValidSubvol, KeepAndReplace;
    var e := EnsureRun(d, "@" + n, f);
    var d1 := End(d, e.trail);
    EnsureSafe(d, n, f);
    EndSafe(d, e.trail, n, 0);
    SafeIsSound(d, d1, n, 0);
    assert d1.staged == d.staged;
    assert ApplyRun(d1, "@" + n, f) == Run([], false);
    CheckpointKeepsStaged(d1, n, f);
    SameStagedConcat(d, e.trail, CheckpointTrail(d1, "@" + n, f));
    assert e.trail + [] == e.trail;
  }

  lemma SlateBootKeeps(s: State, e: Event, x: Disk, m: string, n: string)
    requires s.session.Off? && Boots(e, m) && ValidName(m) && ValidName(n)
    requires Safe(s.disk, x, m, Taken(s.disk, m, e.hookFaults))
    requires StagedSlate(s.disk) != "@" + m ==> x.staged == s.disk.staged
    ensures Keeps(s, e, x, n)
  {
    hide Sound, Only, KeepsWork, Room, MaxSeq, StagedSlate, ValidName, PreparedTaken;
    if m != n {
      ValidIsPlain(m);
      ValidIsPlain(n);
      OthersUntouched(s.disk, x, m, n);
      UntouchedIsKept(s.disk, x, n);
    }
  }

  lemma SlateBootDiskOk(d: Disk, x: Disk, m: string, j: nat, baked: Files)
    requires DiskOk(d, baked) && ValidName(m) && Safe(d, x, m, j)
    ensures DiskOk(x, baked)
  {
    hide Sound, KeepsWork, Room, Grows, EntryOk, StagedOk, Family;
    BaselineOutside(m);
    SameStagedOk(d, x);
  }

  lemma SameStagedOk(d: Disk, x: Disk)
    requires StagedOk(d) && (x.staged == d.staged || x.staged == None)
    ensures StagedOk(x)
  {
  }

  lemma BootKeeps(s: State, e: Event, i: nat, n: string, baked: Files)
    requires Inv(s, baked) && ValidName(n) && e.Boot? && i < |Trail(s, e)|
    ensures DiskOk(Trail(s, e)[i], baked) && Keeps(s, e, Trail(s, e)[i], n)
  {
    hide DiskOk, SessionOk, Keeps, HookTrail, CmdlineOf, ValidName, ScratchRun, PersistentRun;
    var d, x := s.disk, Trail(s, e)[i];
    DiskParts(d, baked);
    EntryKinds(d, e.entry);
    BootTrailIs(d, e.entry, e.hookFaults);
    if e.entry == SCRATCH {
      var basis := HookArgs(CmdlineOf(d.entries[e.entry])).basis;
      ScratchRunOnly(d, basis, e.hookFaults);
      ScratchKeeps(s, e, x, n, baked);
    } else if ValidName(e.entry) {
      PersistentSafe(d, e.entry, e.hookFaults);
      if StagedSlate(d) != "@" + e.entry {
        OtherBootKeepsStaged(d, e.entry, e.hookFaults);
      }
      SlateBootKeeps(s, e, x, e.entry, n);
      SlateBootDiskOk(d, x, e.entry, Taken(d, e.entry, e.hookFaults), baked);
    }
  }

  lemma DiskParts(d: Disk, baked: Files)
    requires DiskOk(d, baked)
    ensures Sound(d) && EntriesOk(d) && BASELINE in d.subvols && d.subvols[BASELINE] == Subvol(baked, true)
  {
  }

  lemma ScratchKeeps(s: State, e: Event, x: Disk, n: string, baked: Files)
    requires DiskOk(s.disk, baked) && ValidName(n) && e.Boot? && ScratchOnly(s.disk, x)
    ensures DiskOk(x, baked) && Keeps(s, e, x, n)
  {
    hide Sound, KeepsWork, KeepsKept, Grows, CkptsStay, SlateStays, EntryOk, StagedOk, Family, ValidName;
    BaselineOutside(n);
    SameStagedOk(s.disk, x);
    ScratchUntouched(s.disk, x, n);
    ValidIsPlain(n);
    UntouchedIsKept(s.disk, x, n);
  }

  // -------------------------------------------------------------------------
  // The workload
  // -------------------------------------------------------------------------

  // Only the root and what is nested in it differ.
  ghost predicate RootOnly(d: Disk, x: Disk, root: string) {
    && x.staged == d.staged && x.config == d.config && x.entries == d.entries
    && (forall k | !Within(k, root) :: (k in d.subvols <==> k in x.subvols)
                                       && (k in d.subvols ==> x.subvols[k] == d.subvols[k]))
  }

  lemma WriteRootOnly(d: Disk, root: string, path: string, files: Option<Files>, i: nat)
    requires i < |WriteTrail(d, root, path, files)|
    ensures RootOnly(d, WriteTrail(d, root, path, files)[i], root)
    ensures Within(path, root) && root in d.subvols && !d.subvols[root].ro
  {
    forall k | Within(k, path) && Within(path, root) ensures Within(k, root) {
      WithinOver(k, path, root);
    }
  }

  lemma WithinOver(k: string, p: string, r: string)
    requires Within(k, p) && Within(p, r)
    ensures Within(k, r)
  {
  }

  lemma CkptPathIsTop(k: string)
    ensures CkptPath(k) ==> '/' !in k && '.' in k
  {
    if CkptPath(k) {
      var m := MatchCkpt(k).value;
      MatchSound(k);
      MatchHasDot(k);
      ValidIsPlain(m.slate);
      CkptIsTop(k, m.slate);
    }
  }

  lemma NestedPathSound(path: string, root: string)
    requires Inside(path, root) && |path| > |root| + 1 && (root == RUNTIME || SlatePath(root))
    ensures StorePath(path) && !CkptPath(path)
    ensures '/' in path
  {
    hide MatchCkpt, ValidName;
    SlatePathNoDot(root);
    assert '/' !in RUNTIME;
    TopUnique(path, root);
    InsideHasSlash(path, root);
    CkptPathIsTop(path);
  }

  lemma CkptNameIsTop(n: string, s: nat, c: string)
    requires ValidName(n) && Class(c)
    ensures '/' !in CkptName(n, s, c) && '.' in CkptName(n, s, c)
  {
    hide CkptName;
    CkptPathOf(n, s, c);
  }

  lemma AddedSound(d: Disk, path: string, s: Subvol)
    requires Sound(d) && StorePath(path) && !CkptPath(path) && ('/' in path || path in d.subvols)
    ensures Sound(d.(subvols := d.subvols[path := s]))
  {
    hide CkptName, StorePath, CkptPath;
    var x := d.(subvols := d.subvols[path := s]);
    forall n, q | ValidName(n) ensures !(CkptName(n, q, AUTO) in x.subvols && CkptName(n, q, KEEP) in x.subvols) {
      CkptNameIsTop(n, q, AUTO);
      CkptNameIsTop(n, q, KEEP);
      assert !(CkptName(n, q, AUTO) in d.subvols && CkptName(n, q, KEEP) in d.subvols);
    }
  }

  lemma RootPathSound(root: string)
    requires root == RUNTIME || SlatePath(root)
    ensures StorePath(root) && !CkptPath(root)
  {
    hide MatchCkpt, ValidName;
    SlatePathNoDot(root);
    assert '/' !in RUNTIME && '.' !in RUNTIME;
    CkptPathIsTop(root);
  }

  lemma WriteSound(d: Disk, root: string, path: string, files: Option<Files>, i: nat)
    requires Sound(d) && (root == RUNTIME || SlatePath(root)) && i < |WriteTrail(d, root, path, files)|
    ensures Sound(WriteTrail(d, root, path, files)[i])
  {
    hide Sound, StorePath, CkptPath, SlatePath;
    RootPathSound(root);
    if path != root {
      NestedPathSound(path, root);
    }
    if files.Some? {
      AddedSound(d, path, Subvol(files.value, false));
    } else {
      SoundSubset(d, Remove(d, Tree(d, path)));
    }
  }

  lemma RootTouchesOne(d: Disk, x: Disk, root: string, n: string)
    requires ValidName(n) && RootOnly(d, x, root) && (root == RUNTIME || SlatePath(root))
    ensures CkptsStay(d, x, n) && Grows(d, x, n, 2)
    ensures root != "@" + n ==> AllKept(d, x, n)
  {
    hide MatchCkpt, ValidName, Grows, Top;
    OutsideRuntime(n);
    ValidIsPlain(n);
    RootIsOfSlate(root);
    forall k | CkptOf(k, n) ensures !Within(k, root) {
      if root != RUNTIME {
        CkptIsNotInTree(k, n, root[1..]);
      }
    }
    SameCkpts(d, x, n, 2);
    if root != "@" + n {
      forall k | Family(k, n) ensures !Within(k, root) {
        if root != RUNTIME {
          SlateInFamily(root[1..]);
          FamiliesApart(k, root[1..], n);
        }
      }
      UntouchedIsKept(d, x, n);
    }
  }

  lemma RootIsOfSlate(root: string)
    requires root == RUNTIME || SlatePath(root)
    ensures root != RUNTIME ==> root == "@" + root[1..] && ValidName(root[1..]) && PlainName(root[1..])
  {
    if root != RUNTIME {
      ValidIsPlain(root[1..]);
    }
  }

  lemma BaselineOutsideRoot(root: string)
    requires root == RUNTIME || SlatePath(root)
    ensures !Within(BASELINE, root)
  {
    hide MatchCkpt, ValidName;
    RootIsOfSlate(root);
    InsideHasSlash(BASELINE, root);
    assert '/' !in BASELINE && BASELINE != RUNTIME;
    if root != RUNTIME {
      SlateReads(root[1..]);
    }
  }

  lemma WriteKeeps(s: State, e: Event, i: nat, n: string, baked: Files)
    requires Inv(s, baked) && ValidName(n) && e.Write? && i < |Trail(s, e)|
    ensures DiskOk(Trail(s, e)[i], baked) && Keeps(s, e, Trail(s, e)[i], n)
  {
    hide Sound, KeepsWork, KeepsKept, Grows, CkptsStay, SlateStays, EntryOk, StagedOk, Family, ValidName;
    hide WriteTrail, SlatePath;
    var d, x, root := s.disk, Trail(s, e)[i], s.session.root;
    WriteRootOnly(d, root, e.path, e.files, i);
    WriteSound(d, root, e.path, e.files, i);
    BaselineOutsideRoot(root);
    SameStagedOk(d, x);
    WriteKeptCkpts(d, x, root, n);
  }

  lemma WriteKeptCkpts(d: Disk, x: Disk, root: string, n: string)
    requires ValidName(n) && RootOnly(d, x, root) && (root == RUNTIME || SlatePath(root))
    ensures CkptsStay(d, x, n) && KeepsKept(d, x, n) && Grows(d, x, n, 2)
    ensures root != "@" + n ==> KeepsWork(d, x, n) && SlateStays(d, x, n)
  {
    hide ValidName, Grows, Room, KeepsWork, SlateStays;
    RootTouchesOne(d, x, root, n);
  }

  // -------------------------------------------------------------------------
  // Settings, staging
  // -------------------------------------------------------------------------

  lemma SameSubvolsKept(d: Disk, x: Disk, n: string)
    requires ValidName(n) && x.subvols == d.subvols
    ensures AllKept(d, x, n) && (Sound(d) ==> Sound(x))
  {
    hide Family, ValidName;
    ValidIsPlain(n);
    UntouchedIsKept(d, x, n);
    if Sound(d) {
      SoundSubset(d, x);
    }
  }

  lemma ConfigureKeeps(s: State, e: Event, i: nat, n: string, baked: Files)
    requires Inv(s, baked) && ValidName(n) && e.Configure? && i < |Trail(s, e)|
    ensures DiskOk(Trail(s, e)[i], baked) && Keeps(s, e, Trail(s, e)[i], n)
  {
    hide Sound, KeepsWork, KeepsKept, Grows, CkptsStay, SlateStays, EntryOk, StagedOk, ValidName;
    SameSubvolsKept(s.disk, Trail(s, e)[i], n);
    SameStagedOk(s.disk, Trail(s, e)[i]);
  }

  lemma EmptyStaged(d: Disk)
    requires d.staged == Some("")
    ensures StagedOk(d)
  {
    EmptyField("slate");
  }

  lemma EmptyField(key: string)
    ensures HookField("", key) == ""
  {
    var lines := Split("", '\n');
    assert lines == [""] && lines[1..] == [];
    assert Hit("", key + "=") == [] && SedPrint(lines[1..], key + "=") == [];
    assert SedPrint(lines, key + "=") == [];
  }

  // The staged text says what was staged.
  lemma StagedReads(d: Disk, p: Pending)
    requires d.staged == Some(StagedText(p)) && Free(p.slate, '\n') && Free(p.source, '\n')
    ensures StagedSlate(d) == p.slate && StagedSource(d) == p.source
  {
    hide HookField, StagedText;
    StagedRoundTrip(p);
  }

  predicate Stageable(p: Pending) {
    Free(p.slate, '\n') && Free(p.source, '\n') && p.slate != p.source && !ReservedSubvol(p.slate)
  }

  lemma FoundIsStageable(d: Disk, c: string)
    requires Sound(d) && c in d.subvols && MatchCkpt(c).Some?
    ensures Stageable(RollbackTo(c))
  {
    hide Ref, MatchCkpt;
    var m := MatchCkpt(c).value;
    MatchSound(c);
    CkptText(c, m);
    if '/' in c {
      SlashedNotReserved("@" + m.slate);
    } else {
      TopCkptOfSlate(d, c);
    }
  }

  lemma SlashedNotReserved(s: string)
    requires '/' in s
    ensures !ReservedSubvol(s)
  {
    assert '/' !in BASELINE && '/' !in RUNTIME && '/' !in HOSTID;
  }

  lemma TopCkptOfSlate(d: Disk, c: string)
    requires Sound(d) && c in d.subvols && MatchCkpt(c).Some? && '/' !in c
    ensures !ReservedSubvol("@" + MatchCkpt(c).value.slate)
  {
    hide MatchCkpt, ValidName;
    assert StorePath(c);
    MatchHasDot(c);
    SlatePathNoDot(c);
    DottedNotReserved(c);
    assert ValidName(MatchCkpt(c).value.slate);
    SlateNotReserved(MatchCkpt(c).value.slate);
  }

  lemma DottedNotReserved(s: string)
    requires '.' in s
    ensures !ReservedSubvol(s)
  {
    assert '.' !in BASELINE && '.' !in RUNTIME && '.' !in HOSTID;
  }

  lemma SlateNotReserved(n: string)
    requires ValidName(n)
    ensures !ReservedSubvol("@" + n)
  {
  }

  lemma CkptText(c: string, m: Match)
    requires Denotes(c, m)
    ensures '\n' !in c && c != "@" + m.slate && ('/' in c ==> '/' in "@" + m.slate)
  {
    assert |c| > |m.slate| + 1;
    assert forall x | x in m.digits :: IsDigit(x);
  }

  lemma ResetIsStageable(n: string)
    requires ValidName(n)
    ensures Stageable(ResetOf(n))
  {
    SlateReads(n);
    ValidNameIsValidSubvol(n);
  }

  lemma StageDiskOk(d: Disk, p: Pending, fault: bool, i: nat, n: string, baked: Files)
    requires DiskOk(d, baked) && ValidName(n) && Stageable(p) && i < |StageRun(d, p, fault).trail|
    ensures DiskOk(StageRun(d, p, fault).trail[i], baked) && AllKept(d, StageRun(d, p, fault).trail[i], n)
    ensures EntryStays(d, StageRun(d, p, fault).trail[i], n)
  {
    hide Sound, EntryOk, ValidName, StagedText, AllKept, StagedSlate, StagedSource;
    var x := StageRun(d, p, fault).trail[i];
    SameSubvolsKept(d, x, n);
    if i == 0 {
      EmptyStaged(x);
    } else {
      StagedReads(x, p);
    }
  }

  lemma StageKeeps(s: State, e: Event, i: nat, n: string, baked: Files)
    requires Inv(s, baked) && ValidName(n) && Stages(e) && i < |Trail(s, e)|
    ensures DiskOk(Trail(s, e)[i], baked) && Keeps(s, e, Trail(s, e)[i], n)
  {
    hide KeepsWork, KeepsKept, Grows, CkptsStay, SlateStays, DiskOk, ValidName, StageRun, Stageable;
    var d := s.disk;
    DiskParts(d, baked);
    if e.RollingBack? {
      var name := if Record(s).Some? then Record(s).value.name else "";
      var c := Find(d, e.ref, name).value;
      FoundIsListed(d, e.ref, name);
      FoundIsStageable(d, c);
      StageDiskOk(d, RollbackTo(c), e.faults.write, i, n, baked);
    } else {
      var m := ResetTarget(Record(s), e.slate);
      ResetIsStageable(m);
      StageDiskOk(d, ResetOf(m), e.faults.write, i, n, baked);
    }
  }

  // -------------------------------------------------------------------------
  // Fork, checkpoint, discard
  // -------------------------------------------------------------------------

  lemma SlateMadeKeeps(d: Disk, src: string, m: string, n: string)
    requires Sound(d) && ValidName(m) && ValidName(n) && CanSnap(d, src, "@" + m)
    ensures AllKept(d, Snap(d, src, "@" + m, false), n)
  {
    hide Sound, ValidName, Grows, KeepsWork, Only, MatchCkpt, Top;
    MakeSafe(d, src, m);
    var x := Snap(d, src, "@" + m, false);
    ValidIsPlain(m);
    ValidIsPlain(n);
    if m == n {
      SlateInFamily(n);
      SameCkpts(d, x, n, 2);
    } else {
      OthersUntouched(d, x, m, n);
      UntouchedIsKept(d, x, n);
    }
  }

  lemma EntryAddedOk(d: Disk, m: string)
    requires EntriesOk(d) && ValidName(m) && TEMPLATE in d.entries
    ensures EntriesOk(d.(entries := d.entries[m := RewriteEntry(d.entries[TEMPLATE], m, "@" + m)]))
  {
    hide HookArgs, CmdlineOf, GoSubvol, GoodTemplate, RewriteEntry;
    NotModes(m);
    TemplateIsGood(d);
    ForkEntryReads(d.entries[TEMPLATE], m);
    var out := RewriteEntry(d.entries[TEMPLATE], m, "@" + m);
    assert EntryOk(m, out) by {
      assert RESCUE != "";
    }
  }

  lemma NotModes(m: string)
    requires ValidName(m)
    ensures m != SCRATCH && m != RESCUE
  {
  }

  lemma TemplateIsGood(d: Disk)
    requires EntriesOk(d) && TEMPLATE in d.entries
    ensures GoodTemplate(d.entries[TEMPLATE])
  {
    hide HookArgs, CmdlineOf, GoSubvol, GoodTemplate;
    assert EntryOk(TEMPLATE, d.entries[TEMPLATE]);
    assert TEMPLATE[0] == 'm' && SCRATCH[0] == 's' && RESCUE[0] == 'r';
  }

  lemma SlateMadeDiskOk(d: Disk, src: string, m: string, baked: Files)
    requires DiskOk(d, baked) && ValidName(m) && CanSnap(d, src, "@" + m)
    ensures DiskOk(Snap(d, src, "@" + m, false), baked)
  {
    hide Sound, EntryOk, StagedOk, ValidName;
    SlateAddedSound(d, m, Subvol(d.subvols[src].files, false));
    SlateReads(m);
    SameStagedOk(d, Snap(d, src, "@" + m, false));
  }

  lemma EntryAddedDiskOk(d: Disk, x: Disk, m: string, baked: Files)
    requires DiskOk(d, baked) && ValidName(m) && TEMPLATE in d.entries
    requires x == d.(entries := d.entries[m := RewriteEntry(d.entries[TEMPLATE], m, "@" + m)])
    ensures DiskOk(x, baked)
  {
    hide Sound, EntryOk, StagedOk, ValidName, RewriteEntry;
    EntryAddedOk(d, m);
    SameStagedOk(d, x);
    SoundSubset(d, x);
  }

  lemma SameKept(d: Disk, y: Disk, x: Disk, n: string)
    requires AllKept(d, y, n) && x.subvols == y.subvols
    ensures AllKept(d, x, n)
  {
    assert Seqs(x, n) == Seqs(y, n);
  }

  lemma KeptGives(s: State, e: Event, x: Disk, n: string)
    requires AllKept(s.disk, x, n) && x.staged == s.disk.staged && EntryStays(s.disk, x, n)
    ensures Keeps(s, e, x, n)
  {
    hide KeepsWork, KeepsKept, Grows, CkptsStay, SlateStays;
  }

  predicate ForkedBy(d: Disk, x: Disk, src: string, name: string) {
    ValidName(name) && CanSnap(d, src, "@" + name) && x == Snap(d, src, "@" + name, false)
  }

  predicate EntryWritten(x: Disk, y: Disk, name: string) {
    && TEMPLATE in x.entries
    && y == x.(entries := x.entries[name := RewriteEntry(x.entries[TEMPLATE], name, "@" + name)])
  }

  lemma ForkTrailIs(d: Disk, b: Option<Booted>, name: string, from: string, bls: bool, f: CliFaults)
    requires ForkRun(d, b, name, from, bls, f).trail != []
    ensures var t, src := ForkRun(d, b, name, from, bls, f).trail, ForkSource(d, b, from);
      && src.Ok? && ForkedBy(d, t[0], src.value, name) && |t| <= 2
      && (|t| == 2 ==> EntryWritten(t[0], t[1], name))
  {
    hide ValidName, ForkSource, RewriteEntry;
  }

  lemma ForkedKeeps(d: Disk, x: Disk, src: string, name: string, n: string, baked: Files)
    requires DiskOk(d, baked) && ValidName(n) && ForkedBy(d, x, src, name)
    ensures DiskOk(x, baked) && AllKept(d, x, n) && x.staged == d.staged && EntryStays(d, x, n)
  {
    hide DiskOk, AllKept, ValidName;
    DiskParts(d, baked);
    SlateMadeKeeps(d, src, name, n);
    SlateMadeDiskOk(d, src, name, baked);
  }

  lemma EntryWrittenKeeps(d: Disk, x: Disk, y: Disk, name: string, n: string, baked: Files)
    requires DiskOk(x, baked) && AllKept(d, x, n) && x.staged == d.staged && EntryStays(d, x, n)
    requires ValidName(name) && EntryWritten(x, y, name)
    ensures DiskOk(y, baked) && AllKept(d, y, n) && y.staged == d.staged && EntryStays(d, y, n)
  {
    hide DiskOk, AllKept, ValidName, RewriteEntry;
    EntryAddedDiskOk(x, y, name, baked);
    SameKept(d, x, y, n);
  }

  lemma ForkDiskKeeps(d: Disk, b: Option<Booted>, name: string, from: string, bls: bool, f: CliFaults,
                      i: nat, n: string, baked: Files)
    requires DiskOk(d, baked) && ValidName(n) && i < |ForkRun(d, b, name, from, bls, f).trail|
    ensures var x := ForkRun(d, b, name, from, bls, f).trail[i];
            DiskOk(x, baked) && AllKept(d, x, n) && x.staged == d.staged && EntryStays(d, x, n)
  {
    hide DiskOk, ValidName, ForkSource, AllKept, ForkRun, ForkedBy, EntryWritten;
    var t := ForkRun(d, b, name, from, bls, f).trail;
    ForkTrailIs(d, b, name, from, bls, f);
    var src := ForkSource(d, b, from).value;
    ForkedKeeps(d, t[0], src, name, n, baked);
    if i == 1 {
      ForkedIsValid(d, t[0], src, name);
      EntryWrittenKeeps(d, t[0], t[1], name, n, baked);
    }
  }

  lemma ForkedIsValid(d: Disk, x: Disk, src: string, name: string)
    requires ForkedBy(d, x, src, name)
    ensures ValidName(name)
  {
  }

  lemma ForkKeeps(s: State, e: Event, i: nat, n: string, baked: Files)
    requires Inv(s, baked) && ValidName(n) && e.Forking? && i < |Trail(s, e)|
    ensures DiskOk(Trail(s, e)[i], baked) && Keeps(s, e, Trail(s, e)[i], n)
  {
    hide DiskOk, ValidName, AllKept, Keeps, ForkRun, Record;
    ForkDiskKeeps(s.disk, Record(s), e.name, e.from, e.bls, e.faults, i, n, baked);
    KeptGives(s, e, Trail(s, e)[i], n);
  }

  lemma CkptGrowsAlways(d: Disk, src: string, n: string, c: string)
    requires Sound(d) && ValidName(n) && Class(c) && CanSnap(d, src, CkptName(n, MaxSeq(d, n) + 1, c))
    ensures Grows(d, Snap(d, src, CkptName(n, MaxSeq(d, n) + 1, c), true), n, 2)
  {
    hide Sound, MaxSeq, CkptName, MatchCkpt;
    CkptPathOf(n, MaxSeq(d, n) + 1, c);
    CkptAddedGrows(d, n, CkptName(n, MaxSeq(d, n) + 1, c), Subvol(d.subvols[src].files, true));
  }

  lemma CkptMadeKeeps(d: Disk, m: string, c: string, n: string)
    requires Sound(d) && ValidName(m) && ValidName(n) && Class(c)
    requires CanSnap(d, "@" + m, CkptName(m, MaxSeq(d, m) + 1, c))
    ensures AllKept(d, Snap(d, "@" + m, CkptName(m, MaxSeq(d, m) + 1, c), true), n)
  {
    hide Sound, ValidName, Grows, KeepsWork, Only, MatchCkpt, Top, MaxSeq, CkptName, Room;
    CkptSafe(d, "@" + m, m, c);
    var x := Snap(d, "@" + m, CkptName(m, MaxSeq(d, m) + 1, c), true);
    ValidIsPlain(m);
    ValidIsPlain(n);
    if m == n {
      CkptGrowsAlways(d, "@" + n, n, c);
    } else {
      OthersUntouched(d, x, m, n);
      UntouchedIsKept(d, x, n);
    }
  }

  lemma CkptMadeDiskOk(d: Disk, m: string, c: string, baked: Files)
    requires DiskOk(d, baked) && ValidName(m) && Class(c)
    requires CanSnap(d, "@" + m, CkptName(m, MaxSeq(d, m) + 1, c))
    ensures DiskOk(Snap(d, "@" + m, CkptName(m, MaxSeq(d, m) + 1, c), true), baked)
  {
    hide Sound, EntryOk, StagedOk, ValidName, MaxSeq, CkptName;
    CkptAddedSound(d, m, c, Subvol(d.subvols["@" + m].files, true));
    SameStagedOk(d, Snap(d, "@" + m, CkptName(m, MaxSeq(d, m) + 1, c), true));
  }

  lemma CheckpointTrailIs(d: Disk, n: string, message: string, allow: bool, f: CliFaults)
    requires CheckpointRun(d, n, message, allow, f).trail != []
    ensures var c := if message == "" then AUTO else KEEP;
      && ValidName(n) && CanSnap(d, "@" + n, CkptName(n, MaxSeq(d, n) + 1, c))
      && CheckpointRun(d, n, message, allow, f).trail == [Snap(d, "@" + n, CkptName(n, MaxSeq(d, n) + 1, c), true)]
  {
    hide ValidName, MaxSeq, CkptName, NestedPaths;
  }

  lemma CheckpointDiskKeeps(d: Disk, m: string, message: string, allow: bool, f: CliFaults, n: string, baked: Files)
    requires DiskOk(d, baked) && ValidName(n) && CheckpointRun(d, m, message, allow, f).trail != []
    ensures var t := CheckpointRun(d, m, message, allow, f).trail;
            |t| == 1 && DiskOk(t[0], baked) && AllKept(d, t[0], n) && t[0].staged == d.staged && EntryStays(d, t[0], n)
  {
    hide DiskOk, ValidName, MaxSeq, CkptName, AllKept, CheckpointRun, CanSnap;
    DiskParts(d, baked);
    CheckpointTrailIs(d, m, message, allow, f);
    var c := if message == "" then AUTO else KEEP;
    CkptMadeKeeps(d, m, c, n);
    CkptMadeDiskOk(d, m, c, baked);
  }

  lemma CheckpointKeeps(s: State, e: Event, i: nat, n: string, baked: Files)
    requires Inv(s, baked) && ValidName(n) && e.Checkpointing? && i < |Trail(s, e)|
    ensures DiskOk(Trail(s, e)[i], baked) && Keeps(s, e, Trail(s, e)[i], n)
  {
    hide DiskOk, ValidName, AllKept, Keeps, CheckpointRun, Record;
    var m := Record(s).value.name;
    CheckpointDiskKeeps(s.disk, m, MessageOr(e.message), e.allowIncomplete, e.faults, n, baked);
    KeptGives(s, e, Trail(s, e)[i], n);
  }

  lemma ShrunkDiskOk(d: Disk, x: Disk, m: string, baked: Files)
    requires DiskOk(d, baked) && ValidName(m) && FamilyShrunk(d, x, m)
    ensures DiskOk(x, baked)
  {
    hide Sound, EntryOk, StagedOk, ValidName, Family;
    SoundSubset(d, x);
    BaselineOutside(m);
    SameStagedOk(d, x);
  }

  lemma ShrunkKeeps(d: Disk, x: Disk, m: string, n: string)
    requires ValidName(m) && ValidName(n) && m != n
    requires forall k | k in x.subvols :: k in d.subvols && x.subvols[k] == d.subvols[k]
    requires forall k | k in d.subvols && !Family(k, m) :: k in x.subvols
    ensures AllKept(d, x, n)
  {
    hide ValidName, Family;
    ValidIsPlain(m);
    ValidIsPlain(n);
    OthersUntouched(d, x, m, n);
    UntouchedIsKept(d, x, n);
  }

  lemma EntryDroppedDiskOk(d: Disk, m: string, fault: bool, baked: Files)
    requires DiskOk(d, baked) && ValidName(m) && DropEntry(d, m, fault) != []
    ensures DiskOk(DropEntry(d, m, fault)[0], baked)
  {
    hide Sound, EntryOk, StagedOk, ValidName;
    NotModes(m);
    SoundSubset(d, DropEntry(d, m, fault)[0]);
    SameStagedOk(d, DropEntry(d, m, fault)[0]);
  }

  // A change of the discard command shrinks the family; the last may drop the boot entry besides.
  ghost predicate WithoutFamily(d: Disk, x: Disk, m: string, bls: bool) {
    && x.staged == d.staged && (forall e | e in d.entries && (e != m || !bls) :: e in x.entries)
    && (forall k | k in x.subvols :: k in d.subvols && x.subvols[k] == d.subvols[k])
    && (forall k | k in d.subvols && !Family(k, m) :: k in x.subvols)
  }

  lemma ShrunkWithout(d: Disk, x: Disk, m: string, bls: bool, baked: Files)
    requires DiskOk(d, baked) && ValidName(m) && FamilyShrunk(d, x, m)
    ensures DiskOk(x, baked) && WithoutFamily(d, x, m, bls)
  {
    hide DiskOk, Family, ValidName;
    ShrunkDiskOk(d, x, m, baked);
  }

  lemma DiscardTrailAt(d: Disk, b: Option<Booted>, m: string, bls: bool, f: CliFaults, i: nat)
    requires i < |DiscardCommand(d, b, m, bls, f).trail|
    ensures var r, t := DiscardRun(d, b, m, f.deletes), DiscardCommand(d, b, m, bls, f).trail;
      && ValidName(m)
      && (i < |r.trail| ==> t[i] == r.trail[i])
      && (i >= |r.trail| ==> bls && DropEntry(End(d, r.trail), m, f.entry) == [t[i]])
  {
    hide ValidName, DiscardRun;
    DiscardNamesSlate(d, b, m, f.deletes);
  }

  lemma DiscardTrailIs(d: Disk, b: Option<Booted>, m: string, bls: bool, f: CliFaults, i: nat, baked: Files)
    requires DiskOk(d, baked) && i < |DiscardCommand(d, b, m, bls, f).trail|
    ensures var x := DiscardCommand(d, b, m, bls, f).trail[i];
            ValidName(m) && DiskOk(x, baked) && WithoutFamily(d, x, m, bls)
  {
    hide DiskOk, ValidName, DiscardRun, FamilyShrunk, WithoutFamily, DropEntry, DiscardCommand, End;
    var r := DiscardRun(d, b, m, f.deletes);
    DiskParts(d, baked);
    DiscardTrailAt(d, b, m, bls, f, i);
    DiscardOnly(d, b, m, f.deletes);
    if i < |r.trail| {
      ShrunkWithout(d, r.trail[i], m, bls, baked);
    } else {
      var y := End(d, r.trail);
      ShrunkWithout(d, y, m, bls, baked);
      EntryDroppedDiskOk(y, m, f.entry, baked);
      EntryDroppedWithout(d, y, m, f.entry);
    }
  }

  lemma EntryDroppedWithout(d: Disk, y: Disk, m: string, fault: bool)
    requires WithoutFamily(d, y, m, true) && DropEntry(y, m, fault) != []
    ensures WithoutFamily(d, DropEntry(y, m, fault)[0], m, true)
  {
  }

  lemma DiscardKeeps(s: State, e: Event, i: nat, n: string, baked: Files)
    requires Inv(s, baked) && ValidName(n) && e.Discarding? && i < |Trail(s, e)|
    ensures DiskOk(Trail(s, e)[i], baked) && Keeps(s, e, Trail(s, e)[i], n)
  {
    hide DiskOk, ValidName, DiscardCommand, KeepsWork, KeepsKept, Grows, CkptsStay, SlateStays, Record, Family;
    DiscardTrailIs(s.disk, Record(s), e.name, e.bls, e.faults, i, baked);
    if e.name != n {
      ShrunkKeeps(s.disk, Trail(s, e)[i], e.name, n);
    }
  }

  lemma DiscardNamesSlate(d: Disk, b: Option<Booted>, m: string, f: DeleteFaults)
    ensures DiscardRun(d, b, m, f).trail != [] || DiscardRun(d, b, m, f).error == None ==> ValidName(m)
  {
    hide ValidName, DeleteList, Listed;
  }

  // -------------------------------------------------------------------------
  // All events
  // -------------------------------------------------------------------------

  // Every change any event makes keeps the invariant and, for every slate, what Keeps says.
  lemma TrailKeeps(s: State, e: Event, i: nat, n: string, baked: Files)
    requires Inv(s, baked) && ValidName(n) && i < |Trail(s, e)|
    ensures DiskOk(Trail(s, e)[i], baked) && Keeps(s, e, Trail(s, e)[i], n)
  {
    hide Inv, Keeps, DiskOk, ValidName;
    match e
    case Boot(_, _) => BootKeeps(s, e, i, n, baked);
    case PowerOff =>
    case Write(_, _) => WriteKeeps(s, e, i, n, baked);
    case Configure(_) => ConfigureKeeps(s, e, i, n, baked);
    case Forking(_, _, _, _) => ForkKeeps(s, e, i, n, baked);
    case Checkpointing(_, _, _) => CheckpointKeeps(s, e, i, n, baked);
    case RollingBack(_, _) => StageKeeps(s, e, i, n, baked);
    case Resetting(_, _) => StageKeeps(s, e, i, n, baked);
    case Discarding(_, _, _) => DiscardKeeps(s, e, i, n, baked);
  }
}
