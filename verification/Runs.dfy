/** What holds over whole runs: any sequence of boots, power losses at any point, failing commands,
    workload writes and commands. */
module Runs {
  import opened Text
  import opened Decimal
  import opened Names
  import opened Staged
  import opened Config
  import opened Entries
  import opened EntryFile
  import opened Store
  import opened Checkpoints
  import opened Hook
  import opened HookSafety
  import opened BootSpec
  import opened Ops
  import opened OpsLaws
  import opened Machine
  import opened Steps

  // -------------------------------------------------------------------------
  // One step
  // -------------------------------------------------------------------------

  lemma NextDisk(s: State, step: Step)
    ensures var t, x := Trail(s, step.event), Next(s, step).disk;
            x == s.disk || exists i | 0 <= i < |t| :: t[i] == x
  {
    hide Trail, SessionAfter;
    var t, x := Trail(s, step.event), Next(s, step).disk;
    if step.cut.Some? {
      var p := Prefix(t, step.cut.value);
      assert p != [] ==> t[|p| - 1] == x;
    } else {
      assert t != [] ==> t[|t| - 1] == x;
    }
  }

  // Power that fails after k changes of the store leaves it as after exactly those.
  lemma PowerFailsAfter(s: State, e: Event, k: nat)
    ensures var t, s1 := Trail(s, e), Next(s, Step(e, Some(k)));
      && s1.session == Off
      && s1.disk == (if k == 0 || t == [] then s.disk else if k < |t| then t[k - 1] else t[|t| - 1])
  {
    hide Trail, SessionAfter;
  }

  lemma DiscardTrail(s: State, m: string, bls: bool, f: CliFaults)
    requires s.session.Up?
    ensures Trail(s, Discarding(m, bls, f)) == DiscardCommand(s.disk, Record(s), m, bls, f).trail
    ensures SessionAfter(s, Discarding(m, bls, f)) == s.session
  {
    hide DiscardCommand, Record;
  }

  // A step that changes the store: a command that is refused, a boot that cannot start or power
  // failing at once do not.
  ghost predicate Changes(s: State, step: Step) { Next(s, step).disk != s.disk }

  ghost predicate DiscardsAt(s: State, step: Step, n: string) {
    Discards(step.event, n) && Changes(s, step)
  }

  ghost predicate BootsAt(s: State, step: Step, n: string) { Boots(step.event, n) && Changes(s, step) }

  ghost predicate StagesAt(s: State, step: Step) { Stages(step.event) && Changes(s, step) }

  ghost predicate WritesAt(s: State, step: Step, n: string) {
    WritesTo(s, step.event, n) && Changes(s, step)
  }

  ghost predicate DropsEntryAt(s: State, step: Step, n: string) {
    DiscardsAt(s, step, n) && step.event.bls
  }

  // A boot of n that changes the store has room for the numbers it takes.
  ghost predicate RoomAt(s: State, step: Step, n: string) {
    BootsAt(s, step, n) ==> Room(s.disk, n, Taken(s.disk, n, step.event.hookFaults))
  }

  // What a step keeps of slate n.
  ghost predicate StepKeeps(s: State, step: Step, n: string) {
    var d, x := s.disk, Next(s, step).disk;
    && (!DiscardsAt(s, step, n) ==> KeepsKept(d, x, n) && (RoomAt(s, step, n) ==> Grows(d, x, n, 2)))
    && (!DiscardsAt(s, step, n) && !WritesAt(s, step, n) ==> KeepsWork(d, x, n))
    && (!DiscardsAt(s, step, n) && !BootsAt(s, step, n) ==> CkptsStay(d, x, n))
    && (!DiscardsAt(s, step, n) && !BootsAt(s, step, n) && !WritesAt(s, step, n) ==> SlateStays(d, x, n))
    && (!DropsEntryAt(s, step, n) ==> EntryStays(d, x, n))
    && (!StagesAt(s, step) ==> StagedKept(d, x, step.event))
  }

  lemma StandingStillKeeps(s: State, step: Step, n: string)
    requires ValidName(n) && !Changes(s, step)
    ensures StepKeeps(s, step, n)
  {
    hide KeepsWork, KeepsKept, Grows, CkptsStay, SlateStays, ValidName, Room;
    SameSubvolsKept(s.disk, s.disk, n);
  }

  lemma ChangingKeeps(s: State, step: Step, n: string)
    requires Changes(s, step) && Keeps(s, step.event, Next(s, step).disk, n)
    ensures StepKeeps(s, step, n)
  {
    hide KeepsWork, KeepsKept, Grows, CkptsStay, SlateStays, Room, Next, EntryStays, StagedKept;
  }

  // The hook leaves a session whose record is true.
  lemma BootedSessionOk(s: State, e: Event, baked: Files)
    requires Inv(s, baked) && e.Boot?
    ensures SessionOk(SessionAfter(s, e))
  {
    hide HookTrail, CmdlineOf, ValidName, PersistentRun, PreparedRun, CkptFact, ScratchRun, Sound, WriteFacts,
         HookArgs, GoSubvol, GoodTemplate, RecordTrue;
    var d := s.disk;
    if s.session.Off? && e.entry in d.entries {
      EntryKinds(d, e.entry);
      assert EntryOk(e.entry, d.entries[e.entry]);
      if ValidName(e.entry) {
        var t := "@" + e.entry;
        SlateReads(e.entry);
        assert t[1..] == e.entry;
        var ckpt := CkptFact(End(d, PreparedRun(d, t, e.hookFaults).trail), t, e.hookFaults);
        HookRecordsTruth(e.entry, ckpt, e.hookFaults.lostFacts);
      } else {
        ReservedNoSlate();
      }
    }
  }

  lemma ReservedNoSlate()
    ensures !SlatePath(BASELINE) && !SlatePath(RUNTIME)
  {
    assert "@" + BASELINE[1..] == BASELINE && "@" + RUNTIME[1..] == RUNTIME;
  }

  lemma TemplateIsValid()
    ensures ValidName(TEMPLATE)
  {
    assert TEMPLATE[0] == 'm';
  }

  // Every step keeps the invariant and what StepKeeps says of each slate.
  lemma NextKeeps(s: State, step: Step, n: string, baked: Files)
    requires Inv(s, baked) && ValidName(n)
    ensures Inv(Next(s, step), baked) && StepKeeps(s, step, n)
  {
    hide Keeps, DiskOk, SessionOk, ValidName, Trail, Next, SessionAfter, StepKeeps;
    var e, x := step.event, Next(s, step).disk;
    NextDisk(s, step);
    if x == s.disk {
      StandingStillKeeps(s, step, n);
    } else {
      var i :| 0 <= i < |Trail(s, e)| && Trail(s, e)[i] == x;
      TrailKeeps(s, e, i, n, baked);
      ChangingKeeps(s, step, n);
    }
    NextSessionOk(s, step, baked);
  }

  lemma NextSessionOk(s: State, step: Step, baked: Files)
    requires Inv(s, baked)
    ensures SessionOk(Next(s, step).session)
  {
    hide SlatePath, GoSubvol, RecordTrue, DiskOk, Trail, HookOutcome;
    if step.event.Boot? {
      BootedSessionOk(s, step.event, baked);
    }
  }

  // The invariant holds in every state a run reaches.
  lemma {:induction false} RunKeepsInv(s: State, steps: seq<Step>, baked: Files)
    requires Inv(s, baked)
    ensures Inv(Exec(s, steps), baked)
    decreases |steps|
  {
    hide Inv, Next;
    if steps != [] {
      TemplateIsValid();
      NextKeeps(s, steps[0], TEMPLATE, baked);
      RunKeepsInv(Next(s, steps[0]), steps[1..], baked);
    }
  }

  // -------------------------------------------------------------------------
  // No work is lost
  // -------------------------------------------------------------------------

  // No step discards n or a part of it.
  ghost predicate NoDiscard(s: State, steps: seq<Step>, n: string)
    decreases |steps|
  {
    steps == [] || (!DiscardsAt(s, steps[0], n) && NoDiscard(Next(s, steps[0]), steps[1..], n))
  }

  // Nor does the workload write to n.
  ghost predicate NoWrite(s: State, steps: seq<Step>, n: string)
    decreases |steps|
  {
    steps == [] || (!WritesAt(s, steps[0], n) && NoWrite(Next(s, steps[0]), steps[1..], n))
  }

  // The events alone can rule a discard out.
  lemma {:induction false} NeverNamed(s: State, steps: seq<Step>, n: string)
    requires forall i | 0 <= i < |steps| :: !Discards(steps[i].event, n)
    ensures NoDiscard(s, steps, n)
    decreases |steps|
  {
    hide Next;
    if steps != [] {
      assert forall i | 0 <= i < |steps[1..]| :: steps[1..][i] == steps[i + 1];
      NeverNamed(Next(s, steps[0]), steps[1..], n);
    }
  }

  // What a kept checkpoint of n holds is held until n is discarded.
  lemma {:induction false} KeptForGood(s: State, steps: seq<Step>, n: string, files: Files, baked: Files)
    requires Inv(s, baked) && ValidName(n) && NoDiscard(s, steps, n) && KeptIn(s.disk, n, files)
    ensures KeptIn(Exec(s, steps).disk, n, files)
    decreases |steps|
  {
    hide Inv, Next, KeptIn, ValidName;
    if steps != [] {
      var s1 := Next(s, steps[0]);
      NextKeeps(s, steps[0], n, baked);
      KeptInOver(s.disk, s1.disk, n, files);
      KeptForGood(s1, steps[1..], n, files, baked);
    }
  }

  // As long as the workload leaves a slate alone its files stay on it or in a kept checkpoint,
  // whatever boots, fails, crashes or is staged.
  lemma {:induction false} NoWorkLost(s: State, steps: seq<Step>, n: string, files: Files, baked: Files)
    requires Inv(s, baked) && ValidName(n) && NoDiscard(s, steps, n) && NoWrite(s, steps, n)
    requires HasWork(s.disk, n, files)
    ensures HasWork(Exec(s, steps).disk, n, files)
    decreases |steps|
  {
    hide Inv, Next, HasWork, ValidName;
    if steps != [] {
      var s1 := Next(s, steps[0]);
      NextKeeps(s, steps[0], n, baked);
      HasWorkOver(s.disk, s1.disk, n, files);
      NoWorkLost(s1, steps[1..], n, files, baked);
    }
  }

  // The files a slate held when it was booted, if the boot changed them, stay in a kept checkpoint
  // through every later run without a discard, even when power failed during the boot.
  lemma ReplacedWorkIsKept(s: State, f: HookFaults, cut: Option<nat>, steps: seq<Step>, n: string, baked: Files)
    requires Inv(s, baked) && ValidName(n) && "@" + n in s.disk.subvols
    requires NoDiscard(Next(s, Step(Boot(n, f), cut)), steps, n)
    ensures var files := s.disk.subvols["@" + n].files;
            var s1 := Next(s, Step(Boot(n, f), cut));
            (!("@" + n in s1.disk.subvols && s1.disk.subvols["@" + n].files == files) ==>
               KeptIn(Exec(s1, steps).disk, n, files))
  {
    hide Inv, Next, KeptIn, ValidName;
    var files := s.disk.subvols["@" + n].files;
    var step := Step(Boot(n, f), cut);
    var s1 := Next(s, step);
    NextKeeps(s, step, n, baked);
    if KeptIn(s1.disk, n, files) {
      KeptForGood(s1, steps, n, files, baked);
    }
  }

  // The same for the checkpoints themselves, and the boot entry.
  lemma {:induction false} KeptCkptsStay(s: State, steps: seq<Step>, n: string, baked: Files)
    requires Inv(s, baked) && ValidName(n) && NoDiscard(s, steps, n)
    ensures KeepsKept(s.disk, Exec(s, steps).disk, n) && EntryStays(s.disk, Exec(s, steps).disk, n)
    decreases |steps|
  {
    hide Inv, Next, ValidName, KeepCkptOf;
    if steps != [] {
      var s1 := Next(s, steps[0]);
      NextKeeps(s, steps[0], n, baked);
      KeptCkptsStay(s1, steps[1..], n, baked);
    }
  }

  // No step discards n together with its boot entry.
  ghost predicate KeepsEntry(s: State, steps: seq<Step>, n: string)
    decreases |steps|
  {
    steps == [] || (!DropsEntryAt(s, steps[0], n) && KeepsEntry(Next(s, steps[0]), steps[1..], n))
  }

  lemma {:induction false} EntryLasts(s: State, steps: seq<Step>, n: string, baked: Files)
    requires Inv(s, baked) && ValidName(n) && KeepsEntry(s, steps, n)
    ensures EntryStays(s.disk, Exec(s, steps).disk, n)
    decreases |steps|
  {
    hide Inv, Next, ValidName;
    if steps != [] {
      NextKeeps(s, steps[0], n, baked);
      EntryLasts(Next(s, steps[0]), steps[1..], n, baked);
    }
  }

  // No step boots, discards or writes to n.
  ghost predicate Leaves(s: State, steps: seq<Step>, n: string)
    decreases |steps|
  {
    steps == [] || (!DiscardsAt(s, steps[0], n) && !BootsAt(s, steps[0], n) && !WritesAt(s, steps[0], n)
                    && Leaves(Next(s, steps[0]), steps[1..], n))
  }

  lemma {:induction false} SlateLeftAlone(s: State, steps: seq<Step>, n: string, baked: Files)
    requires Inv(s, baked) && ValidName(n) && Leaves(s, steps, n)
    ensures SlateStays(s.disk, Exec(s, steps).disk, n) && EntryStays(s.disk, Exec(s, steps).disk, n)
    decreases |steps|
  {
    hide Inv, Next, ValidName;
    if steps != [] {
      NextKeeps(s, steps[0], n, baked);
      SlateLeftAlone(Next(s, steps[0]), steps[1..], n, baked);
    }
  }

  // -------------------------------------------------------------------------
  // Numbers
  // -------------------------------------------------------------------------

  // Whenever n is booted with automatic checkpoints on, some are retained and no number the boot
  // takes reaches 10000.
  ghost predicate Roomy(s: State, steps: seq<Step>, n: string)
    decreases |steps|
  {
    steps == [] || (RoomAt(s, steps[0], n) && Roomy(Next(s, steps[0]), steps[1..], n))
  }

  // The largest number never falls, and a checkpoint found later under a number in use earlier is
  // the very checkpoint that had it.
  lemma {:induction false} NumbersNeverReused(s: State, steps: seq<Step>, n: string, baked: Files)
    requires Inv(s, baked) && ValidName(n) && NoDiscard(s, steps, n) && Roomy(s, steps, n)
    ensures var d, x := s.disk, Exec(s, steps).disk;
      && MaxSeq(d, n) <= MaxSeq(x, n)
      && forall k | k in x.subvols && CkptOf(k, n) && SeqOf(k) <= MaxSeq(d, n) ::
           k in d.subvols && x.subvols[k] == d.subvols[k]
    decreases |steps|
  {
    hide Inv, Next, MaxSeq, ValidName, CkptOf, SeqOf, RoomAt, DiscardsAt;
    if steps != [] {
      var s1 := Next(s, steps[0]);
      NextKeeps(s, steps[0], n, baked);
      NumbersNeverReused(s1, steps[1..], n, baked);
    }
  }

  // In every state a slate and number name at most one checkpoint, and what is printed for a
  // checkpoint finds it again, whatever the default slate.
  lemma RefsIdentify(s: State, n: string, k: string, defaultSlate: string, baked: Files)
    requires Inv(s, baked) && ValidName(n) && k in s.disk.subvols && CkptOf(k, n)
    ensures forall j | j in s.disk.subvols && CkptOf(j, n) && SeqOf(j) == SeqOf(k) :: j == k
    ensures Find(s.disk, n + "." + Pad(SeqOf(k), 1), defaultSlate) == Some(k)
    ensures Find(s.disk, k, defaultSlate) == Some(k)
    ensures Find(s.disk, Pad(SeqOf(k), 1), n) == Some(k)
  {
    hide Sound, Find, CkptOf, SeqOf, ValidName, EntriesOk, StagedOk;
    SlateCkptsAreFound(s.disk, k, n, defaultSlate);
    forall j | j in s.disk.subvols && CkptOf(j, n) && SeqOf(j) == SeqOf(k) ensures j == k {
      SameNumberSameCkpt(s.disk, j, k, n);
    }
  }

  // A reference that names a checkpoint at some time never comes to name another one.
  lemma RefsKeepTheirMeaning(s: State, steps: seq<Step>, n: string, j: string, k: string, baked: Files)
    requires Inv(s, baked) && ValidName(n) && NoDiscard(s, steps, n) && Roomy(s, steps, n)
    requires j in s.disk.subvols && CkptOf(j, n)
    requires k in Exec(s, steps).disk.subvols && CkptOf(k, n) && SeqOf(k) == SeqOf(j)
    ensures k == j && Exec(s, steps).disk.subvols[k] == s.disk.subvols[j]
  {
    hide MaxSeq, ValidName, CkptOf, SeqOf, Roomy, NoDiscard, Exec, Find, EntriesOk, StagedOk, Sound;
    NumbersNeverReused(s, steps, n, baked);
    SeqAtMostMax(s.disk, n, j);
    SameNumberSameCkpt(s.disk, k, j, n);
  }

  // -------------------------------------------------------------------------
  // What is staged
  // -------------------------------------------------------------------------

  // No step boots or discards n or stages anything.
  ghost predicate Waits(s: State, steps: seq<Step>, n: string)
    decreases |steps|
  {
    steps == [] || (!DiscardsAt(s, steps[0], n) && !BootsAt(s, steps[0], n) && !StagesAt(s, steps[0])
                    && Waits(Next(s, steps[0]), steps[1..], n))
  }

  lemma {:induction false} WaitsIsNoDiscard(s: State, steps: seq<Step>, n: string)
    requires Waits(s, steps, n)
    ensures NoDiscard(s, steps, n)
    decreases |steps|
  {
    hide Next;
    if steps != [] {
      WaitsIsNoDiscard(Next(s, steps[0]), steps[1..], n);
    }
  }

  lemma SlatesDiffer(m: string, n: string)
    ensures "@" + m == "@" + n ==> m == n
  {
    assert ("@" + m)[1..] == m && ("@" + n)[1..] == n;
  }

  // A staged replacement and its source checkpoint wait unchanged until the slate is booted:
  // other slates may boot and prune, and power may fail.
  lemma {:induction false} StagedSourceSurvives(s: State, steps: seq<Step>, n: string, c: string, baked: Files)
    requires Inv(s, baked) && ValidName(n) && Waits(s, steps, n)
    requires StagedSlate(s.disk) == "@" + n && c in s.disk.subvols && CkptOf(c, n)
    ensures var x := Exec(s, steps).disk;
            x.staged == s.disk.staged && c in x.subvols && x.subvols[c] == s.disk.subvols[c]
    decreases |steps|
  {
    hide Inv, Next, ValidName, CkptOf;
    if steps != [] {
      var s1, e := Next(s, steps[0]), steps[0].event;
      NextKeeps(s, steps[0], n, baked);
      if e.Boot? {
        SlatesDiffer(e.entry, n);
      }
      assert s1.disk.staged == s.disk.staged;
      StagedSourceSurvives(s1, steps[1..], n, c, baked);
    }
  }
}
