/** Concrete inputs on which a promise fails whose exact condition is proved elsewhere. */
module Shortfalls {
  import opened Text
  import opened Decimal
  import opened Names
  import opened Staged
  import opened Config
  import opened Entries
  import opened EntryFile
  import opened Store
  import opened Checkpoints
  import opened Pruning
  import opened Hook
  import opened HookSafety
  import opened BootSpec
  import opened Ops
  import opened OpsLaws
  import opened Machine
  import opened Steps
  import opened Runs
  import opened Reversal
  import opened RunningRoot
  import opened Forks
  import opened Image

  // -------------------------------------------------------------------------
  // Settings on which the readers differ
  // -------------------------------------------------------------------------

  lemma TwoLines(a: string, b: string)
    requires Free(a, '\n') && Free(b, '\n')
    ensures Split(a + "\n" + b, '\n') == [a, b]
  {
    assert a + "\n" + b == a + ['\n'] + b;
    SplitHead(a, '\n', b);
    SplitWhole(b, '\n');
  }

  lemma RetainLineReads(line: string, v: string)
    requires line == RETAIN_KEY + v && |v| == 1 && IsDigit(v[0])
    ensures Free(line, '\n') && TrimSpace(line) == line && RETAIN_KEY <= line && line[|RETAIN_KEY|..] == v
    ensures GoRetainLine(line) == Some(DigitValue(v[0])) && Value(v) == DigitValue(v[0])
  {
    assert RETAIN_KEY[0] == 'r' && '\n' !in RETAIN_KEY;
    TrimSolid(line);
    OneDigit(v);
    assert line[|RETAIN_KEY|..] == v;
  }

  lemma OneDigit(v: string)
    requires |v| == 1 && IsDigit(v[0])
    ensures Value(v) == DigitValue(v[0]) < 10 && Atoi(v) == Some(DigitValue(v[0]))
  {
    assert v[..0] == "";
  }

  const ONE := "1"
  const TWO := "2"
  const TWO_RETENTIONS := RETAIN_KEY + ONE + "\n" + (RETAIN_KEY + TWO)

  // Two lines that set the retention: Go keeps the first, the hook the last.
  lemma RetentionsDiffer()
    ensures ConfigRetain(Some(TWO_RETENTIONS)) == 1 && HookRetain(Some(TWO_RETENTIONS)) == 2
  {
    var a, b := RETAIN_KEY + ONE, RETAIN_KEY + TWO;
    RetainLineReads(a, ONE);
    RetainLineReads(b, TWO);
    TwoLines(a, b);
    TwoRetained(a, b);
  }

  lemma TwoRetained(a: string, b: string)
    requires RETAIN_KEY <= a && RETAIN_KEY <= b
    requires AllDigits(a[|RETAIN_KEY|..]) && AllDigits(b[|RETAIN_KEY|..])
    requires a[|RETAIN_KEY|..] != "" && b[|RETAIN_KEY|..] != ""
    ensures HookRetainIn([a, b]) == Value(b[|RETAIN_KEY|..])
  {
    assert [a, b][1..] == [b] && [b][1..] == [];
    assert SedRetain([b]) == [b[|RETAIN_KEY|..]] + SedRetain([]);
  }

  const OFF := "off"
  const ON := "on"
  const TWO_SWITCHES := AUTO_KEY + OFF + "\n" + (AUTO_KEY + ON)

  // Two lines that set the switch: Go is off, the hook on.
  lemma SwitchesDiffer()
    ensures GoAutoOff(Split(TWO_SWITCHES, '\n')) && HookAutoOn(Some(TWO_SWITCHES))
  {
    var a, b := AUTO_KEY + OFF, AUTO_KEY + ON;
    AutoLineReads(a, OFF);
    AutoLineReads(b, ON);
    TwoLines(a, b);
    LastPrinted(a, b, AUTO_KEY);
    assert GoAutoOffLine([a, b][0]);
    assert ON[1] == 'n' && !OffWord(ON);
  }

  lemma AutoLineReads(line: string, v: string)
    requires line == AUTO_KEY + v && (v == OFF || v == ON)
    ensures Free(line, '\n') && line[|AUTO_KEY|..] == v && AUTO_KEY <= line
    ensures GoAutoOffLine(line) <==> OffWord(v)
  {
    assert AUTO_KEY[0] == 'a' && '\n' !in AUTO_KEY && v[0] == 'o';
    TrimSolid(line);
    TrimSolid(v);
    assert line[|AUTO_KEY|..] == v;
  }

  lemma LastPrinted(a: string, b: string, key: string)
    requires key <= b
    ensures TailOne(SedPrint([a, b], key)) == b[|key|..]
  {
    assert [a, b] == [a] + [b];
    SedPrintSnoc([a], b, key);
  }

  // -------------------------------------------------------------------------
  // Stores
  // -------------------------------------------------------------------------

  const EMPTY := Disk(map[], None, None, map[])

  function WithSlate(d: Disk, n: string, files: Files): Disk {
    d.(subvols := d.subvols["@" + n := Subvol(files, false)])
  }

  function WithCkpt(d: Disk, n: string, m: nat, c: string, files: Files): Disk {
    d.(subvols := d.subvols[CkptName(n, m, c) := Subvol(files, true)])
  }

  lemma WithCkptSound(d: Disk, n: string, m: nat, c: string, files: Files)
    requires Sound(d) && ValidName(n) && Class(c)
    requires CkptName(n, m, AUTO) !in d.subvols && CkptName(n, m, KEEP) !in d.subvols
    ensures Sound(WithCkpt(d, n, m, c, files))
  {
    hide CkptName, StorePath, Unique, CkptPath;
    CkptPathOf(n, m, c);
    var x := WithCkpt(d, n, m, c, files);
    StaysUnique(d, x, n, m, c);
    forall k | k in x.subvols ensures StorePath(k) && (CkptPath(k) ==> x.subvols[k].ro) {
      assert k != CkptName(n, m, c) ==> k in d.subvols && StorePath(k);
    }
  }

  // A store with a slate and its automatic checkpoints 9999 and 10000.
  function TenThousand(n: string): Disk {
    WithCkpt(WithCkpt(WithSlate(EMPTY, n, map[]), n, 9999, AUTO, map[]), n, 10000, AUTO, map[])
  }

  lemma NamesApart(n: string, m: nat, c: string, m': nat, c': string)
    requires ValidName(n) && Class(c) && Class(c') && (m != m' || c != c')
    ensures CkptName(n, m, c) != CkptName(n, m', c') && CkptName(n, m, c) != "@" + n
  {
    hide CkptName, ValidName;
    CkptPathOf(n, m, c);
    if CkptName(n, m, c) == CkptName(n, m', c') {
      SameCkptName(n, m, n, m', c, c');
    }
  }

  lemma TenThousandSound(n: string)
    requires ValidName(n)
    ensures Sound(TenThousand(n))
    ensures GoAutos(TenThousand(n), n) == {CkptName(n, 9999, AUTO), CkptName(n, 10000, AUTO)}
  {
    hide CkptName, ValidName, Sound, MatchCkpt;
    EmptySound();
    var d := WithSlate(EMPTY, n, map[]);
    SlateAddedSound(EMPTY, n, Subvol(map[], false));
    assert AUTO[0] != KEEP[0];
    NamesApart(n, 9999, AUTO, 9999, KEEP);
    NamesApart(n, 9999, KEEP, 9999, AUTO);
    NamesApart(n, 10000, AUTO, 9999, AUTO);
    NamesApart(n, 10000, KEEP, 9999, AUTO);
    WithCkptSound(d, n, 9999, AUTO, map[]);
    WithCkptSound(WithCkpt(d, n, 9999, AUTO, map[]), n, 10000, AUTO, map[]);
    CkptPathOf(n, 9999, AUTO);
    CkptPathOf(n, 10000, AUTO);
    ValidIsPlain(n);
    ValidNotEmpty(n);
    SlateInFamily(n);
  }

  lemma EmptySound()
    ensures Sound(EMPTY)
  {
  }

  // In it, retaining one, the hook drops the newest checkpoint where Go drops the oldest.
  lemma HookDropsTenThousand(n: string)
    requires ValidName(n)
    ensures Sound(TenThousand(n))
    ensures HookDrop(TenThousand(n), "@" + n, 1) == [CkptName(n, 10000, AUTO)]
    ensures GoDrop(TenThousand(n), n, 1) == [CkptName(n, 9999, AUTO)]
    ensures CkptName(n, 10000, AUTO) != CkptName(n, 9999, AUTO)
  {
    hide CkptName, ValidName, Sound, HookDrop, GoDrop, GoAutos;
    TenThousandSound(n);
    HookDropsNewest(TenThousand(n), n);
    NamesApart(n, 10000, AUTO, 9999, AUTO);
  }

  // With checkpoint 8 the newest, a shell that takes 0008 for octal does not number as Go does.
  lemma EightIsNoOctal(n: string)
    requires ValidName(n)
    ensures var d := WithCkpt(WithSlate(EMPTY, n, map[]), n, 8, KEEP, map[]);
            Sound(d) && MaxSeq(d, n) == 8 && PosixNext(d, "@" + n) != Some(MaxSeq(d, n) + 1)
  {
    hide CkptName, ValidName, Sound, MatchCkpt, SeqOf, PosixNext;
    var s := WithSlate(EMPTY, n, map[]);
    var d := WithCkpt(s, n, 8, KEEP, map[]);
    EmptySound();
    SlateAddedSound(EMPTY, n, Subvol(map[], false));
    NamesApart(n, 8, AUTO, 9, AUTO);
    NamesApart(n, 8, KEEP, 9, KEEP);
    WithCkptSound(s, n, 8, KEEP, map[]);
    CkptPathOf(n, 8, KEEP);
    ValidIsPlain(n);
    SlateInFamily(n);
    assert Seqs(d, n) == {SeqOf(CkptName(n, 8, KEEP))};
    MaxIs(Seqs(d, n), 8);
    PosixNumbersAgree(d, n);
  }

  const FIVE := "5"

  // A slate called 5 beside the checkpoint 5 of another slate n.
  function SlateFive(n: string, files: Files, other: Files): Disk {
    WithCkpt(WithSlate(EMPTY, FIVE, files), n, 5, KEEP, other)
  }

  lemma FiveIsName()
    ensures ValidName(FIVE) && Atoi(FIVE) == Some(5) && FIVE != CURRENT
  {
    assert FIVE[0] == '5';
    assert IsDigit(FIVE[0]);
    OneDigit(FIVE);
  }

  lemma FiveSound(n: string, files: Files, other: Files)
    requires ValidName(n)
    ensures Sound(SlateFive(n, files, other))
  {
    hide CkptName, ValidName, Sound, MatchCkpt;
    FiveIsName();
    EmptySound();
    SlateAddedSound(EMPTY, FIVE, Subvol(files, false));
    CkptIsNoSlate(n, AUTO, FIVE);
    CkptIsNoSlate(n, KEEP, FIVE);
    WithCkptSound(WithSlate(EMPTY, FIVE, files), n, 5, KEEP, other);
  }

  lemma CkptIsNoSlate(n: string, c: string, m: string)
    requires ValidName(n) && ValidName(m) && Class(c)
    ensures CkptName(n, 5, c) != "@" + m
  {
    hide CkptName, ValidName;
    CkptPathOf(n, 5, c);
    SlateIsPath(m);
  }

  // Forking from the slate called 5 forks the checkpoint.
  lemma FiveForksCheckpoint(n: string, files: Files, other: Files, b: Option<Booted>)
    requires ValidName(n)
    ensures var d := SlateFive(n, files, other);
      && Sound(d) && "@" + FIVE in d.subvols && d.subvols["@" + FIVE].files == files
      && ForkSource(d, b, FIVE) == Ok(CkptName(n, 5, KEEP))
      && CkptName(n, 5, KEEP) in d.subvols && d.subvols[CkptName(n, 5, KEEP)].files == other
  {
    hide CkptName, ValidName, Sound, MatchCkpt, SeqOf, ForkSource, Find;
    var d, k := SlateFive(n, files, other), CkptName(n, 5, KEEP);
    FiveIsName();
    FiveSound(n, files, other);
    CkptIsNoSlate(n, KEEP, FIVE);
    CkptPathOf(n, 5, KEEP);
    SlateAsSource(d, b, FIVE);
    FoundIsListed(d, FIVE, "");
    SlateIsPath(FIVE);
    NoDotNoMatch("@" + FIVE);
  }

  // A store with a slate called `current` beside the slate n.
  function SlateCurrent(n: string, files: Files, other: Files): Disk {
    WithSlate(WithSlate(EMPTY, CURRENT, files), n, other)
  }

  // While n runs, forking from the slate called `current` forks n.
  lemma CurrentForksAnother(n: string, files: Files, other: Files, b: Option<Booted>)
    requires ValidName(n) && n != CURRENT && RanFrom(b, "@" + n)
    ensures var d := SlateCurrent(n, files, other);
      && ValidName(CURRENT) && Sound(d) && "@" + CURRENT in d.subvols && d.subvols["@" + CURRENT].files == files
      && !Numbered(d, CURRENT) && ForkSource(d, b, CURRENT) == Ok("@" + n)
      && "@" + n in d.subvols && d.subvols["@" + n].files == other
  {
    hide ValidName, Sound, ForkSource, Numbered;
    var d := SlateCurrent(n, files, other);
    CurrentIsName();
    EmptySound();
    SlateAddedSound(EMPTY, CURRENT, Subvol(files, false));
    SlateAddedSound(WithSlate(EMPTY, CURRENT, files), n, Subvol(other, false));
    SlatesDiffer(n, CURRENT);
    CurrentIsNoNumber(d);
    CurrentSource(d, b, ForkSource(d, b, CURRENT));
  }

  // -------------------------------------------------------------------------
  // A boot record without the basis
  // -------------------------------------------------------------------------

  lemma LostFactsLeaveParts(d: Disk, t: string, source: string, f: HookFaults)
    requires f == NO_FAULTS.(lostFacts := f.lostFacts)
    ensures EnsureRun(d, t, f) == EnsureRun(d, t, NO_FAULTS)
    ensures KeepAndReplace(d, t, source, f) == KeepAndReplace(d, t, source, NO_FAULTS)
    ensures CheckpointTrail(d, t, f) == CheckpointTrail(d, t, NO_FAULTS)
  {
    hide HookDelete, PruneTrail, HookNext, HookCkpt, HookAutoOn;
  }

  // Losing parts of the boot record changes nothing in the store.
  lemma LostFactsLeaveRun(d: Disk, t: string, f: HookFaults)
    requires f == NO_FAULTS.(lostFacts := f.lostFacts)
    ensures PersistentRun(d, t, f) == PersistentRun(d, t, NO_FAULTS)
  {
    hide KeepAndReplace, CheckpointTrail, EnsureRun, ValidSubvol, StagedSlate, StagedSource;
    var e := EnsureRun(d, t, f);
    var d1 := End(d, e.trail);
    LostFactsLeaveParts(d, t, "", f);
    LostFactsLeaveParts(d1, t, StagedSource(d1), f);
    assert ApplyRun(d1, t, f) == ApplyRun(d1, t, NO_FAULTS);
    var p := PreparedRun(d, t, f);
    assert p == PreparedRun(d, t, NO_FAULTS);
    LostFactsLeaveParts(End(d, p.trail), t, "", f);
  }

  lemma LossyOutcome(d: Disk, n: string, f: HookFaults)
    requires EntriesOk(d) && n in d.entries && ValidName(n) && BASELINE in d.subvols
    requires !PersistentRun(d, "@" + n, f).panic
    ensures var o := HookOutcome(d, CmdlineOf(d.entries[n]), f);
      && o.Mount? && o.root == "@" + n
      && ("slate" in o.facts <==> "slate" !in f.lostFacts) && ("basis" in o.facts ==> "basis" !in f.lostFacts)
  {
    hide HookArgs, GoodTemplate, CmdlineOf, GoSubvol, PersistentRun, PreparedRun, ValidName, CkptFact, WriteFacts;
    EntryKinds(d, n);
    assert EntryOk(n, d.entries[n]);
    SlateReads(n);
    var ckpt := CkptFact(End(d, PreparedRun(d, "@" + n, f).trail), "@" + n, f);
    FactsAre(DisplayName("@" + n), "persistent", "@" + n, ckpt, "@" + n, f.lostFacts);
  }

  lemma LossyBoot(s: State, n: string, f: HookFaults, baked: Files)
    requires Inv(s, baked) && s.session.Off? && ValidName(n) && n in s.disk.entries
    requires f == NO_FAULTS.(lostFacts := f.lostFacts) && "slate" !in f.lostFacts && "basis" in f.lostFacts
    ensures var s1 := Next(s, Plainly(Boot(n, f)));
      && s1.session.Up? && s1.session.root == "@" + n && "@" + n in s1.disk.subvols
      && !RecordUsable(s1.session.facts)
  {
    hide Sound, HookArgs, GoodTemplate, CmdlineOf, GoSubvol, PersistentRun, ValidName, BootsTo, SelfStaged, DiskOk,
         HookOutcome, HookTrail;
    var d := s.disk;
    DiskParts(d, baked);
    BootTrailIs(d, n, f);
    StagedNeverSelf(d, n, baked);
    LostFactsLeaveRun(d, "@" + n, f);
    BootMeetsSpec(d, n);
    LossyOutcome(d, n, f);
    BootedThere(d, End(d, PersistentRun(d, "@" + n, f).trail), n);
  }

  // From every reachable state with the machine off a slate's boot that loses the basis fact is
  // followed by a discard of that slate that removes the running root.
  lemma LostBasisLosesRoot(s: State, n: string, f: HookFaults, baked: Files)
    requires Inv(s, baked) && s.session.Off? && ValidName(n) && n in s.disk.entries
    requires f == NO_FAULTS.(lostFacts := f.lostFacts) && "slate" !in f.lostFacts && "basis" in f.lostFacts
    ensures var s1 := Next(s, Plainly(Boot(n, f)));
            var t := Trail(s1, Discarding(n, false, NO_CLI_FAULTS));
      && s1.session.Up? && s1.session.root == "@" + n && "@" + n in s1.disk.subvols
      && t != [] && "@" + n !in t[|t| - 1].subvols
  {
    hide Inv, Next, Trail, ValidName, RecordUsable, RootGuarded;
    var s1 := Next(s, Plainly(Boot(n, f)));
    LossyBoot(s, n, f, baked);
    NextKeeps(s, Plainly(Boot(n, f)), n, baked);
    NoFaultsDelete();
    NamedSlate(n);
    GuardedIfUsable(s1, baked);
    UnguardedGoes(s1, NO_CLI_FAULTS, baked);
  }

  lemma NamedSlate(n: string)
    requires ValidName(n)
    ensures SlatePath("@" + n) && ("@" + n)[1..] == n
  {
    SlateReads(n);
    assert ("@" + n)[1..] == n;
  }

  // The image's first boot is such a one.
  lemma ImageLosesRoot(baked: Files, kver: string, uuid: string, f: HookFaults)
    requires Buildable(kver, uuid) && f == NO_FAULTS.(lostFacts := {"basis"})
    ensures var s1 := Next(Initial(baked, kver, uuid), Plainly(Boot(TEMPLATE, f)));
            var t := Trail(s1, Discarding(TEMPLATE, false, NO_CLI_FAULTS));
      && s1.session.Up? && s1.session.root == "@" + TEMPLATE && "@" + TEMPLATE in s1.disk.subvols
      && t != [] && "@" + TEMPLATE !in t[|t| - 1].subvols
  {
    hide Inv, Next, Trail, MainEntry, ScratchEntry, RescueEntry, ValidName;
    InitialInv(baked, kver, uuid);
    TemplateIsValid();
    assert "slate"[0] == 's' && "basis"[0] == 'b';
    LostBasisLosesRoot(Initial(baked, kver, uuid), TEMPLATE, f, baked);
  }
}
