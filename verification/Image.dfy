/** The built image: the three boot entries written into it and the state a machine starts from. */
module Image {
  import opened Text
  import opened Names
  import opened Entries
  import opened EntryLaws
  import opened EntryFile
  import opened Store
  import opened Checkpoints
  import opened Hook
  import opened HookSafety
  import opened BootSpec
  import opened Ops
  import opened OpsLaws
  import opened Machine
  import opened Steps
  import opened Runs
  import opened Reversal
  import opened Forks
  import opened Config

  // -------------------------------------------------------------------------
  // An entry whose last line is its options
  // -------------------------------------------------------------------------

  // A line that begins with neither blanks nor an o.
  predicate HeadLine(l: string) {
    l != "" && l[0] != 'o' && l[0] != ' ' && l[0] != '\t' && Free(l, '\n')
  }

  predicate HeadLines(heads: seq<string>) {
    forall i | 0 <= i < |heads| :: HeadLine(heads[i])
  }

  function OptionsLine(words: seq<string>): string { "options   " + Join(words, " ") }

  function EntryText(heads: seq<string>, words: seq<string>): string {
    Join(heads + [OptionsLine(words)], "\n") + "\n"
  }

  lemma HeadIsNoOptions(l: string)
    requires HeadLine(l)
    ensures !IsOptions(l) && !IsOptions(DropCR(l))
  {
    assert "options"[0] == 'o';
    assert TrimBlanks(l) == l;
    DropCRKind(l);
  }

  lemma {:induction false} HeadsHaveNoValues(heads: seq<string>)
    requires HeadLines(heads)
    ensures OptionValues(heads) == []
  {
    if heads != [] {
      HeadIsNoOptions(heads[0]);
      assert HeadLines(heads[1..]) by {
        assert forall i | 0 <= i < |heads[1..]| :: heads[1..][i] == heads[i + 1];
      }
      HeadsHaveNoValues(heads[1..]);
    }
  }

  lemma OptionsLineShape(words: seq<string>)
    requires words != [] && AllSolid(words, GoSpace)
    ensures var l := OptionsLine(words);
      && TrimBlanks(l) == l && IsOptions(l) && l[7..] == "   " + Join(words, " ") && |l| > 7 && l[7] == ' '
      && DropCR(l) == l && Free(l, '\n')
  {
    hide Words;
    var l, key, v := OptionsLine(words), "options   ", Join(words, " ");
    JoinEndsSolid(words);
    assert l[0] == 'o' && l[|l| - 1] == v[|v| - 1];
    assert key == "options" + "   ";
    assert l == "options" + ("   " + v);
    forall i | 0 <= i < |l| ensures l[i] != '\n' {
      assert l[i] == if i < |key| then key[i] else v[i - |key|];
    }
  }

  lemma WordsAfterThree(v: string, blank: char -> bool)
    requires blank(' ')
    ensures Words("   " + v, blank) == Words(v, blank)
  {
    var t := "  " + v;
    assert ("   " + v)[1..] == t;
    WordsAfterBlanks(v, blank);
  }

  lemma SolidForBoth(words: seq<string>)
    requires AllSolid(words, GoSpace)
    ensures AllSolid(words, ShellBlank)
  {
    forall i | 0 <= i < |words| ensures Solid(words[i], ShellBlank) {
      assert Solid(words[i], GoSpace);
    }
  }

  lemma EntryLines(heads: seq<string>, words: seq<string>)
    requires HeadLines(heads) && words != [] && AllSolid(words, GoSpace)
    ensures Split(EntryText(heads, words), '\n') == heads + [OptionsLine(words)] + [""]
  {
    var lines := heads + [OptionsLine(words)];
    OptionsLineShape(words);
    forall i | 0 <= i < |lines| ensures Free(lines[i], '\n') {
      if i < |heads| {
        assert HeadLine(heads[i]);
      }
    }
    SplitLines(lines);
  }

  lemma OneOptions(l: string)
    requires TrimBlanks(l) == l && IsOptions(l) && |l| > 7 && l[7] == ' '
    ensures OptionValues([l]) == [l[7..]]
  {
    var one := [l];
    assert one[1..] == [];
    assert OptionValues(one[1..]) == [];
  }

  // The words on the command line are those of the options line.
  lemma EntryWords(heads: seq<string>, words: seq<string>, blank: char -> bool)
    requires HeadLines(heads) && words != [] && AllSolid(words, GoSpace) && AllSolid(words, blank) && blank(' ')
    ensures Words(CmdlineOf(EntryText(heads, words)), blank) == words
  {
    hide EntryText, OptionsLine, Words, IsOptions;
    var l := OptionsLine(words);
    EntryLines(heads, words);
    OptionsLineShape(words);
    OneOptions(l);
    HeadsHaveNoValues(heads);
    OptionValuesConcat(heads, [l]);
    EmptyLineHasNoValue(heads + [l]);
    assert OptionValues(heads + [l] + [""]) == [l[7..]];
    WordsAfterThree(Join(words, " "), blank);
    WordsJoin(words, blank);
  }

  lemma {:induction false} OptionsLast(heads: seq<string>, l: string)
    requires IsOptions(l)
    ensures HasOptions(heads + [l])
  {
    hide IsOptions;
    HasOptionsAt(heads + [l], |heads|);
  }

  lemma EntryScans(heads: seq<string>, words: seq<string>)
    requires HeadLines(heads) && words != [] && AllSolid(words, GoSpace)
    ensures ScanLines(EntryText(heads, words)) == DropEach(heads) + [OptionsLine(words)]
  {
    hide EntryText, OptionsLine;
    EntryLines(heads, words);
    OptionsLineShape(words);
    var lines := heads + [OptionsLine(words)];
    assert (lines + [""])[..|lines|] == lines;
  }

  lemma OptionsFields(words: seq<string>)
    requires words != [] && AllSolid(words, GoSpace)
    ensures IsOptions(OptionsLine(words)) && FieldsOf(OptionsLine(words)) == words
  {
    hide Words, OptionsLine, IsOptions;
    OptionsLineShape(words);
    WordsAfterThree(Join(words, " "), GoSpace);
    WordsJoin(words, GoSpace);
  }

  lemma EntryIsTemplate(heads: seq<string>, words: seq<string>)
    requires HeadLines(heads) && words != [] && AllSolid(words, GoSpace) && GoodWords(words)
    ensures GoodTemplate(EntryText(heads, words))
  {
    hide EntryText, OptionsLine, IsOptions, GoodWords, FieldsOf;
    EntryScans(heads, words);
    OptionsFields(words);
    var lines := ScanLines(EntryText(heads, words));
    forall i | 0 <= i < |lines| ensures GoodLine(lines[i]) {
      if i < |heads| {
        assert lines[i] == DropCR(heads[i]);
        HeadIsNoOptions(heads[i]);
      }
    }
    OptionsLast(DropEach(heads), OptionsLine(words));
  }

  // -------------------------------------------------------------------------
  // The entries of the image
  // -------------------------------------------------------------------------

  function Heads(title: string, sortKey: string, kver: string): seq<string> {
    ["title     " + title, "version   " + kver, "sort-key  " + sortKey,
     "linux     /vmlinuz-" + kver, "initrd    /initrd.img-" + kver]
  }

  // root=, and a serial and a video console.
  function BaseWords(uuid: string): seq<string> {
    ["root=PARTUUID=" + uuid, "console=ttyS0,115200", "console=tty0"]
  }

  function RootFlag(subvol: string): string { ROOTFLAGS + SUBVOL + subvol }

  const SCRATCH_TITLE := "cleanslate: scratch " + "(discarded at reboot)"
  const RESCUE_TITLE := "cleanslate: rescue " + "(baseline, read-only)"

  function MainEntry(kver: string, uuid: string): string {
    EntryText(Heads("cleanslate: main", "cleanslate-1-main", kver), BaseWords(uuid) + [RootFlag("@main")])
  }

  function ScratchEntry(kver: string, uuid: string): string {
    EntryText(Heads(SCRATCH_TITLE, "cleanslate-5-scratch", kver),
              BaseWords(uuid) + [RootFlag(RUNTIME), BASIS + BASELINE, MODE + SCRATCH])
  }

  function RescueEntry(kver: string, uuid: string): string {
    EntryText(Heads(RESCUE_TITLE, "cleanslate-9-rescue", kver),
              BaseWords(uuid) + [RootFlag(BASELINE), MODE + RESCUE])
  }

  // The image as built: the sealed baseline, the host identity, no slate and nothing staged.
  function Initial(baked: Files, kver: string, uuid: string): State {
    State(Disk(map[BASELINE := Subvol(baked, true), HOSTID := Subvol(map[], false)], None, None,
               map[TEMPLATE := MainEntry(kver, uuid), SCRATCH := ScratchEntry(kver, uuid),
                   RESCUE := RescueEntry(kver, uuid)]),
          Off)
  }

  lemma HeadOf(key: string, v: string)
    requires key != "" && key[0] != 'o' && key[0] != ' ' && key[0] != '\t' && Free(key, '\n') && Free(v, '\n')
    ensures HeadLine(key + v)
  {
  }

  lemma HeadsAreHeads(title: string, sortKey: string, kver: string)
    requires Free(title, '\n') && Free(sortKey, '\n') && Free(kver, '\n')
    ensures HeadLines(Heads(title, sortKey, kver))
  {
    hide HeadLine;
    HeadOf("title     ", title);
    HeadOf("version   ", kver);
    HeadOf("sort-key  ", sortKey);
    HeadOf("linux     /vmlinuz-", kver);
    HeadOf("initrd    /initrd.img-", kver);
  }

  // A word neither parser takes notice of.
  predicate Neutral(w: string) {
    Solid(w, GoSpace) && !IsRootflags(w) && !(BASIS <= w) && !(MODE <= w)
  }

  predicate AllNeutral(ws: seq<string>) {
    forall i | 0 <= i < |ws| :: Neutral(ws[i])
  }

  lemma NeutralWord(key: string, v: string)
    requires |key| >= 7 && NoSpace(key) && NoSpace(v)
    requires (key[0] == 'r' && key[4] == '=') || (key[0] == 'c' && key[1] == 'o')
    ensures Neutral(key + v)
  {
    assert ROOTFLAGS[0] == 'r' && ROOTFLAGS[4] == 'f' && BASIS[0] == 'c' && BASIS[1] == 'l';
    assert MODE[0] == 'c' && MODE[1] == 'l';
    assert (key + v)[0] == key[0] && (key + v)[1] == key[1] && (key + v)[4] == key[4];
  }

  lemma BaseIsNeutral(uuid: string)
    requires NoSpace(uuid)
    ensures AllNeutral(BaseWords(uuid))
  {
    hide Neutral;
    NeutralWord("root=PARTUUID=", uuid);
    var serial, video := "console=ttyS0,115200", "console=tty0";
    NeutralWord(serial, "");
    NeutralWord(video, "");
    assert serial + "" == serial && video + "" == video;
  }

  lemma {:induction false} NeutralRead(ws: seq<string>, flags: seq<string>, a: Args)
    requires AllNeutral(ws)
    ensures ReadWords(ws + flags, a) == ReadWords(flags, a)
    ensures GoFirst(ws + flags) == GoFirst(flags)
  {
    hide PartsOf, Neutral;
    if ws == [] {
      assert ws + flags == flags;
    } else {
      assert (ws + flags)[0] == ws[0] && (ws + flags)[1..] == ws[1..] + flags;
      assert forall i | 0 <= i < |ws[1..]| :: ws[1..][i] == ws[i + 1];
      NeutralIsSkipped(ws[0], a);
      NeutralRead(ws[1..], flags, a);
    }
  }

  lemma NeutralIsSkipped(w: string, a: Args)
    requires Neutral(w)
    ensures ReadWord(w, a) == a && !IsRootflags(w)
  {
  }

  lemma FlagReads(s: string, a: Args)
    requires PlainSubvol(s)
    ensures ReadWord(RootFlag(s), a) == a.(subvol := s)
    ensures GoFirst([RootFlag(s)]) == Some(s)
    ensures Solid(RootFlag(s), GoSpace) && GoodWord(RootFlag(s))
  {
    hide GoSpace;
    FreshToken(s);
    LastOne(SUBVOL + s, a.subvol);
    FirstOfOne(SUBVOL + s);
    assert (SUBVOL + s)[7..] == s && Normal(s) == s;
    FlagText(s);
  }

  lemma FirstOfOne(part: string)
    requires IsSubvol(part)
    ensures FirstSubvol([part]) == 0
    ensures CountSubvol([part]) == 1
  {
    assert [part][1..] == [];
    assert CountSubvol([part][1..]) == 0;
  }

  lemma FlagText(s: string)
    requires PlainSubvol(s)
    ensures Solid(RootFlag(s), GoSpace) && !(MODE <= RootFlag(s)) && !(BASIS <= RootFlag(s))
  {
    assert MODE[0] == 'c' && BASIS[0] == 'c' && ROOTFLAGS[0] == 'r';
    assert RootFlag(s)[0] == 'r';
    assert NoSpace(ROOTFLAGS + SUBVOL);
  }

  lemma ModeWords(x: string, a: Args)
    requires x != "" && NoSpace(x)
    ensures ReadWord(BASIS + x, a) == a.(basis := x) && ReadWord(MODE + x, a) == a.(mode := x)
    ensures Solid(BASIS + x, GoSpace) && Solid(MODE + x, GoSpace)
  {
    KeyTexts();
    assert (BASIS + x)[0] == 'c' && (MODE + x)[0] == 'c' && (MODE + x)[11] == 'm';
    assert (BASIS + x)[|BASIS|..] == x && (MODE + x)[|MODE|..] == x;
    PrefixSolid(BASIS, x);
    PrefixSolid(MODE, x);
  }

  lemma KeyTexts()
    ensures ROOTFLAGS[0] == 'r' && BASIS[0] == 'c' && MODE[0] == 'c' && BASIS[11] == 'b' && MODE[11] == 'm'
    ensures NoSpace(BASIS) && NoSpace(MODE)
  {
  }

  lemma PrefixSolid(key: string, x: string)
    requires NoSpace(key) && NoSpace(x) && x != ""
    ensures Solid(key + x, GoSpace)
  {
    hide GoSpace;
  }

  lemma ReservedIsPlain(s: string)
    requires s == BASELINE || s == RUNTIME || s == "@main"
    ensures PlainSubvol(s) && NoSpace(s) && StripSlash(s) == s
  {
    assert s[0] == '@' && forall i | 0 <= i < |s| :: s[i] == '@' || 'a' <= s[i] <= 'z';
  }

  // What both parsers read from an entry with neutral words and some flags.
  lemma BuiltReads(title: string, sortKey: string, kver: string, uuid: string, flags: seq<string>)
    requires Free(title, '\n') && Free(sortKey, '\n') && Free(kver, '\n') && NoSpace(uuid)
    requires AllSolid(flags, GoSpace) && flags != []
    ensures var text := EntryText(Heads(title, sortKey, kver), BaseWords(uuid) + flags);
      && HookArgs(CmdlineOf(text)) == Stripped(ReadWords(flags, Args("", "", "")))
      && GoSubvol(CmdlineOf(text)) == GoFirst(flags)
      && (GoodWords(flags) ==> GoodTemplate(text))
  {
    hide EntryText, Heads, BaseWords, GoSpace, Words, GoodTemplate, ReadWords, GoFirst, CmdlineOf, HeadLines;
    var base := BaseWords(uuid);
    HeadsAreHeads(title, sortKey, kver);
    BaseIsNeutral(uuid);
    NeutralIsGood(base, flags);
    SolidForBoth(base + flags);
    SpaceIsBlank();
    EntryWords(Heads(title, sortKey, kver), base + flags, ShellBlank);
    EntryWords(Heads(title, sortKey, kver), base + flags, GoSpace);
    NeutralRead(base, flags, Args("", "", ""));
    if GoodWords(flags) {
      EntryIsTemplate(Heads(title, sortKey, kver), base + flags);
    }
  }

  lemma SpaceIsBlank()
    ensures GoSpace(' ') && ShellBlank(' ')
  {
  }

  lemma NeutralIsGood(base: seq<string>, flags: seq<string>)
    requires AllNeutral(base) && AllSolid(flags, GoSpace)
    ensures AllSolid(base + flags, GoSpace)
    ensures GoodWords(flags) ==> GoodWords(base + flags)
  {
    hide GoSpace, CountSubvol, PartsOf;
    var all := base + flags;
    forall i | 0 <= i < |all| ensures Solid(all[i], GoSpace) && (GoodWords(flags) ==> GoodWord(all[i])) {
      if i < |base| {
        assert Neutral(base[i]);
      } else {
        assert Solid(flags[i - |base|], GoSpace);
      }
    }
  }

  // -------------------------------------------------------------------------
  // The machine starts in a good state
  // -------------------------------------------------------------------------

  // What the image is built from: a kernel version and a partition id without blanks.
  predicate Buildable(kver: string, uuid: string) { Free(kver, '\n') && NoSpace(uuid) }

  lemma MainEntryOk(kver: string, uuid: string)
    requires Buildable(kver, uuid)
    ensures EntryOk(TEMPLATE, MainEntry(kver, uuid))
  {
    hide EntryText, Heads, BaseWords, GoSpace, GoodTemplate, CmdlineOf, HookArgs, GoSubvol, PlainSubvol, RootFlag;
    var title, key, s := "cleanslate: main", "cleanslate-1-main", "@main";
    var flags := [RootFlag(s)];
    ReservedIsPlain(s);
    FlagReads(s, Args("", "", ""));
    ReadOne(RootFlag(s), Args("", "", ""));
    BuiltReads(title, key, kver, uuid, flags);
    TemplateIsValid();
    NotModes(TEMPLATE);
    assert "@" + TEMPLATE == s && RESCUE != "";
  }

  lemma ReadTwo(v: string, w: string, a: Args)
    ensures ReadWords([v, w], a) == ReadWord(w, ReadWord(v, a))
  {
    assert [v, w][1..] == [w];
    ReadOne(w, ReadWord(v, a));
  }

  lemma ReadThree(u: string, v: string, w: string, a: Args)
    ensures ReadWords([u, v, w], a) == ReadWord(w, ReadWord(v, ReadWord(u, a)))
  {
    assert [u, v, w][1..] == [v, w];
    ReadTwo(v, w, ReadWord(u, a));
  }

  lemma RescueEntryOk(kver: string, uuid: string)
    requires Buildable(kver, uuid)
    ensures EntryOk(RESCUE, RescueEntry(kver, uuid))
  {
    hide EntryText, Heads, BaseWords, GoSpace, GoodTemplate, CmdlineOf, HookArgs, GoSubvol, PlainSubvol, RootFlag;
    var title, key, s := RESCUE_TITLE, "cleanslate-9-rescue", BASELINE;
    var flags := [RootFlag(s), MODE + RESCUE];
    RescueFlags(flags);
    BuiltReads(title, key, kver, uuid, flags);
    ModeIsSolid();
  }

  lemma ModeIsSolid()
    ensures NoSpace(RESCUE) && NoSpace(SCRATCH) && RESCUE != "" && SCRATCH != "" && SCRATCH != RESCUE
  {
    assert SCRATCH[0] == 's' && RESCUE[0] == 'r';
  }

  lemma ScratchEntryOk(kver: string, uuid: string)
    requires Buildable(kver, uuid)
    ensures EntryOk(SCRATCH, ScratchEntry(kver, uuid))
    ensures HookArgs(CmdlineOf(ScratchEntry(kver, uuid))).basis == BASELINE
  {
    hide EntryText, Heads, BaseWords, GoSpace, GoodTemplate, CmdlineOf, HookArgs, GoSubvol, PlainSubvol, RootFlag;
    var title, key, s := SCRATCH_TITLE, "cleanslate-5-scratch", RUNTIME;
    var flags := [RootFlag(s), BASIS + BASELINE, MODE + SCRATCH];
    ScratchFlags(flags);
    ModeIsSolid();
    BuiltReads(title, key, kver, uuid, flags);
  }

  lemma RescueFlags(flags: seq<string>)
    requires flags == [RootFlag(BASELINE), MODE + RESCUE]
    ensures Stripped(ReadWords(flags, Args("", "", ""))) == Args(BASELINE, "", RESCUE) && AllSolid(flags, GoSpace)
    ensures GoFirst(flags) == Some(BASELINE)
  {
    hide GoSpace, PlainSubvol, RootFlag, ReadWords, ReadWord, GoFirst;
    assert flags == [RootFlag(BASELINE)] + [MODE + RESCUE];
    GoFirstConcat([RootFlag(BASELINE)], [MODE + RESCUE]);
    var none := Args("", "", "");
    ReservedIsPlain(BASELINE);
    FlagReads(BASELINE, none);
    ModeIsSolid();
    ModeWords(RESCUE, ReadWord(RootFlag(BASELINE), none));
    ReadTwo(RootFlag(BASELINE), MODE + RESCUE, none);
    assert StripSlash("") == "";
  }

  lemma ScratchFlags(flags: seq<string>)
    requires flags == [RootFlag(RUNTIME), BASIS + BASELINE, MODE + SCRATCH]
    ensures Stripped(ReadWords(flags, Args("", "", ""))) == Args(RUNTIME, BASELINE, SCRATCH) && AllSolid(flags, GoSpace)
    ensures GoFirst(flags) == Some(RUNTIME)
  {
    hide GoSpace, PlainSubvol, RootFlag, ReadWords, ReadWord, GoFirst;
    assert flags == [RootFlag(RUNTIME)] + [BASIS + BASELINE, MODE + SCRATCH];
    GoFirstConcat([RootFlag(RUNTIME)], [BASIS + BASELINE, MODE + SCRATCH]);
    var none := Args("", "", "");
    ReservedIsPlain(RUNTIME);
    ReservedIsPlain(BASELINE);
    FlagReads(RUNTIME, none);
    ModeIsSolid();
    ModeWords(BASELINE, ReadWord(RootFlag(RUNTIME), none));
    ModeWords(SCRATCH, ReadWord(BASIS + BASELINE, ReadWord(RootFlag(RUNTIME), none)));
    ReadThree(RootFlag(RUNTIME), BASIS + BASELINE, MODE + SCRATCH, none);
  }

  lemma InitialSound(baked: Files, kver: string, uuid: string)
    ensures Sound(Initial(baked, kver, uuid).disk)
  {
    hide MainEntry, ScratchEntry, RescueEntry, CkptName, ValidName;
    var d := Initial(baked, kver, uuid).disk;
    assert '/' !in BASELINE && '/' !in HOSTID && '.' !in BASELINE && '.' !in HOSTID;
    NoDotNoMatch(BASELINE);
    NoDotNoMatch(HOSTID);
    assert StorePath(BASELINE) && !CkptPath(BASELINE) && StorePath(HOSTID) && !CkptPath(HOSTID);
    assert d.subvols.Keys == {BASELINE, HOSTID};
    forall n, q | ValidName(n) ensures !(CkptName(n, q, AUTO) in d.subvols && CkptName(n, q, KEEP) in d.subvols) {
      CkptNameHasDot(n, q, AUTO);
    }
  }

  // The built image satisfies the invariant, so every state a machine can reach does.
  lemma InitialInv(baked: Files, kver: string, uuid: string)
    requires Buildable(kver, uuid)
    ensures Inv(Initial(baked, kver, uuid), baked)
  {
    hide MainEntry, ScratchEntry, RescueEntry, EntryOk, Sound, EntriesOk;
    InitialSound(baked, kver, uuid);
    InitialEntries(Initial(baked, kver, uuid).disk, kver, uuid);
  }

  lemma InitialEntries(d: Disk, kver: string, uuid: string)
    requires Buildable(kver, uuid)
    requires d.entries == map[TEMPLATE := MainEntry(kver, uuid), SCRATCH := ScratchEntry(kver, uuid),
                              RESCUE := RescueEntry(kver, uuid)]
    ensures EntriesOk(d)
  {
    hide MainEntry, ScratchEntry, RescueEntry, EntryOk, ValidName;
    MainEntryOk(kver, uuid);
    ScratchEntryOk(kver, uuid);
    RescueEntryOk(kver, uuid);
    TemplateIsValid();
    NotModes(TEMPLATE);
    ModeIsSolid();
    ThreeEntries(d.entries, TEMPLATE, SCRATCH, RESCUE);
  }

  lemma ThreeEntries(entries: map<string, string>, m: string, c: string, r: string)
    requires entries.Keys == {m, c, r}
    requires EntryOk(m, entries[m]) && EntryOk(c, entries[c]) && EntryOk(r, entries[r])
    ensures forall e | e in entries :: EntryOk(e, entries[e])
  {
    hide EntryOk;
  }

  // In every state reachable from the image the baseline is there, sealed, with what was baked;
  // no entry but the two built for it boots a reserved subvolume, and nothing staged replaces one.
  lemma BaselineIsImmortal(baked: Files, kver: string, uuid: string, steps: seq<Step>)
    requires Buildable(kver, uuid)
    ensures var d := Exec(Initial(baked, kver, uuid), steps).disk;
      && BASELINE in d.subvols && d.subvols[BASELINE] == Subvol(baked, true)
      && (forall e | e in d.entries && e != SCRATCH && e != RESCUE ::
            !ReservedSubvol(HookArgs(CmdlineOf(d.entries[e])).subvol))
      && (forall k | k in d.subvols && MatchCkpt(k).Some? :: !ReservedSubvol("@" + SlateOf(k)))
      && !ReservedSubvol(StagedSlate(d))
  {
    hide Initial, Exec, Sound, CmdlineOf, HookArgs, GoSubvol, GoodTemplate, MatchCkpt, StagedSlate, StagedSource, ValidName;
    InitialInv(baked, kver, uuid);
    RunKeepsInv(Initial(baked, kver, uuid), steps, baked);
    var d := Exec(Initial(baked, kver, uuid), steps).disk;
    assert !ReservedSubvol("") && (d.staged.None? ==> StagedSlate(d) == "") by {
      EmptyNotReserved(d);
    }
    forall e | e in d.entries && e != SCRATCH && e != RESCUE
      ensures !ReservedSubvol(HookArgs(CmdlineOf(d.entries[e])).subvol)
    {
      assert EntryOk(e, d.entries[e]);
      SlateNotReserved(e);
    }
    forall k | k in d.subvols && MatchCkpt(k).Some? ensures !ReservedSubvol("@" + SlateOf(k)) {
      FoundIsStageable(d, k);
    }
  }

  lemma EmptyNotReserved(d: Disk)
    ensures !ReservedSubvol("") && (d.staged.None? ==> StagedSlate(d) == "")
  {
    assert BASELINE != "" && RUNTIME != "" && HOSTID != "";
  }

  // -------------------------------------------------------------------------
  // The first boot
  // -------------------------------------------------------------------------

  lemma NoCkpts(baked: Files, kver: string, uuid: string, n: string)
    ensures forall k | k in Initial(baked, kver, uuid).disk.subvols :: !CkptOf(k, n)
  {
    hide MainEntry, ScratchEntry, RescueEntry, MatchCkpt;
    assert '.' !in BASELINE && '.' !in HOSTID;
    NoDotNoMatch(BASELINE);
    NoDotNoMatch(HOSTID);
  }

  lemma NoConfig()
    ensures HookAutoOn(None) && HookRetain(None) >= 1
  {
  }

  // The image's first boot makes `main` from the baseline, takes its checkpoint 1 and runs it: a
  // reachable state on which every statement about rollbacks bears.
  lemma FirstBoot(baked: Files, kver: string, uuid: string)
    requires Buildable(kver, uuid)
    ensures var s := Next(Initial(baked, kver, uuid), Plainly(Boot(TEMPLATE, NO_FAULTS)));
            var t, k := "@" + TEMPLATE, CkptName(TEMPLATE, 1, AUTO);
      && Inv(s, baked) && s.session.Up? && s.session.root == t && TEMPLATE in s.disk.entries
      && t in s.disk.subvols && s.disk.subvols[t].files == baked
      && k in s.disk.subvols && CkptOf(k, TEMPLATE) && s.disk.subvols[k] == Subvol(baked, true)
      && s.disk.subvols.Keys == {BASELINE, HOSTID, t, k} && s.disk.staged == None
  {
    hide Inv, Next, MainEntry, ScratchEntry, RescueEntry, CkptName, MatchCkpt, ValidName, HookRetain, HookAutoOn;
    var s0 := Initial(baked, kver, uuid);
    var step := Plainly(Boot(TEMPLATE, NO_FAULTS));
    InitialInv(baked, kver, uuid);
    TemplateIsValid();
    NextKeeps(s0, step, TEMPLATE, baked);
    SlateBoots(s0, TEMPLATE, baked);
    NoCkpts(baked, kver, uuid, TEMPLATE);
    NoConfig();
    InvParts(s0, baked);
    MainIsMissing(TEMPLATE);
    FirstBootOfSlate(s0.disk, TEMPLATE);
    BootedDisk(s0, TEMPLATE, baked);
    CkptPathOf(TEMPLATE, 1, AUTO);
  }

  lemma MainIsMissing(n: string)
    requires ValidName(n)
    ensures "@" + n != BASELINE && "@" + n != HOSTID
  {
  }

  lemma BootedDisk(s: State, n: string, baked: Files)
    requires Inv(s, baked) && s.session.Off? && ValidName(n) && n in s.disk.entries
    ensures Next(s, Plainly(Boot(n, NO_FAULTS))).disk
         == End(s.disk, PersistentRun(s.disk, "@" + n, NO_FAULTS).trail)
  {
    hide Sound, EntryOk, StagedOk, SessionOk, PersistentRun, ValidName, HookTrail, CmdlineOf, HookOutcome;
    BootTrailIs(s.disk, n, NO_FAULTS);
  }

  function ForkBaseline(n: string): Step { Plainly(Forking(n, THE_BASELINE, true, NO_CLI_FAULTS)) }

  lemma IsNew(n: string, k: string)
    requires ValidName(n) && n != TEMPLATE && '.' in k
    ensures "@" + n !in {BASELINE, HOSTID, "@" + TEMPLATE, k}
  {
    MainIsMissing(n);
    SlatesDiffer(n, TEMPLATE);
    SlateIsPath(n);
  }

  // A second slate forked on the image's first boot: `main` runs beside it, and after a switch it
  // runs beside `main`. Both are states the failing runs start from.
  lemma TwoSlatesReached(baked: Files, kver: string, uuid: string, n: string)
    requires Buildable(kver, uuid) && ValidName(n) && n != TEMPLATE
    ensures var first := Next(Initial(baked, kver, uuid), Plainly(Boot(TEMPLATE, NO_FAULTS)));
            var forked := Next(first, ForkBaseline(n));
            var switched := Next(Next(forked, Plainly(PowerOff)), Plainly(Boot(n, NO_FAULTS)));
      && Inv(forked, baked) && TwoSlates(forked, TEMPLATE, n)
      && Inv(switched, baked) && TwoSlates(switched, n, TEMPLATE)
  {
    hide Inv, Next, Initial, ValidName, CkptName, CkptOf, RunsOn, Record, Forkable, ForkSource;
    var s0, k := Initial(baked, kver, uuid), CkptName(TEMPLATE, 1, AUTO);
    var first := Next(s0, Plainly(Boot(TEMPLATE, NO_FAULTS)));
    var forked := Next(first, ForkBaseline(n));
    InitialInv(baked, kver, uuid);
    TemplateIsValid();
    InitialIsOff(baked, kver, uuid);
    FirstBoot(baked, kver, uuid);
    SlateRecorded(s0, TEMPLATE, baked);
    CkptNameHasDot(TEMPLATE, 1, AUTO);
    IsNew(n, k);
    NewIsForkable(first.disk, n);
    InvParts(first, baked);
    BaselineSource(first.disk, Record(first));
    ForkMakes(first, n, THE_BASELINE, NO_CLI_FAULTS, baked);
    NextKeeps(first, ForkBaseline(n), TEMPLATE, baked);
    SameRecord(first, forked);
    ForkKeepsSlate(first, n, TEMPLATE, baked);
    SwitchKeeps(forked, TEMPLATE, n, baked);
  }

  lemma InitialIsOff(baked: Files, kver: string, uuid: string)
    ensures Initial(baked, kver, uuid).session.Off? && TEMPLATE in Initial(baked, kver, uuid).disk.entries
  {
    hide MainEntry, ScratchEntry, RescueEntry;
  }

  lemma NewIsForkable(d: Disk, n: string)
    requires ValidName(n) && "@" + n !in d.subvols
    ensures Forkable(d, n, NO_CLI_FAULTS)
  {
  }

  lemma ForkKeepsSlate(s: State, n: string, m: string, baked: Files)
    requires Inv(s, baked) && ValidName(m) && "@" + m in s.disk.subvols && m in s.disk.entries
    ensures "@" + m in Next(s, ForkBaseline(n)).disk.subvols && m in Next(s, ForkBaseline(n)).disk.entries
  {
    hide Inv, Next, ValidName;
    NextKeeps(s, ForkBaseline(n), m, baked);
  }

  // Powering off and booting another slate.
  lemma SwitchKeeps(s: State, m: string, n: string, baked: Files)
    requires Inv(s, baked) && ValidName(m) && ValidName(n) && m != n && n in s.disk.entries
    requires "@" + m in s.disk.subvols && TEMPLATE in s.disk.entries
    ensures var x := Next(Next(s, Plainly(PowerOff)), Plainly(Boot(n, NO_FAULTS)));
            Inv(x, baked) && TwoSlates(x, n, m)
  {
    hide Inv, Next, ValidName, RunsOn, Record, BootsTo;
    var off, step := Next(s, Plainly(PowerOff)), Plainly(Boot(n, NO_FAULTS));
    OffKeeps(s);
    NextKeeps(s, Plainly(PowerOff), n, baked);
    SlateRecorded(off, n, baked);
    SlateBoots(off, n, baked);
    InvParts(off, baked);
    BootedThere(off.disk, Next(off, step).disk, n);
    NextKeeps(off, step, m, baked);
    TemplateIsValid();
    NextKeeps(off, step, TEMPLATE, baked);
  }

  lemma OffKeeps(s: State)
    ensures Next(s, Plainly(PowerOff)) == State(s.disk, Off)
  {
    NoTrail(s);
  }

  // -------------------------------------------------------------------------
  // Forks on the image
  // -------------------------------------------------------------------------

  // The template entry is there in every state reached without discarding `main` and its entry.
  lemma TemplateLasts(baked: Files, kver: string, uuid: string, steps: seq<Step>)
    requires Buildable(kver, uuid) && KeepsEntry(Initial(baked, kver, uuid), steps, TEMPLATE)
    ensures TEMPLATE in Exec(Initial(baked, kver, uuid), steps).disk.entries
  {
    hide Inv, Exec, ValidName, MainEntry, ScratchEntry, RescueEntry;
    InitialInv(baked, kver, uuid);
    TemplateIsValid();
    EntryLasts(Initial(baked, kver, uuid), steps, TEMPLATE, baked);
  }

  // So any fork there under a new name, from a source that is there, boots its source's files or
  // the replacement staged for its name that applies.
  lemma ForkBootsOnImage(baked: Files, kver: string, uuid: string, before: seq<Step>, name: string, from: string,
                         f: CliFaults, files: Files, steps: seq<Step>)
    requires Buildable(kver, uuid) && KeepsEntry(Initial(baked, kver, uuid), before, TEMPLATE)
    requires Exec(Initial(baked, kver, uuid), before).session.Up?
    requires Forkable(Exec(Initial(baked, kver, uuid), before).disk, name, f)
    requires ForksFrom(Exec(Initial(baked, kver, uuid), before), from, files)
    requires Leaves(Next(Exec(Initial(baked, kver, uuid), before), Plainly(Forking(name, from, true, f))), steps, name)
    requires Exec(Next(Exec(Initial(baked, kver, uuid), before), Plainly(Forking(name, from, true, f))), steps).session.Off?
    ensures var s2 := Exec(Next(Exec(Initial(baked, kver, uuid), before), Plainly(Forking(name, from, true, f))), steps);
            var s3 := Next(s2, Plainly(Boot(name, NO_FAULTS)));
            s3.session.Up? && s3.session.root == "@" + name && "@" + name in s3.disk.subvols
            && (!Applies(s2.disk, "@" + name) ==> s3.disk.subvols["@" + name].files == files)
            && (Applies(s2.disk, "@" + name) ==>
                  s3.disk.subvols["@" + name].files == s2.disk.subvols[StagedSource(s2.disk)].files)
  {
    hide Inv, Exec, Next, Initial, Forkable, ForksFrom, Leaves, Applies, StagedSource;
    var s := Exec(Initial(baked, kver, uuid), before);
    InitialInv(baked, kver, uuid);
    RunKeepsInv(Initial(baked, kver, uuid), before, baked);
    TemplateLasts(baked, kver, uuid, before);
    ForkBoots(s, name, from, f, files, steps, baked);
  }
}
