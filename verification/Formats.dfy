/** The texts the two sides exchange and the names the design fixes, spelled out. */
module Formats {
  import opened Text
  import opened Decimal
  import opened Names
  import opened Staged
  import opened Config
  import opened Entries
  import opened EntryLaws
  import opened Store
  import opened Checkpoints
  import opened Hook
  import opened Ops
  import opened OpsLaws
  import opened Shortfalls
  import opened Image
  import opened Outcomes

  // -------------------------------------------------------------------------
  // Settings
  // -------------------------------------------------------------------------

  // Without a settings file both sides retain ten and take automatic checkpoints.
  lemma Defaults()
    ensures ConfigRetain(None) == 10 && HookRetain(None) == 10 && HookAutoOn(None)
  {
  }

  lemma OneLineText(line: string)
    requires Free(line, '\n')
    ensures Split(line, '\n') == [line]
  {
    SplitWhole(line, '\n');
  }

  // A line that sets the retention, read alike.
  lemma RetentionLine(text: string, v: string)
    requires text == "retain_auto=" + v && |v| == 1 && IsDigit(v[0])
    ensures ConfigRetain(Some(text)) == DigitValue(v[0]) && HookRetain(Some(text)) == DigitValue(v[0])
  {
    RetainLineReads(text, v);
    OneLineText(text);
    var one := [text];
    assert one[1..] == [];
    assert SedRetain(one) == [v] + SedRetain([]);
  }

  // A line that sets the switch, read alike: four words turn automatic checkpoints off, and no
  // others.
  lemma SwitchLine(text: string, v: string)
    requires text == "auto_checkpoint=" + v && Free(v, '\n') && Tidy(v)
    ensures GoAutoOff(Split(text, '\n')) <==> v in {"off", "no", "false", "0"}
    ensures HookAutoOn(Some(text)) <==> v !in {"off", "no", "false", "0"}
  {
    SwitchLineReads(text, v);
    OneLineText(text);
    var one := [text];
    assert one[1..] == [];
    assert SedPrint(one, AUTO_KEY) == [v] + SedPrint([], AUTO_KEY);
    assert GoAutoOff(one) <==> GoAutoOffLine(one[0]);
  }

  lemma SwitchLineReads(line: string, v: string)
    requires line == AUTO_KEY + v && Free(v, '\n') && Tidy(v)
    ensures Free(line, '\n') && AUTO_KEY <= line && line[|AUTO_KEY|..] == v
    ensures GoAutoOffLine(line) <==> OffWord(v)
  {
    assert AUTO_KEY[0] == 'a' && AUTO_KEY[|AUTO_KEY| - 1] == '=' && '\n' !in AUTO_KEY;
    assert line[|line| - 1] == if v == "" then '=' else v[|v| - 1];
    TrimSolid(line);
    TidyTrims(v);
    assert line[|AUTO_KEY|..] == v;
  }

  lemma {:induction false} TrimLeftOver(p: string, s: string)
    requires forall c | c in p :: GoSpace(c)
    requires s != "" && !GoSpace(s[0])
    ensures TrimSpaceLeft(p + s) == s
  {
    if p == "" {
      assert p + s == s;
    } else {
      assert p[0] in p && (p + s)[0] == p[0] && (p + s)[1..] == p[1..] + s;
      TrimLeftOver(p[1..], s);
    }
  }

  lemma {:induction false} TrimRightOver(s: string, p: string)
    requires forall c | c in p :: GoSpace(c)
    requires s != "" && !GoSpace(s[|s| - 1])
    ensures TrimSpaceRight(s + p) == s
    decreases |p|
  {
    if p == "" {
      assert s + p == s;
    } else {
      var k := |p| - 1;
      assert p[k] in p && (s + p)[|s + p| - 1] == p[k] && (s + p)[..|s + p| - 1] == s + p[..k];
      TrimRightOver(s, p[..k]);
    }
  }

  lemma TrimOver(p: string, s: string, q: string)
    requires (forall c | c in p :: GoSpace(c)) && (forall c | c in q :: GoSpace(c))
    requires s != "" && !GoSpace(s[0]) && !GoSpace(s[|s| - 1])
    ensures TrimSpace(p + s + q) == s
  {
    assert p + s + q == p + (s + q) && (s + q)[0] == s[0];
    TrimLeftOver(p, s + q);
    TrimRightOver(s, q);
  }

  lemma BlankFirst(p: string, s: string, key: string)
    requires p != "" && (forall c | c in p :: GoSpace(c)) && key != "" && !GoSpace(key[0])
    ensures !(key <= p + s)
  {
    assert (p + s)[0] == p[0] && p[0] in p;
  }

  // Blanks before a setting: Go reads it, the hook does not and takes the default.
  lemma BlanksBeforeSettings(p: string, v: string, q: string)
    requires p != "" && Free(p, '\n') && Free(q, '\n')
    requires (forall c | c in p :: GoSpace(c)) && (forall c | c in q :: GoSpace(c))
    requires |v| == 1 && IsDigit(v[0])
    ensures var text := p + ("retain_auto=" + v) + q;
            ConfigRetain(Some(text)) == DigitValue(v[0]) && HookRetain(Some(text)) == 10
    ensures var text := p + ("auto_checkpoint=" + q + "off") + q;
            GoAutoOff(Split(text, '\n')) && HookAutoOn(Some(text))
  {
    SpacedRetention(p, v, q, p + ("retain_auto=" + v) + q);
    SpacedSwitch(p, "off", q, p + ("auto_checkpoint=" + q + "off") + q);
  }

  lemma SpacedRetention(p: string, v: string, q: string, text: string)
    requires p != "" && Free(p, '\n') && Free(q, '\n') && text == p + (RETAIN_KEY + v) + q
    requires (forall c | c in p :: GoSpace(c)) && (forall c | c in q :: GoSpace(c))
    requires |v| == 1 && IsDigit(v[0])
    ensures ConfigRetain(Some(text)) == DigitValue(v[0]) && HookRetain(Some(text)) == 10
  {
    var line := RETAIN_KEY + v;
    RetainLineReads(line, v);
    assert RETAIN_KEY[0] == 'r';
    TrimOver(p, line, q);
    OneLineText(text);
    var one := [text];
    assert one[1..] == [];
    BlankFirst(p, line + q, RETAIN_KEY);
    assert text == p + (line + q);
    assert SedRetain(one) == [] + SedRetain([]);
    OneDigit(v);
  }

  lemma SpacedSwitch(p: string, v: string, q: string, text: string)
    requires p != "" && Free(p, '\n') && Free(q, '\n') && v == "off" && text == p + (AUTO_KEY + q + v) + q
    requires (forall c | c in p :: GoSpace(c)) && (forall c | c in q :: GoSpace(c))
    ensures GoAutoOff(Split(text, '\n')) && HookAutoOn(Some(text))
  {
    hide TrimSpace, GoSpace, Split;
    var line := AUTO_KEY + q + v;
    SpacedSwitchGo(p, v, q, text);
    assert '\n' !in AUTO_KEY && '\n' !in v;
    OneLineText(text);
    var one := [text];
    assert GoAutoOffLine(one[0]);
    assert one[1..] == [];
    KeyIsSolid();
    BlankFirst(p, line + q, AUTO_KEY);
    assert text == p + (line + q);
    assert SedPrint(one, AUTO_KEY) == [] + SedPrint([], AUTO_KEY);
  }

  lemma KeyIsSolid()
    ensures AUTO_KEY != "" && !GoSpace(AUTO_KEY[0])
  {
    assert AUTO_KEY[0] == 'a';
  }

  lemma SpacedSwitchGo(p: string, v: string, q: string, text: string)
    requires v == "off" && text == p + (AUTO_KEY + q + v) + q
    requires (forall c | c in p :: GoSpace(c)) && (forall c | c in q :: GoSpace(c))
    ensures GoAutoOffLine(text)
  {
    hide TrimSpace;
    var line := AUTO_KEY + q + v;
    assert AUTO_KEY[0] == 'a' && line[0] == 'a' && line[|line| - 1] == 'f' && v[0] == 'o' && v[2] == 'f';
    TrimOver(p, line, q);
    assert line[|AUTO_KEY|..] == q + v + "";
    TrimOver(q, v, "");
  }

  // A sign: Go's number is the signed one, and a negative retention is no setting for either side.
  lemma SignedNumbers(n: nat)
    ensures Atoi("-" + Pad(n, 1)).Some? && Atoi("-" + Pad(n, 1)).value + n == 0
    ensures Atoi("+" + Pad(n, 1)).Some? && Atoi("+" + Pad(n, 1)).value == n
  {
    ValueOfPad(n, 1);
    assert ("-" + Pad(n, 1))[1..] == Pad(n, 1) && ("+" + Pad(n, 1))[1..] == Pad(n, 1);
  }

  lemma NegativeRetention(n: nat, text: string)
    requires n > 0 && text == "retain_auto=" + ("-" + Pad(n, 1))
    ensures ConfigRetain(Some(text)) == 10 && HookRetain(Some(text)) == 10
  {
    hide Atoi, TrimSpace, Pad, Split;
    var v := "-" + Pad(n, 1);
    SignedNumbers(n);
    NegativeText(n, v, text);
    OneLineText(text);
    NoSetting(text, v);
  }

  lemma NegativeText(n: nat, v: string, text: string)
    requires v == "-" + Pad(n, 1) && text == RETAIN_KEY + v
    ensures Free(text, '\n') && TrimSpace(text) == text && RETAIN_KEY <= text && text[|RETAIN_KEY|..] == v
    ensures v != "" && !AllDigits(v)
  {
    hide TrimSpace, Pad;
    assert RETAIN_KEY[0] == 'r' && '\n' !in RETAIN_KEY && v[0] == '-' && IsDigit(v[|v| - 1]);
    assert forall c | c in v :: c == '-' || IsDigit(c);
    assert text[|text| - 1] == v[|v| - 1] && text[0] == 'r';
    TrimSolid(text);
  }

  lemma NoSetting(text: string, v: string)
    requires RETAIN_KEY <= text && text[|RETAIN_KEY|..] == v && TrimSpace(text) == text
    requires !AllDigits(v) && Atoi(v).Some? && Atoi(v).value < 0 && Split(text, '\n') == [text]
    ensures ConfigRetain(Some(text)) == 10 && HookRetain(Some(text)) == 10
  {
    hide Atoi, TrimSpace, AllDigits, Split;
    var one := [text];
    assert one[1..] == [];
    assert GoRetain(one[1..]) == RETAIN_DEFAULT;
    assert SedRetain(one) == [] + SedRetain([]);
  }

  // -------------------------------------------------------------------------
  // Names
  // -------------------------------------------------------------------------

  // The names the design fixes.
  lemma FixedNames()
    ensures BASELINE == "@baseline" && RUNTIME == "@runtime" && HOSTID == "@hostid"
    ensures AUTO == "auto" && KEEP == "keep" && TEMPLATE == "main"
    ensures PERSISTENT == "persistent" && SCRATCH == "scratch" && RESCUE == "rescue" && UNKNOWN == "unknown"
    ensures CURRENT == "current" && THE_BASELINE == "baseline"
    ensures DisplayName("@baseline") == "baseline" && DisplayName("@runtime") == "scratch"
  {
  }

  // A slate's name is letters, digits, dashes and underscores, and none of five words.
  lemma SlateNames(n: string)
    ensures ValidName(n)
       <==> n != "" && n !in {"baseline", "scratch", "rescue", "runtime", "hostid"}
            && forall c | c in n ::
                 c in "abcdefghijklmnopqrstuvwxyz" || c in "ABCDEFGHIJKLMNOPQRSTUVWXYZ" || c in "0123456789" || c in "-_"
  {
    forall c: char
      ensures NameChar(c) <==>
                c in "abcdefghijklmnopqrstuvwxyz" || c in "ABCDEFGHIJKLMNOPQRSTUVWXYZ" || c in "0123456789" || c in "-_"
    {
      NameChars(c);
    }
    if ValidName(n) {
      forall c | c in n ensures NameChar(c) {
        var i :| 0 <= i < |n| && n[i] == c;
      }
    }
    AtWords(n);
  }

  lemma AtWords(n: string)
    ensures ReservedSubvol("@" + n) <==> n in {"baseline", "runtime", "hostid"}
  {
    assert ("@" + n)[1..] == n;
    assert "@" + "baseline" == BASELINE && "@" + "runtime" == RUNTIME && "@" + "hostid" == HOSTID;
  }

  lemma NameChars(c: char)
    ensures NameChar(c) <==>
              c in "abcdefghijklmnopqrstuvwxyz" || c in "ABCDEFGHIJKLMNOPQRSTUVWXYZ" || c in "0123456789" || c in "-_"
  {
    LowerCase(c);
    UpperCase(c);
    Digits(c);
    assert c in "-_" <==> c == '-' || c == '_';
  }

  lemma LowerCase(c: char)
    ensures 'a' <= c <= 'z' <==> c in "abcdefghijklmnopqrstuvwxyz"
  {
    var s := "abcdefghijklmnopqrstuvwxyz";
    assert forall i | 0 <= i < 26 :: s[i] as int == 'a' as int + i;
    if 'a' <= c <= 'z' {
      assert s[c as int - 'a' as int] == c;
    }
  }

  lemma UpperCase(c: char)
    ensures 'A' <= c <= 'Z' <==> c in "ABCDEFGHIJKLMNOPQRSTUVWXYZ"
  {
    var s := "ABCDEFGHIJKLMNOPQRSTUVWXYZ";
    assert forall i | 0 <= i < 26 :: s[i] as int == 'A' as int + i;
    if 'A' <= c <= 'Z' {
      assert s[c as int - 'A' as int] == c;
    }
  }

  lemma Digits(c: char)
    ensures IsDigit(c) <==> c in "0123456789"
  {
    var s := "0123456789";
    assert forall i | 0 <= i < 10 :: s[i] as int == '0' as int + i;
    if IsDigit(c) {
      assert s[c as int - '0' as int] == c;
    }
  }

  // A subvolume the hook accepts is an at sign, then name characters and dots, at least one, and no
  // two dots in a row.
  lemma HookSubvols(s: string)
    ensures ValidSubvol(s)
       <==> exists w :: s == "@" + w && w != "" && (forall c | c in w :: NameChar(c) || c == '.')
                        && forall i | 0 <= i < |w| - 1 :: !(w[i] == '.' && w[i + 1] == '.')
  {
    if ValidSubvol(s) {
      var w := s[1..];
      assert s == "@" + w;
      forall i | 0 <= i < |w| - 1 ensures !(w[i] == '.' && w[i + 1] == '.') {
        assert s[i + 1] == w[i] && s[i + 2] == w[i + 1];
      }
      assert forall i | 0 <= i < |w| :: w[i] == s[i + 1];
    }
    if w :| s == "@" + w && w != "" && (forall c | c in w :: NameChar(c) || c == '.')
            && forall i | 0 <= i < |w| - 1 :: !(w[i] == '.' && w[i + 1] == '.') {
      SubvolText(s, w);
    }
  }

  lemma SubvolText(s: string, w: string)
    requires s == "@" + w && w != "" && forall c | c in w :: NameChar(c) || c == '.'
    requires forall i | 0 <= i < |w| - 1 :: !(w[i] == '.' && w[i + 1] == '.')
    ensures ValidSubvol(s)
  {
    assert forall i | 1 <= i < |s| :: s[i] == w[i - 1] && s[i] in w;
    forall i | 0 <= i < |s| - 1 ensures !(s[i] == '.' && s[i + 1] == '.') {
      if i > 0 {
        assert s[i] == w[i - 1] && s[i + 1] == w[i];
      }
    }
  }

  // Numbers take at least four digits.
  lemma PaddedNumbers()
    ensures Pad(7, 4) == "0007" && Pad(12345, 4) == "12345"
  {
    assert Pad(0, 1) == "0" && Pad(0, 2) == "00" && Pad(0, 3) == "000";
    assert Pad(1, 0) == "1" && Pad(12, 1) == "12" && Pad(123, 2) == "123" && Pad(1234, 3) == "1234";
  }

  // The names of a slate's checkpoints 7 and 12345.
  lemma CheckpointNames(n: string)
    ensures CkptName(n, 7, AUTO) == "@" + n + ".ckpt." + "0007" + "." + "auto"
    ensures CkptName(n, 12345, KEEP) == "@" + n + ".ckpt." + "12345" + "." + "keep"
  {
    PaddedNumbers();
  }

  // -------------------------------------------------------------------------
  // The staged file
  // -------------------------------------------------------------------------

  lemma StagedFile(slate: string, source: string, reason: string)
    requires Free(reason, '\n')
    ensures StagedText(Pending(slate, source, reason))
         == "slate=" + slate + "\n" + "source=" + source + "\n" + "reason=" + reason + "\n"
  {
    OneLineSame(reason);
    assert "\nsource=" == "\n" + "source=" && "\nreason=" == "\n" + "reason=";
  }

  lemma {:induction false} OneLineSame(s: string)
    requires Free(s, '\n')
    ensures OneLine(s) == s
  {
    forall i | 0 <= i < |s| ensures OneLine(s)[i] == s[i] {
      assert s[i] in s;
    }
  }

  // -------------------------------------------------------------------------
  // Boot entries
  // -------------------------------------------------------------------------

  // rootflags=a,subvol=b becomes rootflags=a,subvol=s.
  lemma TokenRewritten(a: string, b: string, s: string)
    requires Free(a, ',') && Free(b, ',') && !("subvol=" <= a)
    ensures ReplaceToken("rootflags=" + (a + "," + ("subvol=" + b)), s) == "rootflags=" + (a + "," + ("subvol=" + s))
  {
    var part := SUBVOL + b;
    SplitHead(a, ',', part);
    SplitWhole(part, ',');
    assert TrimPrefix(ROOTFLAGS + (a + "," + part), ROOTFLAGS) == a + [','] + part;
    TwoParts(a, part, SUBVOL + s, s);
  }

  lemma TwoParts(a: string, b: string, c: string, s: string)
    requires !IsSubvol(a) && IsSubvol(b) && c == SUBVOL + s
    ensures Join(ReplaceParts([a, b], s), ",") == a + "," + c
  {
    var parts := [a, b];
    assert parts[1..] == [b];
    assert FirstSubvol([b]) == 0 && FirstSubvol(parts) == 1;
    var out := parts[1 := c];
    assert out[1..] == [c];
  }

  // The three words the hook looks for.
  lemma CommandLineWords(v: string)
    requires PlainSubvol(v)
    ensures ReadWord("rootflags=subvol=" + v, Args("", "", "")) == Args(v, "", "")
    ensures ReadWord("cleanslate.basis=" + v, Args("", "", "")) == Args("", v, "")
    ensures ReadWord("cleanslate.mode=" + v, Args("", "", "")) == Args("", "", v)
  {
    var none := Args("", "", "");
    assert "rootflags=subvol=" == ROOTFLAGS + SUBVOL;
    assert "rootflags=subvol=" + v == RootFlag(v);
    FlagReads(v, none);
    ModeWords(v, none);
  }

  // A leading slash of a subvolume or a basis means nothing.
  lemma SlashesDropped(v: string, b: string)
    requires PlainSubvol(v) && PlainSubvol(b)
    ensures HookArgs("rootflags=subvol=/" + v + " " + ("cleanslate.basis=/" + b)) == Args(v, b, "")
  {
    var f, w := ROOTFLAGS + SUBVOL + ("/" + v), BASIS + ("/" + b);
    var text := f + " " + w;
    assert "rootflags=subvol=/" + v + " " + ("cleanslate.basis=/" + b) == text by {
      assert "rootflags=subvol=/" == ROOTFLAGS + SUBVOL + "/" && "cleanslate.basis=/" == BASIS + "/";
    }
    SlashedWords(v, b, f, w);
    SpaceIsBlank();
    WordsAround(f, ' ', w, ShellBlank);
    WordsWhole(f, ShellBlank);
    WordsWhole(w, ShellBlank);
    assert Words(text, ShellBlank) == [f, w];
    ReadTwo(f, w, Args("", "", ""));
    assert ("/" + v)[1..] == v && ("/" + b)[1..] == b;
  }

  lemma SlashedWords(v: string, b: string, f: string, w: string)
    requires PlainSubvol(v) && PlainSubvol(b) && f == ROOTFLAGS + SUBVOL + ("/" + v) && w == BASIS + ("/" + b)
    ensures Solid(f, ShellBlank) && Solid(w, ShellBlank)
    ensures ReadWord(w, ReadWord(f, Args("", "", ""))) == Args("/" + v, "/" + b, "")
  {
    var part := SUBVOL + ("/" + v);
    assert f == ROOTFLAGS + part;
    SlashedFlag(v, part);
    ModeWords("/" + b, ReadWord(f, Args("", "", "")));
    hide GoSpace, ReadWord, PlainSubvol;
    var both := [f, w];
    SolidForBoth(both);
    assert Solid(both[0], ShellBlank) && Solid(both[1], ShellBlank);
  }

  lemma SlashedFlag(v: string, part: string)
    requires PlainSubvol(v) && part == SUBVOL + ("/" + v)
    ensures Solid(ROOTFLAGS + part, GoSpace) && ReadWord(ROOTFLAGS + part, Args("", "", "")) == Args("/" + v, "", "")
  {
    hide GoSpace;
    FlagKey();
    PrefixSolid(ROOTFLAGS, part);
    SplitWhole(part, ',');
    assert TrimPrefix(ROOTFLAGS + part, ROOTFLAGS) == part;
    LastOne(part, "");
    assert part[7..] == "/" + v;
  }

  lemma FlagKey()
    ensures NoSpace(ROOTFLAGS) && NoSpace(SUBVOL) && !GoSpace('/') && ',' !in SUBVOL
  {
  }

  // Go adds an at sign that is missing and drops a leading slash.
  lemma GoCompletes(n: string)
    requires ValidName(n)
    ensures GoSubvol("rootflags=subvol=" + n) == Some("@" + n)
    ensures GoSubvol("rootflags=subvol=/" + ("@" + n)) == Some("@" + n)
  {
    hide GoSubvol, GoSpace, Normal;
    var slashed := "/" + ("@" + n);
    NameTexts(n, slashed);
    assert "rootflags=subvol=" == ROOTFLAGS + SUBVOL && "rootflags=subvol=/" == ROOTFLAGS + SUBVOL + "/";
    GoOne(n);
    GoOne(slashed);
    assert ROOTFLAGS + SUBVOL + "/" + ("@" + n) == ROOTFLAGS + SUBVOL + slashed;
  }

  lemma NameTexts(n: string, slashed: string)
    requires ValidName(n) && slashed == "/" + ("@" + n)
    ensures n != "" && ',' !in n && NoSpace(n) && ',' !in slashed && NoSpace(slashed) && slashed != ""
    ensures Normal(n) == "@" + n && Normal(slashed) == "@" + n
  {
    ValidNameIsPlain(n);
    ValidNameIsValidSubvol(n);
    assert ',' !in n && '/' !in n && n[0] != '/' && NameChar(n[0]) && n[0] != '@';
    assert slashed[1..] == "@" + n;
  }

  lemma GoOne(v: string)
    requires v != "" && ',' !in v && NoSpace(v)
    ensures GoSubvol(ROOTFLAGS + SUBVOL + v) == Some(Normal(v))
  {
    var part := SUBVOL + v;
    var f := ROOTFLAGS + part;
    assert ROOTFLAGS + SUBVOL + v == f;
    assert NoSpace(ROOTFLAGS + SUBVOL) && Solid(f, GoSpace);
    WordsWhole(f, GoSpace);
    SplitWhole(part, ',');
    assert TrimPrefix(f, ROOTFLAGS) == part && PartsOf(f) == [part];
    FirstOfOne(part);
    assert part[7..] == v;
  }

  // The reasons staged, as they read back.
  lemma StagedReasons(d: Disk, n: string, c: string)
    requires ValidName(n) && Free(c, '\n') && Free(SlateOf(c), '\n')
    ensures HookField(StagedText(ResetOf(n)), "reason") == "reset to the baseline"
    ensures HookField(StagedText(RollbackTo(c)), "reason") == "rollback to checkpoint " + (SlateOf(c) + "." + Pad(SeqOf(c), 1))
  {
    hide HookField, StagedText, SeqOf, MatchCkpt;
    ValidNameIsValidSubvol(n);
    ResetReason(n);
    RollbackReason(c);
  }

  lemma ResetReason(n: string)
    requires Free("@" + n, '\n')
    ensures HookField(StagedText(ResetOf(n)), "reason") == "reset to the baseline"
  {
    hide HookField, StagedText;
    var reason := "reset to the baseline";
    assert '\n' !in BASELINE && '\n' !in reason;
    StagedRoundTrip(ResetOf(n));
    OneLineSame(reason);
  }

  lemma RollbackReason(c: string)
    requires Free(c, '\n') && Free(SlateOf(c), '\n')
    ensures HookField(StagedText(RollbackTo(c)), "reason") == "rollback to checkpoint " + (SlateOf(c) + "." + Pad(SeqOf(c), 1))
  {
    hide HookField, StagedText, SeqOf, MatchCkpt;
    var words := "rollback to checkpoint ";
    assert '\n' !in words;
    DigitsAreNoClass(Pad(SeqOf(c), 1));
    assert forall x | x in Pad(SeqOf(c), 1) :: IsDigit(x);
    StagedRoundTrip(RollbackTo(c));
    OneLineSame(words + Ref(c));
  }

  // The value of an entry's options key follows a blank, a space or a tab.
  lemma OptionsKey(v: string)
    ensures OptionValues(["options " + v]) == [" " + v] && OptionValues(["options\t" + v]) == ["\t" + v]
    ensures OptionValues(["optionsx" + v]) == []
  {
    KeyLine("options " + v, " " + v);
    KeyLine("options\t" + v, "\t" + v);
    KeyLine("optionsx" + v, "x" + v);
  }

  lemma KeyLine(line: string, v: string)
    requires v != "" && line == "options" + v
    ensures OptionValues([line]) == if v[0] == ' ' || v[0] == '\t' then [v] else []
  {
    hide TrimBlanks, Indent, IsTitle;
    OptionsShape("", v);
    assert "" + "options" + v == line;
    assert TrimBlanks(line)[7..] == v && TrimBlanks(line)[7] == v[0];
    var one := [line];
    assert one[1..] == [];
    assert OptionValues(one[1..]) == [];
  }

  // Words on a command line are set apart by spaces, tabs and newlines for the shell, and by some
  // more characters for Go.
  lemma WordBreaks(a: string, c: char, b: string)
    requires Solid(a, GoSpace) && Solid(b, GoSpace)
    ensures c in {' ', '\t', '\n'} ==> Words(a + [c] + b, ShellBlank) == [a, b]
    ensures c in {' ', '\t', '\n', '\r'} ==> Words(a + [c] + b, GoSpace) == [a, b]
    ensures c == '\r' ==> Words(a + [c] + b, ShellBlank) == [a + [c] + b]
  {
    hide GoSpace;
    BreakChars(c);
    var both := [a, b];
    SolidForBoth(both);
    assert Solid(both[0], ShellBlank) && Solid(both[1], ShellBlank);
    if c in {' ', '\t', '\n'} {
      WordsAround(a, c, b, ShellBlank);
      WordsWhole(a, ShellBlank);
      WordsWhole(b, ShellBlank);
    }
    if c in {' ', '\t', '\n', '\r'} {
      WordsAround(a, c, b, GoSpace);
      WordsWhole(a, GoSpace);
      WordsWhole(b, GoSpace);
    }
    if c == '\r' {
      WordsWhole(a + [c] + b, ShellBlank);
    }
  }

  lemma BreakChars(c: char)
    ensures c in {' ', '\t', '\n'} ==> ShellBlank(c)
    ensures c in {' ', '\t', '\n', '\r'} ==> GoSpace(c)
    ensures c == '\r' ==> !ShellBlank(c)
  {
  }
}
