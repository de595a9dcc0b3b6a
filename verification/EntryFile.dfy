/** Whole boot entries: rewriting twice, and what hook and Go read from an entry written for
    a fork or at build time. */
module EntryFile {
  import opened Text
  import opened Names
  import opened Entries
  import opened EntryLaws

  // -------------------------------------------------------------------------
  // Lines of a rewritten entry
  // -------------------------------------------------------------------------

  lemma ScanLinesFree(text: string)
    ensures AllFree(ScanLines(text), '\n')
  {
    SplitFree(text, '\n');
    var parts := Split(text, '\n');
    var kept := if parts[|parts| - 1] == "" then parts[..|parts| - 1] else parts;
    forall i | 0 <= i < |kept| ensures Free(DropCR(kept[i]), '\n') {
      assert Free(parts[i], '\n');
    }
  }

  lemma TitleStays(name: string)
    requires NoSpace(name)
    ensures IsTitle(TitleLine(name)) && !IsOptions(TitleLine(name))
    ensures DropCR(TitleLine(name)) == TitleLine(name) && Free(TitleLine(name), '\n')
  {
    TitleText(TitleLine(name), name);
    TitleKind(TitleLine(name));
  }

  lemma TitleText(t: string, name: string)
    requires NoSpace(name) && t == TitleLine(name)
    ensures t[..5] == "title" && DropCR(t) == t && Free(t, '\n')
  {
    var key := "title    cleanslate: ";
    assert t == key + name;
    assert t[|t| - 1] != '\r' by {
      assert name == "" ==> t[|t| - 1] == key[|key| - 1];
      assert name != "" ==> t[|t| - 1] == name[|name| - 1];
    }
    forall i | 0 <= i < |t| ensures t[i] != '\n' {
      assert t[i] == if i < |key| then key[i] else name[i - |key|];
    }
  }

  lemma TitleKind(t: string)
    requires |t| >= 5 && t[..5] == "title"
    ensures IsTitle(t) && !IsOptions(t)
  {
    assert t[0] == t[..5][0] == 't';
    assert TrimBlanks(t) == t;
    assert "options"[0] == 'o';
  }

  lemma RewriteLineFree(line: string, name: string, s: string)
    requires Free(line, '\n') && NoSpace(name) && PlainSubvol(s)
    ensures Free(RewriteLine(line, name, s), '\n')
  {
    TitleStays(name);
    if IsOptions(line) {
      RewrittenOptionsChars(line, s);
    }
  }

  lemma RewriteLinesFree(lines: seq<string>, name: string, s: string)
    requires AllFree(lines, '\n') && NoSpace(name) && PlainSubvol(s)
    ensures AllFree(RewriteLines(lines, name, s), '\n')
  {
    forall i | 0 <= i < |lines| ensures Free(RewriteLine(lines[i], name, s), '\n') {
      RewriteLineFree(lines[i], name, s);
    }
  }

  lemma SplitRewritten(text: string, name: string, s: string)
    requires NoSpace(name) && PlainSubvol(s)
    ensures var lines := RewriteLines(ScanLines(text), name, s);
            Split(RewriteEntry(text, name, s), '\n') == (if lines == [] then [""] else lines) + [""]
  {
    ScanLinesFree(text);
    RewriteLinesFree(ScanLines(text), name, s);
    var lines := RewriteLines(ScanLines(text), name, s);
    if lines == [] {
      assert RewriteEntry(text, name, s) == "" + ['\n'] + "";
      SplitHead("", '\n', "");
    } else {
      SplitLines(lines);
    }
  }

  lemma ScanRewritten(text: string, name: string, s: string)
    requires NoSpace(name) && PlainSubvol(s) && ScanLines(text) != []
    ensures ScanLines(RewriteEntry(text, name, s)) == DropEach(RewriteLines(ScanLines(text), name, s))
  {
    SplitRewritten(text, name, s);
    var lines := RewriteLines(ScanLines(text), name, s);
    assert (lines + [""])[..|lines|] == lines;
  }

  lemma {:induction false} TrimMonotone(p: string, l: string)
    requires p <= l
    ensures TrimBlanks(p) <= TrimBlanks(l)
  {
    if p != "" && (p[0] == ' ' || p[0] == '\t') {
      TrimMonotone(p[1..], l[1..]);
    }
  }

  lemma DropCRKind(line: string)
    ensures IsTitle(DropCR(line)) ==> IsTitle(line)
    ensures IsOptions(DropCR(line)) ==> IsOptions(line)
  {
    TrimMonotone(DropCR(line), line);
  }

  lemma OptionsNotTitle(line: string)
    requires IsOptions(line)
    ensures !IsTitle(line)
  {
    assert TrimBlanks(line)[0] == "options"[0] == 'o' && "title"[0] == 't';
  }

  predicate Other(line: string) { !IsTitle(line) && !IsOptions(line) }

  lemma RewriteLineTwice(line: string, n: string, s: string, n': string, s': string)
    requires NoSpace(n) && PlainSubvol(s) && PlainSubvol(s')
    ensures RewriteLine(DropCR(RewriteLine(line, n, s)), n', s') == RewriteLine(line, n', s')
       <==> (Other(line) ==> DropCR(line) == line)
  {
    if IsTitle(line) {
      TitleStays(n);
    } else if IsOptions(line) {
      RewrittenOptions(line, s);
      RewrittenOptionsChars(line, s);
      RewriteOptionsTwice(line, s, s');
    } else {
      DropCRKind(line);
    }
  }

  // A copied line that still ends in a carriage return after the scanner dropped one.
  predicate NoStrayCR(text: string) {
    forall i | 0 <= i < |ScanLines(text)| ::
      Other(ScanLines(text)[i]) ==> DropCR(ScanLines(text)[i]) == ScanLines(text)[i]
  }

  lemma RewriteLinesTwice(lines: seq<string>, n: string, s: string, n': string, s': string)
    requires NoSpace(n) && PlainSubvol(s) && PlainSubvol(s')
    ensures RewriteLines(DropEach(RewriteLines(lines, n, s)), n', s') == RewriteLines(lines, n', s')
       <==> forall i | 0 <= i < |lines| :: Other(lines[i]) ==> DropCR(lines[i]) == lines[i]
  {
    var first := DropEach(RewriteLines(lines, n, s));
    var twice := RewriteLines(first, n', s');
    var once := RewriteLines(lines, n', s');
    forall i | 0 <= i < |lines|
      ensures twice[i] == once[i] <==> (Other(lines[i]) ==> DropCR(lines[i]) == lines[i])
    {
      assert first[i] == DropCR(RewriteLine(lines[i], n, s));
      RewriteLineTwice(lines[i], n, s, n', s');
    }
    SameTexts(twice, once);
  }

  lemma SameTexts(a: seq<string>, b: seq<string>)
    requires |a| == |b|
    ensures a == b <==> forall i | 0 <= i < |a| :: a[i] == b[i]
  {
  }

  lemma JoinLinesInjective(a: seq<string>, b: seq<string>)
    requires AllFree(a, '\n') && AllFree(b, '\n') && |a| == |b| >= 1
    ensures Join(a, "\n") + "\n" == Join(b, "\n") + "\n" ==> a == b
  {
    SplitLines(a);
    SplitLines(b);
    assert (a + [""])[..|a|] == a && (b + [""])[..|b|] == b;
  }

  lemma RewriteEmptyTwice(text: string, n: string, s: string, n': string, s': string)
    requires NoSpace(n) && PlainSubvol(s) && ScanLines(text) == []
    ensures RewriteEntry(RewriteEntry(text, n, s), n', s') == RewriteEntry(text, n', s')
  {
    var once := RewriteEntry(text, n, s);
    SplitRewritten(text, n, s);
    var parts := Split(once, '\n');
    assert parts == ["", ""];
    assert parts[..1] == [""];
    var one: seq<string> := [""];
    assert ScanLines(once) == DropEach(one) == one;
    assert TrimBlanks("") == "";
    assert Other("");
    assert RewriteLines(one, n', s') == one;
  }

  lemma RewriteLinesOfTwice(text: string, n: string, s: string, n': string, s': string)
    requires NoSpace(n) && NoSpace(n') && PlainSubvol(s) && PlainSubvol(s') && ScanLines(text) != []
    ensures var twice := RewriteLines(DropEach(RewriteLines(ScanLines(text), n, s)), n', s');
            var once := RewriteLines(ScanLines(text), n', s');
            Join(twice, "\n") + "\n" == Join(once, "\n") + "\n" <==> twice == once
  {
    var lines := ScanLines(text);
    ScanLinesFree(text);
    RewriteLinesFree(lines, n', s');
    var dropped := DropEach(RewriteLines(lines, n, s));
    DroppedFree(lines, n, s);
    RewriteLinesFree(dropped, n', s');
    JoinLinesInjective(RewriteLines(dropped, n', s'), RewriteLines(lines, n', s'));
  }

  lemma DroppedFree(lines: seq<string>, n: string, s: string)
    requires AllFree(lines, '\n') && NoSpace(n) && PlainSubvol(s)
    ensures AllFree(DropEach(RewriteLines(lines, n, s)), '\n')
  {
    var first := RewriteLines(lines, n, s);
    RewriteLinesFree(lines, n, s);
    forall i | 0 <= i < |first| ensures Free(DropEach(first)[i], '\n') {
      assert Free(first[i], '\n');
    }
  }

  // Rewriting twice equals the second rewrite alone exactly when no copied line of the entry
  // ends in two carriage returns: the scanner of the second pass drops one more.
  lemma RewriteTwice(text: string, n: string, s: string, n': string, s': string)
    requires NoSpace(n) && NoSpace(n') && PlainSubvol(s) && PlainSubvol(s')
    ensures RewriteEntry(RewriteEntry(text, n, s), n', s') == RewriteEntry(text, n', s')
       <==> NoStrayCR(text)
  {
    if ScanLines(text) == [] {
      RewriteEmptyTwice(text, n, s, n', s');
    } else {
      ScanRewritten(text, n, s);
      RewriteLinesTwice(ScanLines(text), n, s, n', s');
      RewriteLinesOfTwice(text, n, s, n', s');
    }
  }

  // A line that ends in two carriage returns, before the scanner drops one and after.
  const STRAY_LINE := "x\r"
  const STRAY_ENTRY := "x\r\r\n"

  lemma OneLineScans(text: string, line: string)
    requires text == line + ['\r'] + ['\n'] + "" && Free(line, '\n')
    ensures ScanLines(text) == [line]
  {
    var l := line + ['\r'];
    SplitHead(l, '\n', "");
    var parts := Split(text, '\n');
    assert parts == [l, ""];
    assert parts[..1] == [l];
    assert DropCR(l) == line;
  }

  lemma StrayLine()
    ensures ScanLines(STRAY_ENTRY) == [STRAY_LINE]
  {
    hide ScanLines;
    OneLineScans(STRAY_ENTRY, STRAY_LINE);
  }

  lemma StrayIsOther()
    ensures Other(STRAY_LINE) && DropCR(STRAY_LINE) != STRAY_LINE
  {
    assert STRAY_LINE[0] == 'x';
    assert TrimBlanks(STRAY_LINE) == STRAY_LINE;
    assert "title"[0] == 't' && "options"[0] == 'o';
  }

  // A concrete entry on which it fails.
  lemma RewriteTwiceFails(n: string, s: string, n': string, s': string)
    requires NoSpace(n) && NoSpace(n') && PlainSubvol(s) && PlainSubvol(s')
    ensures RewriteEntry(RewriteEntry(STRAY_ENTRY, n, s), n', s') != RewriteEntry(STRAY_ENTRY, n', s')
  {
    StrayLine();
    StrayIsOther();
    StrayIsStray(STRAY_ENTRY, STRAY_LINE);
    RewriteTwice(STRAY_ENTRY, n, s, n', s');
  }

  lemma StrayIsStray(text: string, line: string)
    requires ScanLines(text) == [line] && Other(line) && DropCR(line) != line
    ensures !NoStrayCR(text)
  {
    assert ScanLines(text)[0] == line;
  }

  // Every line that is neither title nor options keeps its text and place; titles and options
  // lines stay title and options lines.
  lemma LinesKept(text: string, name: string, s: string, i: nat)
    requires i < |ScanLines(text)| && PlainSubvol(s) && NoSpace(name)
    ensures var line := ScanLines(text)[i];
      var out := Split(RewriteEntry(text, name, s), '\n');
      && |out| == |ScanLines(text)| + 1
      && (Other(line) ==> out[i] == line)
      && (IsTitle(line) ==> out[i] == TitleLine(name))
      && (IsOptions(line) ==> IsOptions(out[i]) && FieldsOf(out[i]) == RewriteFields(FieldsOf(line), s))
  {
    SplitRewritten(text, name, s);
    var line := ScanLines(text)[i];
    var out := Split(RewriteEntry(text, name, s), '\n');
    assert out[i] == RewriteLine(line, name, s);
    if IsOptions(line) {
      OptionsNotTitle(line);
      RewrittenOptions(line, s);
    }
  }

  // -------------------------------------------------------------------------
  // The words a rewritten entry puts on the command line
  // -------------------------------------------------------------------------

  function Flat(values: seq<string>, blank: char -> bool): seq<string> {
    if values == [] then [] else Words(values[0], blank) + Flat(values[1..], blank)
  }

  lemma {:induction false} WordsOfValues(values: seq<string>, blank: char -> bool)
    requires blank(' ')
    ensures Words(Join(values, " "), blank) == Flat(values, blank)
  {
    if |values| == 1 {
      assert values[1..] == [];
      assert Flat(values, blank) == Words(values[0], blank) + [];
    } else if |values| > 1 {
      WordsAround(values[0], ' ', Join(values[1..], " "), blank);
      WordsOfValues(values[1..], blank);
      assert values[0] + " " + Join(values[1..], " ") == values[0] + [' '] + Join(values[1..], " ");
    }
  }

  lemma {:induction false} OptionValuesConcat(a: seq<string>, b: seq<string>)
    ensures OptionValues(a + b) == OptionValues(a) + OptionValues(b)
  {
    if a == [] {
      assert a + b == b;
    } else {
      assert (a + b)[1..] == a[1..] + b;
      OptionValuesConcat(a[1..], b);
    }
  }

  lemma {:induction false} FlatConcat(a: seq<string>, b: seq<string>, blank: char -> bool)
    ensures Flat(a + b, blank) == Flat(a, blank) + Flat(b, blank)
  {
    if a == [] {
      assert a + b == b;
    } else {
      assert (a + b)[1..] == a[1..] + b;
      FlatConcat(a[1..], b, blank);
    }
  }

  // The fields of all options lines, rewritten.
  function RewrittenFields(lines: seq<string>, s: string): seq<string> {
    if lines == [] then []
    else (if IsOptions(lines[0]) then RewriteFields(FieldsOf(lines[0]), s) else [])
         + RewrittenFields(lines[1..], s)
  }

  // Both blank tests split at spaces and only at what Go calls space.
  predicate BlankTest(blank: char -> bool) {
    blank(' ') && forall c: char :: blank(c) ==> GoSpace(c)
  }

  lemma ValueOfLine(line: string, name: string, s: string, blank: char -> bool)
    requires PlainSubvol(s) && NoSpace(name) && BlankTest(blank)
    ensures Flat(OptionValues([RewriteLine(line, name, s)]), blank)
         == if IsOptions(line) then RewriteFields(FieldsOf(line), s) else []
  {
    var r := RewriteLine(line, name, s);
    var one: seq<string> := [r];
    assert one[1..] == [];
    assert OptionValues(one[1..]) == [];
    if IsOptions(line) {
      OptionsNotTitle(line);
      var fields := RewriteFields(FieldsOf(line), s);
      RewrittenOptions(line, s);
      WordsSolid(TrimBlanks(line)[7..], GoSpace);
      FieldsSolid(FieldsOf(line), s);
      assert AllSolid(fields, blank);
      WordsAfterKey(fields, blank);
      var v := "  " + Join(fields, " ");
      assert TrimBlanks(r)[7..] == v && TrimBlanks(r)[7] == ' ';
      var vs: seq<string> := [v];
      assert OptionValues(one) == vs;
      assert vs[1..] == [];
      assert Flat(vs, blank) == Words(v, blank) + [];
    } else {
      TitleStays(name);
      assert !IsOptions(r);
      assert OptionValues(one) == [];
    }
  }

  lemma FlatCons(r: string, rest: seq<string>, blank: char -> bool)
    ensures Flat(OptionValues([r] + rest), blank)
         == Flat(OptionValues([r]), blank) + Flat(OptionValues(rest), blank)
  {
    OptionValuesConcat([r], rest);
    FlatConcat(OptionValues([r]), OptionValues(rest), blank);
  }

  lemma RewriteLinesCons(lines: seq<string>, name: string, s: string)
    requires lines != []
    ensures RewriteLines(lines, name, s) == [RewriteLine(lines[0], name, s)] + RewriteLines(lines[1..], name, s)
  {
    var all, rest := RewriteLines(lines, name, s), RewriteLines(lines[1..], name, s);
    forall i | 0 < i < |lines| ensures all[i] == rest[i - 1] {
      assert lines[i] == lines[1..][i - 1];
    }
  }

  lemma {:induction false} ValuesOfRewritten(lines: seq<string>, name: string, s: string, blank: char -> bool)
    requires PlainSubvol(s) && NoSpace(name) && BlankTest(blank)
    ensures Flat(OptionValues(RewriteLines(lines, name, s)), blank) == RewrittenFields(lines, s)
  {
    if lines == [] {
      assert RewriteLines(lines, name, s) == [];
    } else {
      ValuesOfRewritten(lines[1..], name, s, blank);
      ValueOfLine(lines[0], name, s, blank);
      RewriteLinesCons(lines, name, s);
      FlatCons(RewriteLine(lines[0], name, s), RewriteLines(lines[1..], name, s), blank);
    }
  }

  lemma EmptyLineHasNoValue(a: seq<string>)
    ensures OptionValues(a + [""]) == OptionValues(a)
  {
    OptionValuesConcat(a, [""]);
    assert TrimBlanks("") == "";
    var one: seq<string> := [""];
    assert one[1..] == [];
    assert OptionValues(one) == [];
  }

  lemma WordsOfRewritten(text: string, name: string, s: string, blank: char -> bool)
    requires PlainSubvol(s) && NoSpace(name) && BlankTest(blank)
    ensures Words(CmdlineOf(RewriteEntry(text, name, s)), blank) == RewrittenFields(ScanLines(text), s)
  {
    var lines := RewriteLines(ScanLines(text), name, s);
    SplitRewritten(text, name, s);
    ValuesOfRewritten(ScanLines(text), name, s, blank);
    if lines == [] {
      EmptyLineHasNoValue([]);
      EmptyLineHasNoValue([""]);
      assert [] + [""] == [""];
    } else {
      EmptyLineHasNoValue(lines);
    }
    WordsOfValues(OptionValues(lines), blank);
  }

  // -------------------------------------------------------------------------
  // Templates whose forks boot
  // -------------------------------------------------------------------------

  // At most one subvol= in a rootflags= field, and no cleanslate.mode=.
  predicate GoodWord(w: string) {
    (IsRootflags(w) ==> CountSubvol(PartsOf(w)) <= 1) && !(MODE <= w)
  }

  predicate GoodWords(ws: seq<string>) {
    forall i | 0 <= i < |ws| :: GoodWord(ws[i])
  }

  predicate GoodLine(line: string) {
    IsOptions(line) ==> GoodWords(FieldsOf(line))
  }

  predicate GoodLines(lines: seq<string>) {
    forall i | 0 <= i < |lines| :: GoodLine(lines[i])
  }

  predicate HasOptions(lines: seq<string>) {
    if lines == [] then false else IsOptions(lines[0]) || HasOptions(lines[1..])
  }

  predicate GoodTemplate(text: string) {
    GoodLines(ScanLines(text)) && HasOptions(ScanLines(text))
  }

  lemma {:induction false} NoMode(ws: seq<string>, a: Args)
    requires GoodWords(ws)
    ensures ReadWords(ws, a).mode == a.mode
  {
    if ws != [] {
      assert GoodWord(ws[0]);
      forall i | 0 <= i < |ws[1..]| ensures GoodWord(ws[1..][i]) {
        assert ws[1..][i] == ws[i + 1];
      }
      NoMode(ws[1..], ReadWord(ws[0], a));
    }
  }

  lemma {:induction false} LastRootflagsIn(ws: seq<string>)
    ensures LastRootflags(ws).Some? ==> LastRootflags(ws).value in ws && IsRootflags(LastRootflags(ws).value)
  {
    if ws != [] {
      LastRootflagsIn(ws[1..]);
    }
  }

  lemma ReadGoodWords(ws: seq<string>, s: string, a: Args)
    requires PlainSubvol(s) && GoodWords(ws)
    ensures ReadWords(RewriteFields(ws, s), a).subvol == s
    ensures ReadWords(RewriteFields(ws, s), a).mode == a.mode
  {
    ReadRewritten(ws, s, a);
    NoMode(ws, a);
    LastRootflagsIn(ws);
  }

  lemma {:induction false} ReadGoodLines(lines: seq<string>, s: string, a: Args)
    requires PlainSubvol(s) && GoodLines(lines)
    ensures var r := ReadWords(RewrittenFields(lines, s), a);
            r.mode == a.mode && r.subvol == if HasOptions(lines) then s else a.subvol
    ensures GoFirst(RewrittenFields(lines, s)) == if HasOptions(lines) then Some(s) else None
  {
    if lines != [] {
      assert GoodLine(lines[0]);
      forall i | 0 <= i < |lines[1..]| ensures GoodLine(lines[1..][i]) {
        assert lines[1..][i] == lines[i + 1];
      }
      var here := if IsOptions(lines[0]) then RewriteFields(FieldsOf(lines[0]), s) else [];
      if IsOptions(lines[0]) {
        ReadGoodWords(FieldsOf(lines[0]), s, a);
        GoFirstRewritten(FieldsOf(lines[0]), s);
      }
      ReadWordsConcat(here, RewrittenFields(lines[1..], s), a);
      GoFirstConcat(here, RewrittenFields(lines[1..], s));
      ReadGoodLines(lines[1..], s, ReadWords(here, a));
    }
  }

  lemma GoodWordsRewritten(ws: seq<string>, s: string)
    requires PlainSubvol(s) && GoodWords(ws)
    ensures GoodWords(RewriteFields(ws, s))
  {
    var r := RewriteFields(ws, s);
    assert MODE[0] == 'c' && ROOTFLAGS[0] == 'r';
    forall i | 0 <= i < |r| ensures GoodWord(r[i]) {
      if i < |ws| {
        assert r[i] == RewriteField(ws[i], s);
        assert GoodWord(ws[i]);
        if IsRootflags(ws[i]) {
          ReplacedTokenParts(ws[i], s);
          LastOfReplaced(PartsOf(ws[i]), s, "");
          assert r[i][0] == 'r';
        }
      } else {
        FreshToken(s);
        assert r[i] == ROOTFLAGS + SUBVOL + s;
        assert r[i][0] == 'r';
        var one: seq<string> := [SUBVOL + s];
        assert one[1..] == [];
        assert CountSubvol(one) <= 1;
      }
    }
  }

  lemma GoodLineRewritten(line: string, name: string, s: string)
    requires GoodLine(line) && PlainSubvol(s) && NoSpace(name)
    ensures GoodLine(DropCR(RewriteLine(line, name, s)))
    ensures IsOptions(line) ==> IsOptions(DropCR(RewriteLine(line, name, s)))
  {
    TitleStays(name);
    if IsOptions(line) {
      OptionsNotTitle(line);
      RewrittenOptions(line, s);
      RewrittenOptionsChars(line, s);
      GoodWordsRewritten(FieldsOf(line), s);
    } else {
      DropCRKind(RewriteLine(line, name, s));
    }
  }

  lemma {:induction false} HasOptionsAt(lines: seq<string>, i: nat)
    requires i < |lines| && IsOptions(lines[i])
    ensures HasOptions(lines)
  {
    hide IsOptions;
    if i > 0 {
      HasOptionsAt(lines[1..], i - 1);
    }
  }

  lemma {:induction false} OptionsIndex(lines: seq<string>) returns (i: nat)
    requires HasOptions(lines)
    ensures i < |lines| && IsOptions(lines[i])
  {
    hide IsOptions;
    if IsOptions(lines[0]) {
      i := 0;
    } else {
      var j := OptionsIndex(lines[1..]);
      i := j + 1;
    }
  }

  lemma GoodTemplateRewritten(text: string, name: string, s: string)
    requires GoodTemplate(text) && PlainSubvol(s) && NoSpace(name)
    ensures GoodTemplate(RewriteEntry(text, name, s))
  {
    var lines := ScanLines(text);
    ScanRewritten(text, name, s);
    var out := DropEach(RewriteLines(lines, name, s));
    forall i | 0 <= i < |lines|
      ensures GoodLine(out[i]) && (IsOptions(lines[i]) ==> IsOptions(out[i]))
    {
      assert GoodLine(lines[i]);
      GoodLineRewritten(lines[i], name, s);
    }
    var i := OptionsIndex(lines);
    HasOptionsAt(out, i);
  }

  // The entry written for a fork is read by the hook as a persistent boot of the new slate, and
  // the Go fallback reads the same subvolume; the entry is a good template in turn.
  lemma ForkEntryReads(text: string, name: string)
    requires GoodTemplate(text) && ValidName(name)
    ensures var out := RewriteEntry(text, name, "@" + name);
      && HookArgs(CmdlineOf(out)).subvol == "@" + name && HookArgs(CmdlineOf(out)).mode == ""
      && GoSubvol(CmdlineOf(out)) == Some("@" + name)
      && GoodTemplate(out)
  {
    var s := "@" + name;
    ValidNameIsPlain(name);
    WordsOfRewritten(text, name, s, ShellBlank);
    WordsOfRewritten(text, name, s, GoSpace);
    ReadGoodLines(ScanLines(text), s, Args("", "", ""));
    GoodTemplateRewritten(text, name, s);
    assert StripSlash(s) == s;
  }
}
