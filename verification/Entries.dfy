/** Boot entries: the Go side clones one and rewrites its subvolume, the hook and the Go
    fallback each read a subvolume back from the command line the entry gives. */
module Entries {
  import opened Text
  import opened Names

  const ROOTFLAGS := "rootflags="
  const SUBVOL := "subvol="
  const BASIS := "cleanslate.basis="
  const MODE := "cleanslate.mode="

  // A subvolume that can stand in an options line: no blanks, no comma, no leading slash.
  predicate PlainSubvol(s: string) {
    && s != "" && s[0] == '@'
    && forall i | 0 <= i < |s| :: !GoSpace(s[i]) && s[i] != ','
  }

  lemma ValidNameIsPlain(name: string)
    requires ValidName(name)
    ensures PlainSubvol("@" + name)
    ensures forall i | 0 <= i < |name| :: !GoSpace(name[i])
  {
    var s := "@" + name;
    assert forall i | 1 <= i < |s| :: s[i] == name[i - 1] && NameChar(s[i]);
  }

  // -------------------------------------------------------------------------
  // replaceSubvolToken
  // -------------------------------------------------------------------------

  predicate IsSubvol(part: string) { SUBVOL <= part }

  predicate IsRootflags(field: string) { ROOTFLAGS <= field }

  function FirstSubvol(parts: seq<string>): (i: nat)
    ensures i <= |parts|
    ensures i < |parts| ==> IsSubvol(parts[i])
    ensures forall j | 0 <= j < i :: !IsSubvol(parts[j])
  {
    if parts == [] || IsSubvol(parts[0]) then 0 else 1 + FirstSubvol(parts[1..])
  }

  function ReplaceParts(parts: seq<string>, s: string): seq<string> {
    var i := FirstSubvol(parts);
    if i < |parts| then parts[i := SUBVOL + s] else parts + [SUBVOL + s]
  }

  // The comma-separated parts of a rootflags= field.
  function PartsOf(field: string): (parts: seq<string>)
    ensures |parts| >= 1
  {
    Split(TrimPrefix(field, ROOTFLAGS), ',')
  }

  function ReplaceToken(field: string, s: string): (r: string)
    ensures IsRootflags(r)
  {
    ROOTFLAGS + Join(ReplaceParts(PartsOf(field), s), ",")
  }

  method ReplaceSubvolToken(field: string, s: string) returns (r: string)
    ensures r == ReplaceToken(field, s)
  {
    var parts := PartsOf(field);
    for i := 0 to |parts|
      invariant i <= FirstSubvol(parts)
    {
      if IsSubvol(parts[i]) {
        parts := parts[i := SUBVOL + s];
        return ROOTFLAGS + Join(parts, ",");
      }
    }
    parts := parts + [SUBVOL + s];
    return ROOTFLAGS + Join(parts, ",");
  }

  // The first subvol= part is the new one; every other part keeps its value and place.
  lemma ReplacedParts(parts: seq<string>, s: string)
    ensures var i, r := FirstSubvol(parts), ReplaceParts(parts, s);
            && |r| == |parts| + (if i == |parts| then 1 else 0)
            && FirstSubvol(r) == i < |r| && r[i] == SUBVOL + s
            && forall j | 0 <= j < |parts| && j != i :: r[j] == parts[j]
  {
    var i, r := FirstSubvol(parts), ReplaceParts(parts, s);
    assert IsSubvol(r[i]);
    assert forall j | 0 <= j < i :: r[j] == parts[j];
  }

  lemma ReplacePartsTwice(parts: seq<string>, a: string, b: string)
    ensures ReplaceParts(ReplaceParts(parts, a), b) == ReplaceParts(parts, b)
  {
    ReplacedParts(parts, a);
    ReplacedParts(parts, b);
    ReplacedParts(ReplaceParts(parts, a), b);
  }

  lemma ReplacedTokenParts(field: string, s: string)
    requires ',' !in s
    ensures PartsOf(ReplaceToken(field, s)) == ReplaceParts(PartsOf(field), s)
  {
    var parts := PartsOf(field);
    var r := ReplaceParts(parts, s);
    SplitFree(TrimPrefix(field, ROOTFLAGS), ',');
    ReplacedParts(parts, s);
    assert Free(SUBVOL + s, ',');
    forall j | 0 <= j < |r| ensures Free(r[j], ',') {
      if j != FirstSubvol(parts) {
        assert r[j] == parts[j];
      }
    }
    assert [','] == ",";
    SplitJoin(r, ',');
    assert ReplaceToken(field, s)[|ROOTFLAGS|..] == Join(r, ",");
  }

  // -------------------------------------------------------------------------
  // rewriteOptionsLine
  // -------------------------------------------------------------------------

  function RewriteField(field: string, s: string): string {
    if IsRootflags(field) then ReplaceToken(field, s) else field
  }

  function RewriteEach(fields: seq<string>, s: string): (r: seq<string>)
    ensures |r| == |fields|
    ensures forall i | 0 <= i < |fields| :: r[i] == RewriteField(fields[i], s)
  {
    if fields == [] then [] else [RewriteField(fields[0], s)] + RewriteEach(fields[1..], s)
  }

  predicate HasRootflags(fields: seq<string>) {
    exists i | 0 <= i < |fields| :: IsRootflags(fields[i])
  }

  function RewriteFields(fields: seq<string>, s: string): seq<string> {
    RewriteEach(fields, s) + if HasRootflags(fields) then [] else [ROOTFLAGS + SUBVOL + s]
  }

  predicate IsOptions(line: string) { "options" <= TrimBlanks(line) }

  predicate IsTitle(line: string) { "title" <= TrimBlanks(line) }

  // The whitespace-separated fields after "options".
  function FieldsOf(line: string): seq<string>
    requires IsOptions(line)
  {
    Words(TrimBlanks(line)[7..], GoSpace)
  }

  function Indent(line: string): string {
    line[..|line| - |TrimBlanks(line)|]
  }

  function RewriteOptions(line: string, s: string): string {
    if !IsOptions(line) then line
    else Indent(line) + "options  " + Join(RewriteFields(FieldsOf(line), s), " ")
  }

  method RewriteAllFields(words: seq<string>, s: string) returns (fields: seq<string>)
    ensures fields == RewriteFields(words, s)
  {
    fields := [];
    var replaced := false;
    for i := 0 to |words|
      invariant |fields| == i && forall j | 0 <= j < i :: fields[j] == RewriteField(words[j], s)
      invariant replaced <==> exists j | 0 <= j < i :: IsRootflags(words[j])
    {
      if ROOTFLAGS <= words[i] {
        var f := ReplaceSubvolToken(words[i], s);
        fields := fields + [f];
        replaced := true;
        continue;
      }
      fields := fields + [words[i]];
    }
    assert fields == RewriteEach(words, s);
    if !replaced {
      fields := fields + [ROOTFLAGS + SUBVOL + s];
    }
  }

  method RewriteOptionsLine(line: string, s: string) returns (r: string)
    ensures r == RewriteOptions(line, s)
  {
    var trimmed := TrimBlanks(line);
    var prefix := line[..|line| - |trimmed|];
    if !("options" <= trimmed) {
      return line;
    }
    var fields := RewriteAllFields(Words(trimmed[7..], GoSpace), s);
    r := prefix + "options  " + Join(fields, " ");
  }

  // -------------------------------------------------------------------------
  // rewriteBLSEntry
  // -------------------------------------------------------------------------

  function DropCR(line: string): string {
    if line != "" && line[|line| - 1] == '\r' then line[..|line| - 1] else line
  }

  function DropEach(lines: seq<string>): (r: seq<string>)
    ensures |r| == |lines| && forall i | 0 <= i < |lines| :: r[i] == DropCR(lines[i])
  {
    if lines == [] then [] else [DropCR(lines[0])] + DropEach(lines[1..])
  }

  // The lines a bufio.Scanner yields: no empty one after a final newline, no trailing CR.
  function ScanLines(text: string): seq<string> {
    var parts := Split(text, '\n');
    DropEach(if parts[|parts| - 1] == "" then parts[..|parts| - 1] else parts)
  }

  function TitleLine(name: string): string { "title    cleanslate: " + name }

  function RewriteLine(line: string, name: string, s: string): string {
    if IsTitle(line) then TitleLine(name)
    else if IsOptions(line) then RewriteOptions(line, s)
    else line
  }

  function RewriteLines(lines: seq<string>, name: string, s: string): (r: seq<string>)
    ensures |r| == |lines|
    ensures forall i | 0 <= i < |lines| :: r[i] == RewriteLine(lines[i], name, s)
  {
    seq(|lines|, i requires 0 <= i < |lines| => RewriteLine(lines[i], name, s))
  }

  function RewriteEntry(text: string, name: string, s: string): string {
    Join(RewriteLines(ScanLines(text), name, s), "\n") + "\n"
  }

  method RewriteOneLine(line: string, name: string, s: string) returns (r: string)
    ensures r == RewriteLine(line, name, s)
  {
    if "title" <= TrimBlanks(line) {
      r := TitleLine(name);
    } else if "options" <= TrimBlanks(line) {
      r := RewriteOptionsLine(line, s);
    } else {
      r := line;
    }
  }

  method RewriteBLSEntry(text: string, name: string, s: string) returns (r: string)
    ensures r == RewriteEntry(text, name, s)
  {
    hide RewriteLine, RewriteLines, ScanLines, Join;
    var input := ScanLines(text);
    var lines := [];
    for i := 0 to |input|
      invariant |lines| == i && forall j | 0 <= j < i :: lines[j] == RewriteLine(input[j], name, s)
    {
      var line := RewriteOneLine(input[i], name, s);
      lines := lines + [line];
    }
    assert lines == RewriteLines(input, name, s);
    return Join(lines, "\n") + "\n";
  }

  // -------------------------------------------------------------------------
  // Reading the command line back
  // -------------------------------------------------------------------------

  // The values of the `options` keys of an entry, in order.
  function OptionValues(lines: seq<string>): seq<string> {
    if lines == [] then []
    else
      var t := TrimBlanks(lines[0]);
      (if "options" <= t && (|t| == 7 || t[7] == ' ' || t[7] == '\t') then [t[7..]] else [])
      + OptionValues(lines[1..])
  }

  // The kernel command line a boot loader makes of an entry: its options, joined by spaces.
  function CmdlineOf(text: string): string {
    Join(OptionValues(Split(text, '\n')), " ")
  }

  datatype Args = Args(subvol: string, basis: string, mode: string)

  function LastSubvol(parts: seq<string>, cur: string): string {
    if parts == [] then cur
    else LastSubvol(parts[1..], if IsSubvol(parts[0]) then parts[0][7..] else cur)
  }

  function ReadWord(w: string, a: Args): Args {
    if IsRootflags(w) then a.(subvol := LastSubvol(PartsOf(w), a.subvol))
    else if BASIS <= w then a.(basis := w[|BASIS|..])
    else if MODE <= w then a.(mode := w[|MODE|..])
    else a
  }

  function ReadWords(ws: seq<string>, a: Args): Args {
    if ws == [] then a else ReadWords(ws[1..], ReadWord(ws[0], a))
  }

  function StripSlash(s: string): string { TrimPrefix(s, "/") }

  function Stripped(a: Args): Args {
    Args(StripSlash(a.subvol), StripSlash(a.basis), a.mode)
  }

  // What the hook reads.
  function HookArgs(cmdline: string): Args {
    Stripped(ReadWords(Words(cmdline, ShellBlank), Args("", "", "")))
  }

  method ReadCmdline(cmdline: string) returns (a: Args)
    ensures a == HookArgs(cmdline)
  {
    var words := Words(cmdline, ShellBlank);
    var subvol, basis, mode := "", "", "";
    for i := 0 to |words|
      invariant ReadWords(words, Args("", "", "")) == ReadWords(words[i..], Args(subvol, basis, mode))
    {
      var arg := words[i];
      assert words[i..][0] == arg && words[i..][1..] == words[i + 1..];
      if ROOTFLAGS <= arg {
        var parts := PartsOf(arg);
        ghost var was := subvol;
        for j := 0 to |parts|
          invariant LastSubvol(parts, was) == LastSubvol(parts[j..], subvol)
        {
          assert parts[j..][0] == parts[j] && parts[j..][1..] == parts[j + 1..];
          if SUBVOL <= parts[j] {
            subvol := parts[j][7..];
          }
        }
      } else if BASIS <= arg {
        basis := arg[|BASIS|..];
      } else if MODE <= arg {
        mode := arg[|MODE|..];
      }
    }
    return Args(StripSlash(subvol), StripSlash(basis), mode);
  }

  function Normal(v: string): string {
    var w := StripSlash(v);
    if "@" <= w then w else "@" + w
  }

  // The first subvol= of the first rootflags= field that has one.
  function GoFirst(fields: seq<string>): Option<string> {
    if fields == [] then None
    else
      var parts := PartsOf(fields[0]);
      var i := FirstSubvol(parts);
      if IsRootflags(fields[0]) && i < |parts| then Some(Normal(parts[i][7..]))
      else GoFirst(fields[1..])
  }

  function GoSubvol(cmdline: string): Option<string> {
    GoFirst(Words(cmdline, GoSpace))
  }

  method ParseCmdlineSubvol(cmdline: string) returns (r: Option<string>)
    ensures r == GoSubvol(cmdline)
  {
    var fields := Words(cmdline, GoSpace);
    for i := 0 to |fields|
      invariant GoFirst(fields) == GoFirst(fields[i..])
    {
      assert fields[i..][0] == fields[i] && fields[i..][1..] == fields[i + 1..];
      if !(ROOTFLAGS <= fields[i]) {
        continue;
      }
      var parts := PartsOf(fields[i]);
      for j := 0 to |parts|
        invariant j <= FirstSubvol(parts)
      {
        if !(SUBVOL <= parts[j]) {
          continue;
        }
        var subvol := StripSlash(parts[j][7..]);
        if !("@" <= subvol) {
          subvol := "@" + subvol;
        }
        return Some(subvol);
      }
    }
    return None;
  }
}
