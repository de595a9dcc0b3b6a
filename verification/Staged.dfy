/** The staged replacement: a text file of three `key=value` lines, written and read by the Go
    side and read by the hook with `sed -n 's/^key=//p' | tail -1`. */
module Staged {
  import opened Text

  datatype Pending = Pending(slate: string, source: string, reason: string)

  // strings.ReplaceAll(reason, "\n", " ")
  function OneLine(s: string): (r: string)
    ensures |r| == |s| && Free(r, '\n')
    ensures forall i | 0 <= i < |s| :: r[i] == if s[i] == '\n' then ' ' else s[i]
  {
    if s == "" then "" else [if s[0] == '\n' then ' ' else s[0]] + OneLine(s[1..])
  }

  // The body StagePending writes.
  function StagedText(p: Pending): string {
    "slate=" + p.slate + "\nsource=" + p.source + "\nreason=" + OneLine(p.reason) + "\n"
  }

  // -------------------------------------------------------------------------
  // The hook's reader
  // -------------------------------------------------------------------------

  // sed -n 's/^key//p': what follows the key on each line that begins with it.
  function SedPrint(lines: seq<string>, key: string): seq<string> {
    if lines == [] then []
    else Hit(lines[0], key) + SedPrint(lines[1..], key)
  }

  function Hit(line: string, key: string): seq<string> {
    if key <= line then [line[|key|..]] else []
  }

  // tail -1 in a command substitution.
  function TailOne(lines: seq<string>): string {
    if lines == [] then "" else lines[|lines| - 1]
  }

  function HookField(text: string, key: string): string {
    TailOne(SedPrint(Split(text, '\n'), key + "="))
  }

  // -------------------------------------------------------------------------
  // The Go reader
  // -------------------------------------------------------------------------

  // strings.Cut(line, "=")
  function Cut(line: string): (r: Option<(string, string)>)
    ensures r.Some? ==> line == r.value.0 + "=" + r.value.1 && '=' !in r.value.0
    ensures r.None? ==> '=' !in line
  {
    if line == "" then None
    else if line[0] == '=' then Some(("", line[1..]))
    else
      var r := Cut(line[1..]);
      if r.None? then None else Some(([line[0]] + r.value.0, r.value.1))
  }

  lemma {:induction false} CutOf(key: string, v: string)
    requires '=' !in key
    ensures Cut(key + "=" + v) == Some((key, v))
  {
    var line := key + "=" + v;
    if key == "" {
      assert line == "=" + v;
      assert line[1..] == v;
    } else {
      assert line[1..] == key[1..] + "=" + v;
      CutOf(key[1..], v);
      assert key == [key[0]] + key[1..];
    }
  }

  lemma CutAtKey(line: string, key: string)
    requires '=' !in key
    ensures Cut(line).Some? && Cut(line).value.0 == key <==> key + "=" <= line
    ensures key + "=" <= line ==> Cut(line).value.1 == line[|key| + 1..]
  {
    if key + "=" <= line {
      assert line == key + "=" + line[|key| + 1..];
      CutOf(key, line[|key| + 1..]);
    }
  }

  function Take(p: Pending, line: string): Pending {
    var r := Cut(line);
    if r.None? then p
    else if r.value.0 == "slate" then p.(slate := r.value.1)
    else if r.value.0 == "source" then p.(source := r.value.1)
    else if r.value.0 == "reason" then p.(reason := r.value.1)
    else p
  }

  function TakeAll(p: Pending, lines: seq<string>): Pending
    decreases |lines|
  {
    if lines == [] then p else Take(TakeAll(p, lines[..|lines| - 1]), lines[|lines| - 1])
  }

  lemma {:induction false} SedPrintSnoc(lines: seq<string>, last: string, key: string)
    ensures SedPrint(lines + [last], key)
         == SedPrint(lines, key) + Hit(last, key)
  {
    if lines == [] {
      assert lines + [last] == [last];
      assert [last][1..] == [];
    } else {
      assert (lines + [last])[1..] == lines[1..] + [last];
      SedPrintSnoc(lines[1..], last, key);
    }
  }

  function LastFields(lines: seq<string>): Pending {
    Pending(TailOne(SedPrint(lines, "slate=")), TailOne(SedPrint(lines, "source=")),
            TailOne(SedPrint(lines, "reason=")))
  }

  lemma LastSnoc(front: seq<string>, last: string, key: string)
    requires '=' !in key
    ensures TailOne(SedPrint(front + [last], key + "="))
         == if Cut(last).Some? && Cut(last).value.0 == key then Cut(last).value.1
            else TailOne(SedPrint(front, key + "="))
  {
    SedPrintSnoc(front, last, key + "=");
    CutAtKey(last, key);
  }

  lemma LastFieldsSnoc(front: seq<string>, last: string)
    ensures LastFields(front + [last]) == Take(LastFields(front), last)
  {
    LastSnoc(front, last, "slate");
    LastSnoc(front, last, "source");
    LastSnoc(front, last, "reason");
    assert "slate" + "=" == "slate=" && "source" + "=" == "source=" && "reason" + "=" == "reason=";
    assert "slate"[1] == 'l' && "source"[1] == 'o' && "reason"[1] == 'e';
  }

  // The Go loop and the hook's sed and tail extract the same last-wins values from every text.
  lemma {:induction false} ReadersAgreeOnLines(lines: seq<string>)
    ensures TakeAll(Pending("", "", ""), lines) == LastFields(lines)
    decreases |lines|
  {
    if lines != [] {
      var front, last := lines[..|lines| - 1], lines[|lines| - 1];
      assert lines == front + [last];
      ReadersAgreeOnLines(front);
      LastFieldsSnoc(front, last);
    }
  }

  // ReadPending after the file was read; none when a needed field is missing.
  method ReadPending(text: string) returns (r: Option<Pending>)
    ensures var slate, source := HookField(text, "slate"), HookField(text, "source");
            r == if slate == "" || source == "" then None
                 else Some(Pending(slate, source, HookField(text, "reason")))
  {
    var lines := Split(text, '\n');
    var p := Pending("", "", "");
    for i := 0 to |lines|
      invariant p == TakeAll(Pending("", "", ""), lines[..i])
    {
      var kv := Cut(lines[i]);
      assert lines[..i + 1][..i] == lines[..i];
      if kv.None? {
        continue;
      }
      var (k, v) := kv.value;
      if k == "slate" {
        p := p.(slate := v);
      } else if k == "source" {
        p := p.(source := v);
      } else if k == "reason" {
        p := p.(reason := v);
      }
    }
    assert lines[..|lines|] == lines;
    ReadersAgreeOnLines(lines);
    assert "slate" + "=" == "slate=" && "source" + "=" == "source=" && "reason" + "=" == "reason=";
    r := if p.slate == "" || p.source == "" then None else Some(p);
  }

  lemma ThreeLines(a: string, b: string, c: string)
    requires Free(a, '\n') && Free(b, '\n') && Free(c, '\n')
    ensures Split(a + ['\n'] + (b + ['\n'] + (c + ['\n'] + "")), '\n') == [a, b, c, ""]
  {
    SplitHead(a, '\n', b + ['\n'] + (c + ['\n'] + ""));
    SplitHead(b, '\n', c + ['\n'] + "");
    SplitHead(c, '\n', "");
  }

  lemma StagedLines(p: Pending)
    requires Free(p.slate, '\n') && Free(p.source, '\n')
    ensures Split(StagedText(p), '\n')
         == ["slate=" + p.slate, "source=" + p.source, "reason=" + OneLine(p.reason), ""]
  {
    var a, b, c := "slate=" + p.slate, "source=" + p.source, "reason=" + OneLine(p.reason);
    assert StagedText(p) == a + ['\n'] + (b + ['\n'] + (c + ['\n'] + ""));
    ThreeLines(a, b, c);
  }

  // What is staged reads back, whatever the reason holds: its newlines become spaces and it
  // cannot reach the other two fields.
  lemma StagedRoundTrip(p: Pending)
    requires Free(p.slate, '\n') && Free(p.source, '\n')
    ensures HookField(StagedText(p), "slate") == p.slate
    ensures HookField(StagedText(p), "source") == p.source
    ensures HookField(StagedText(p), "reason") == OneLine(p.reason)
  {
    StagedLines(p);
    Keys(p.slate, p.source, OneLine(p.reason));
    assert "slate" + "=" == "slate=" && "source" + "=" == "source=" && "reason" + "=" == "reason=";
  }

  lemma Keys(x: string, y: string, z: string)
    ensures var lines := ["slate=" + x, "source=" + y, "reason=" + z, ""];
      && TailOne(SedPrint(lines, "slate=")) == x && TailOne(SedPrint(lines, "source=")) == y
      && TailOne(SedPrint(lines, "reason=")) == z
  {
    var a, b, c := "slate=" + x, "source=" + y, "reason=" + z;
    KeyApart(a, b, c);
    ThreeFields(a, b, c, "slate=");
    ThreeFields(a, b, c, "source=");
    ThreeFields(a, b, c, "reason=");
    assert a[6..] == x && b[7..] == y && c[7..] == z;
    OneHit(x);
    OneHit(y);
    OneHit(z);
  }

  lemma OneHit(x: string)
    ensures TailOne([x] + [] + []) == x && TailOne([] + [x] + []) == x && TailOne([] + [] + [x]) == x
  {
  }

  lemma SedPrintCons(line: string, rest: seq<string>, key: string)
    ensures SedPrint([line] + rest, key) == Hit(line, key) + SedPrint(rest, key)
  {
    assert ([line] + rest)[1..] == rest;
  }

  lemma ThreeFields(a: string, b: string, c: string, key: string)
    requires key != ""
    ensures SedPrint([a, b, c, ""], key) == Hit(a, key) + Hit(b, key) + Hit(c, key)
  {
    assert [a, b, c, ""] == [a] + ([b] + ([c] + ([""] + [])));
    SedPrintCons(a, [b] + ([c] + ([""] + [])), key);
    SedPrintCons(b, [c] + ([""] + []), key);
    SedPrintCons(c, [""] + [], key);
    SedPrintCons("", [], key);
    assert Hit("", key) == [];
    Concat4(Hit(a, key), Hit(b, key), Hit(c, key));
  }

  lemma Concat4(x: seq<string>, y: seq<string>, z: seq<string>)
    ensures x + (y + (z + ([] + []))) == x + y + z
  {
  }

  lemma KeyApart(a: string, b: string, c: string)
    requires "slate=" <= a && "source=" <= b && "reason=" <= c
    ensures Hit(a, "source=") == [] && Hit(a, "reason=") == []
    ensures Hit(b, "slate=") == [] && Hit(b, "reason=") == []
    ensures Hit(c, "slate=") == [] && Hit(c, "source=") == []
  {
    assert "slate="[1] == 'l' && "source="[1] == 'o' && "reason="[1] == 'e';
    assert a[1] == 'l' && b[1] == 'o' && c[1] == 'e';
  }
}
