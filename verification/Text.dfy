/** Text operations shared by the Go commands and the shell hook: prefixes, splitting,
    joining, blank-separated words, and the byte order that `sort` uses. */
module Text {

  datatype Option<+T> = None | Some(value: T)

  predicate HasSuffix(s: string, suffix: string) {
    |suffix| <= |s| && s[|s| - |suffix|..] == suffix
  }

  function TrimPrefix(s: string, p: string): string {
    if p <= s then s[|p|..] else s
  }

  predicate Free(s: string, c: char) { c !in s }

  predicate AllFree(parts: seq<string>, c: char) {
    forall i | 0 <= i < |parts| :: Free(parts[i], c)
  }

  // -------------------------------------------------------------------------
  // Splitting at a separator and joining again
  // -------------------------------------------------------------------------

  function Split(s: string, sep: char): (parts: seq<string>)
    ensures |parts| >= 1
  {
    if s == "" then [""]
    else
      var rest := Split(s[1..], sep);
      if s[0] == sep then [""] + rest else [[s[0]] + rest[0]] + rest[1..]
  }

  function Join(parts: seq<string>, sep: string): string {
    if |parts| == 0 then ""
    else if |parts| == 1 then parts[0]
    else parts[0] + sep + Join(parts[1..], sep)
  }

  lemma {:induction false} SplitFree(s: string, sep: char)
    ensures AllFree(Split(s, sep), sep)
  {
    if s != "" {
      SplitFree(s[1..], sep);
    }
  }

  // A separator-free head is the first part of what follows it.
  lemma {:induction false} SplitHead(head: string, sep: char, tail: string)
    requires Free(head, sep)
    ensures Split(head + [sep] + tail, sep) == [head] + Split(tail, sep)
  {
    var s := head + [sep] + tail;
    if head == "" {
      assert s[1..] == tail;
    } else {
      assert s[1..] == head[1..] + [sep] + tail;
      SplitHead(head[1..], sep, tail);
      assert [head[0]] + head[1..] == head;
    }
  }

  lemma {:induction false} SplitWhole(s: string, sep: char)
    requires Free(s, sep)
    ensures Split(s, sep) == [s]
  {
    if s != "" {
      SplitWhole(s[1..], sep);
      assert [s[0]] + s[1..] == s;
    }
  }

  lemma {:induction false} SplitJoin(parts: seq<string>, sep: char)
    requires |parts| >= 1 && AllFree(parts, sep)
    ensures Split(Join(parts, [sep]), sep) == parts
  {
    if |parts| == 1 {
      SplitWhole(parts[0], sep);
    } else {
      SplitJoin(parts[1..], sep);
      SplitHead(parts[0], sep, Join(parts[1..], [sep]));
      assert parts == [parts[0]] + parts[1..];
    }
  }

  // Joined lines ended by a newline split into the lines and an empty remainder.
  lemma SplitLines(lines: seq<string>)
    requires |lines| >= 1 && AllFree(lines, '\n')
    ensures Split(Join(lines, "\n") + "\n", '\n') == lines + [""]
  {
    var all := lines + [""];
    JoinSnoc(lines, "", "\n");
    assert Join(lines, "\n") + "\n" + "" == Join(lines, "\n") + "\n";
    forall i | 0 <= i < |all| ensures Free(all[i], '\n') {
      if i < |lines| {
        assert all[i] == lines[i];
      } else {
        assert all[i] == "";
      }
    }
    assert ['\n'] == "\n";
    SplitJoin(all, '\n');
  }

  lemma {:induction false} JoinSnoc(parts: seq<string>, last: string, sep: string)
    requires |parts| >= 1
    ensures Join(parts + [last], sep) == Join(parts, sep) + sep + last
  {
    if |parts| > 1 {
      JoinSnoc(parts[1..], last, sep);
      assert (parts + [last])[1..] == parts[1..] + [last];
    } else {
      assert (parts + [last])[1..] == [last];
    }
  }

  // -------------------------------------------------------------------------
  // Words: maximal runs of characters that are not blank
  // -------------------------------------------------------------------------

  // The characters the shell's default IFS splits at.
  predicate ShellBlank(c: char) { c == ' ' || c == '\t' || c == '\n' }

  // Go's unicode.IsSpace.
  predicate GoSpace(c: char) {
    || c == ' ' || '\t' <= c <= '\r'
    || c as int in {0x85, 0xA0, 0x1680, 0x2028, 0x2029, 0x202F, 0x205F, 0x3000}
    || 0x2000 <= c as int <= 0x200A
  }

  predicate Solid(w: string, blank: char -> bool) {
    w != "" && forall i | 0 <= i < |w| :: !blank(w[i])
  }

  predicate AllSolid(ws: seq<string>, blank: char -> bool) {
    forall i | 0 <= i < |ws| :: Solid(ws[i], blank)
  }

  function Words(s: string, blank: char -> bool): (ws: seq<string>)
    ensures s != "" && !blank(s[0]) ==> |ws| >= 1
  {
    if s == "" then []
    else if blank(s[0]) then Words(s[1..], blank)
    else if |s| == 1 || blank(s[1]) then [[s[0]]] + Words(s[1..], blank)
    else
      var rest := Words(s[1..], blank);
      [[s[0]] + rest[0]] + rest[1..]
  }

  lemma {:induction false} WordsSolid(s: string, blank: char -> bool)
    ensures AllSolid(Words(s, blank), blank)
  {
    if s != "" {
      WordsSolid(s[1..], blank);
    }
  }

  lemma {:induction false} WordsAround(a: string, b: char, c: string, blank: char -> bool)
    requires blank(b)
    ensures Words(a + [b] + c, blank) == Words(a, blank) + Words(c, blank)
  {
    var s := a + [b] + c;
    if a == "" {
      assert s[1..] == c;
    } else {
      assert s[1..] == a[1..] + [b] + c;
      WordsAround(a[1..], b, c, blank);
      if |a| == 1 {
        assert a[1..] == "";
        assert s[1] == b;
      } else {
        assert s[1] == a[1];
      }
    }
  }

  lemma {:induction false} WordsWhole(w: string, blank: char -> bool)
    requires Solid(w, blank)
    ensures Words(w, blank) == [w]
  {
    if |w| == 1 {
      assert w[1..] == "";
      assert w == [w[0]];
    } else {
      WordsWhole(w[1..], blank);
      assert [w[0]] + w[1..] == w;
    }
  }

  lemma {:induction false} WordsJoin(ws: seq<string>, blank: char -> bool)
    requires AllSolid(ws, blank) && blank(' ')
    ensures Words(Join(ws, " "), blank) == ws
  {
    if |ws| == 1 {
      WordsWhole(ws[0], blank);
    } else if |ws| > 1 {
      WordsJoin(ws[1..], blank);
      WordsWhole(ws[0], blank);
      WordsAround(ws[0], ' ', Join(ws[1..], " "), blank);
      assert ws == [ws[0]] + ws[1..];
    }
  }

  // Blanks " \t" trimmed on the left, as strings.TrimLeft(line, " \t").
  function TrimBlanks(s: string): (r: string)
    ensures |r| <= |s| && s[|s| - |r|..] == r
  {
    if s != "" && (s[0] == ' ' || s[0] == '\t') then TrimBlanks(s[1..]) else s
  }

  // strings.TrimSpace.
  function TrimSpace(s: string): string {
    TrimSpaceRight(TrimSpaceLeft(s))
  }

  function TrimSpaceLeft(s: string): string {
    if s != "" && GoSpace(s[0]) then TrimSpaceLeft(s[1..]) else s
  }

  function TrimSpaceRight(s: string): string {
    if s != "" && GoSpace(s[|s| - 1]) then TrimSpaceRight(s[..|s| - 1]) else s
  }

  // -------------------------------------------------------------------------
  // Byte order of text, as `sort` compares lines and Go compares strings
  // -------------------------------------------------------------------------

  predicate Before(a: string, b: string) {
    if b == "" then false
    else if a == "" then true
    else a[0] < b[0] || (a[0] == b[0] && Before(a[1..], b[1..]))
  }

  lemma {:induction false} BeforeIrreflexive(a: string)
    ensures !Before(a, a)
  {
    if a != "" {
      BeforeIrreflexive(a[1..]);
    }
  }

  lemma {:induction false} BeforeTransitive(a: string, b: string, c: string)
    requires Before(a, b) && Before(b, c)
    ensures Before(a, c)
  {
    if a != "" && a[0] == b[0] && b[0] == c[0] {
      BeforeTransitive(a[1..], b[1..], c[1..]);
    }
  }

  lemma {:induction false} BeforeTotal(a: string, b: string)
    ensures a == b || Before(a, b) || Before(b, a)
  {
    if a != "" && b != "" && a[0] == b[0] {
      BeforeTotal(a[1..], b[1..]);
      assert a == [a[0]] + a[1..] && b == [b[0]] + b[1..];
    }
  }

  // A common front does not affect the order.
  lemma {:induction false} BeforeFront(p: string, a: string, b: string)
    ensures Before(p + a, p + b) <==> Before(a, b)
  {
    if p == "" {
      assert p + a == a && p + b == b;
    } else {
      BeforeFront(p[1..], a, b);
      assert (p + a)[1..] == p[1..] + a && (p + b)[1..] == p[1..] + b;
    }
  }

  // Fronts of one length decide unless they are equal.
  lemma {:induction false} BeforeBack(p: string, q: string, a: string, b: string)
    requires |p| == |q|
    ensures Before(p + a, q + b) <==> Before(p, q) || (p == q && Before(a, b))
  {
    if p == "" {
      assert p + a == a && q + b == b;
    } else {
      BeforeBack(p[1..], q[1..], a, b);
      assert (p + a)[1..] == p[1..] + a && (q + b)[1..] == q[1..] + b;
      assert p == [p[0]] + p[1..] && q == [q[0]] + q[1..];
    }
  }
}
