/** Laws of rewriting a boot entry. */
module EntryLaws {
  import opened Text
  import opened Names
  import opened Entries

  predicate NoSpace(s: string) { forall i | 0 <= i < |s| :: !GoSpace(s[i]) }

  // -------------------------------------------------------------------------
  // Fields stay fields
  // -------------------------------------------------------------------------

  lemma {:induction false} JoinNoSpace(parts: seq<string>)
    requires forall i | 0 <= i < |parts| :: NoSpace(parts[i])
    ensures NoSpace(Join(parts, ","))
  {
    if |parts| > 1 {
      JoinNoSpace(parts[1..]);
    }
  }

  lemma {:induction false} SplitNoSpace(s: string)
    requires NoSpace(s)
    ensures forall i | 0 <= i < |Split(s, ',')| :: NoSpace(Split(s, ',')[i])
  {
    if s != "" {
      SplitNoSpace(s[1..]);
    }
  }

  lemma ReplacedNoSpace(parts: seq<string>, s: string)
    requires (forall i | 0 <= i < |parts| :: NoSpace(parts[i])) && PlainSubvol(s)
    ensures forall i | 0 <= i < |ReplaceParts(parts, s)| :: NoSpace(ReplaceParts(parts, s)[i])
  {
    assert NoSpace(SUBVOL + s);
    ReplacedParts(parts, s);
    var r := ReplaceParts(parts, s);
    forall j | 0 <= j < |r| ensures NoSpace(r[j]) {
      if j != FirstSubvol(parts) {
        assert r[j] == parts[j];
      }
    }
  }

  lemma TokenSolid(field: string, s: string)
    requires Solid(field, GoSpace) && PlainSubvol(s)
    ensures Solid(ReplaceToken(field, s), GoSpace)
  {
    SplitNoSpace(TrimPrefix(field, ROOTFLAGS));
    ReplacedNoSpace(PartsOf(field), s);
    JoinNoSpace(ReplaceParts(PartsOf(field), s));
    assert NoSpace(ROOTFLAGS);
  }

  lemma FieldsSolid(ws: seq<string>, s: string)
    requires AllSolid(ws, GoSpace) && PlainSubvol(s)
    ensures AllSolid(RewriteFields(ws, s), GoSpace)
    ensures RewriteFields(ws, s) != []
  {
    var each := RewriteEach(ws, s);
    forall i | 0 <= i < |ws| ensures Solid(each[i], GoSpace) {
      if IsRootflags(ws[i]) {
        TokenSolid(ws[i], s);
      }
    }
    assert Solid(ROOTFLAGS + SUBVOL + s, GoSpace);
  }

  // -------------------------------------------------------------------------
  // The last rewrite wins
  // -------------------------------------------------------------------------

  lemma ReplaceTokenTwice(field: string, a: string, b: string)
    requires PlainSubvol(a)
    ensures ReplaceToken(ReplaceToken(field, a), b) == ReplaceToken(field, b)
  {
    ReplacedTokenParts(field, a);
    ReplacePartsTwice(PartsOf(field), a, b);
  }

  lemma FreshToken(s: string)
    requires PlainSubvol(s)
    ensures IsRootflags(ROOTFLAGS + SUBVOL + s)
    ensures PartsOf(ROOTFLAGS + SUBVOL + s) == [SUBVOL + s]
  {
    var f := ROOTFLAGS + SUBVOL + s;
    assert f == ROOTFLAGS + (SUBVOL + s);
    assert f[|ROOTFLAGS|..] == SUBVOL + s;
    SplitWhole(SUBVOL + s, ',');
  }

  lemma RewriteEachKeepsKind(ws: seq<string>, s: string)
    ensures HasRootflags(RewriteEach(ws, s)) <==> HasRootflags(ws)
  {
    var each := RewriteEach(ws, s);
    forall i | 0 <= i < |ws| ensures IsRootflags(each[i]) <==> IsRootflags(ws[i]) {}
  }

  lemma RewriteEachTwice(ws: seq<string>, a: string, b: string)
    requires PlainSubvol(a)
    ensures RewriteEach(RewriteEach(ws, a), b) == RewriteEach(ws, b)
  {
    var once := RewriteEach(ws, a);
    forall i | 0 <= i < |ws| ensures RewriteField(once[i], b) == RewriteField(ws[i], b) {
      if IsRootflags(ws[i]) {
        ReplaceTokenTwice(ws[i], a, b);
      }
    }
  }

  lemma RewriteFieldsTwice(ws: seq<string>, a: string, b: string)
    requires PlainSubvol(a) && PlainSubvol(b)
    ensures RewriteFields(RewriteFields(ws, a), b) == RewriteFields(ws, b)
  {
    RewriteEachTwice(ws, a, b);
    RewriteFieldsIs(ws, a);
    RewriteFieldsIs(ws, b);
    if HasRootflags(ws) {
      RewriteEachKeepsKind(ws, a);
      RewriteFieldsIs(RewriteEach(ws, a), b);
    } else {
      AppendedToken(RewriteEach(ws, a), a, b);
    }
  }

  lemma RewriteFieldsIs(ws: seq<string>, s: string)
    ensures HasRootflags(ws) ==> RewriteFields(ws, s) == RewriteEach(ws, s)
    ensures !HasRootflags(ws) ==> RewriteFields(ws, s) == RewriteEach(ws, s) + [ROOTFLAGS + SUBVOL + s]
  {
  }

  lemma AppendedToken(each: seq<string>, a: string, b: string)
    requires PlainSubvol(a)
    ensures RewriteFields(each + [ROOTFLAGS + SUBVOL + a], b)
         == RewriteEach(each, b) + [ROOTFLAGS + SUBVOL + b]
  {
    var token := ROOTFLAGS + SUBVOL + a;
    FreshToken(a);
    ReplacePartsOne(a, b);
    assert (each + [token])[|each|] == token;
    assert HasRootflags(each + [token]);
    RewriteEachSnoc(each, token, b);
  }

  lemma RewriteEachSnoc(each: seq<string>, last: string, b: string)
    ensures RewriteEach(each + [last], b) == RewriteEach(each, b) + [RewriteField(last, b)]
  {
    var all := each + [last];
    forall i | 0 <= i < |all|
      ensures RewriteEach(all, b)[i] == (RewriteEach(each, b) + [RewriteField(last, b)])[i]
    {
      if i < |each| {
        assert all[i] == each[i];
      }
    }
  }

  lemma ReplacePartsOne(a: string, b: string)
    requires PlainSubvol(a)
    ensures ReplaceToken(ROOTFLAGS + SUBVOL + a, b) == ROOTFLAGS + SUBVOL + b
  {
    FreshToken(a);
    assert IsSubvol(SUBVOL + a);
    assert ReplaceParts([SUBVOL + a], b) == [SUBVOL + b];
    assert ROOTFLAGS + (SUBVOL + b) == ROOTFLAGS + SUBVOL + b;
  }

  // Every other field keeps its place and text; in a rootflags= field every part but the
  // first subvol= keeps its place and text; at most one field or part is added, at the end.
  lemma RewriteKeepsTheRest(ws: seq<string>, s: string, i: nat)
    requires i < |ws| && PlainSubvol(s)
    ensures |RewriteFields(ws, s)| == |ws| + if HasRootflags(ws) then 0 else 1
    ensures !IsRootflags(ws[i]) ==> RewriteFields(ws, s)[i] == ws[i]
    ensures IsRootflags(ws[i]) ==>
      var before, after := PartsOf(ws[i]), PartsOf(RewriteFields(ws, s)[i]);
      var k := FirstSubvol(before);
      && IsRootflags(RewriteFields(ws, s)[i])
      && |after| == (if k < |before| then |before| else |before| + 1) && after[k] == SUBVOL + s
      && forall j | 0 <= j < |before| && j != k :: after[j] == before[j]
  {
    assert RewriteFields(ws, s)[i] == RewriteField(ws[i], s);
    if IsRootflags(ws[i]) {
      ReplacedTokenParts(ws[i], s);
      ReplacedParts(PartsOf(ws[i]), s);
    }
  }

  // -------------------------------------------------------------------------
  // A rewritten options line
  // -------------------------------------------------------------------------

  predicate Blanks(s: string) { forall i | 0 <= i < |s| :: s[i] == ' ' || s[i] == '\t' }

  lemma {:induction false} TrimPrefixed(p: string, rest: string)
    requires Blanks(p) && rest != "" && rest[0] != ' ' && rest[0] != '\t'
    ensures TrimBlanks(p + rest) == rest
  {
    if p == "" {
      assert p + rest == rest;
    } else {
      var tail := p[1..];
      assert (p + rest)[1..] == tail + rest;
      assert Blanks(tail);
      TrimPrefixed(tail, rest);
    }
  }

  lemma TrimIndent(p: string, rest: string)
    requires Blanks(p) && rest != "" && rest[0] != ' ' && rest[0] != '\t'
    ensures TrimBlanks(p + rest) == rest && Indent(p + rest) == p
  {
    TrimPrefixed(p, rest);
    assert (p + rest)[..|p|] == p;
  }

  lemma {:induction false} TrimmedIsBlank(line: string, i: nat)
    requires i < |line| - |TrimBlanks(line)|
    ensures line[i] == ' ' || line[i] == '\t'
  {
    if i > 0 {
      TrimmedIsBlank(line[1..], i - 1);
    }
  }

  lemma IndentIsBlank(line: string)
    ensures Blanks(Indent(line)) && line == Indent(line) + TrimBlanks(line)
  {
    forall i | 0 <= i < |Indent(line)| ensures Indent(line)[i] == ' ' || Indent(line)[i] == '\t' {
      TrimmedIsBlank(line, i);
    }
  }

  lemma WordsAfterKey(fields: seq<string>, blank: char -> bool)
    requires AllSolid(fields, blank) && blank(' ')
    ensures Words("  " + Join(fields, " "), blank) == fields
  {
    WordsJoin(fields, blank);
    WordsAfterBlanks(Join(fields, " "), blank);
  }

  lemma WordsAfterBlanks(v: string, blank: char -> bool)
    requires blank(' ')
    ensures Words("  " + v, blank) == Words(v, blank)
  {
    var t := " " + v;
    assert ("  " + v)[1..] == t && t[1..] == v;
  }

  lemma {:induction false} JoinEndsSolid(fields: seq<string>)
    requires fields != [] && AllSolid(fields, GoSpace)
    ensures var j := Join(fields, " "); j != "" && j[|j| - 1] != '\r' && Free(j, '\n')
  {
    if |fields| > 1 {
      JoinEndsSolid(fields[1..]);
    }
  }

  lemma RewrittenOptions(line: string, s: string)
    requires IsOptions(line) && PlainSubvol(s)
    ensures var r := RewriteOptions(line, s);
      && TrimBlanks(r) == "options" + ("  " + Join(RewriteFields(FieldsOf(line), s), " "))
      && Indent(r) == Indent(line) && IsOptions(r) && !IsTitle(r)
      && FieldsOf(r) == RewriteFields(FieldsOf(line), s)
  {
    hide RewriteFields, PlainSubvol, Words, Join, TrimBlanks, Indent;
    var fields := RewriteFields(FieldsOf(line), s);
    WordsSolid(TrimBlanks(line)[7..], GoSpace);
    FieldsSolid(FieldsOf(line), s);
    IndentIsBlank(line);
    OptionsText(Indent(line), Join(fields, " "));
    OptionsShape(Indent(line), "  " + Join(fields, " "));
    WordsAfterKey(fields, GoSpace);
  }

  lemma OptionsText(p: string, v: string)
    ensures p + "options  " + v == p + "options" + ("  " + v)
  {
    assert "options  " == "options" + "  ";
  }

  // An indented options key with a value.
  lemma OptionsShape(p: string, v: string)
    requires Blanks(p)
    ensures var r := p + "options" + v;
            TrimBlanks(r) == "options" + v && Indent(r) == p && IsOptions(r) && !IsTitle(r)
            && TrimBlanks(r)[7..] == v
  {
    var rest := "options" + v;
    assert rest[0] == 'o';
    assert p + "options" + v == p + rest;
    TrimIndent(p, rest);
    assert "title"[0] == 't';
  }

  lemma RewrittenOptionsChars(line: string, s: string)
    requires IsOptions(line) && PlainSubvol(s)
    ensures DropCR(RewriteOptions(line, s)) == RewriteOptions(line, s)
    ensures Free(line, '\n') ==> Free(RewriteOptions(line, s), '\n')
  {
    hide RewriteFields, PlainSubvol, Words, Join, TrimBlanks, Indent;
    var fields := RewriteFields(FieldsOf(line), s);
    WordsSolid(TrimBlanks(line)[7..], GoSpace);
    FieldsSolid(FieldsOf(line), s);
    JoinEndsSolid(fields);
    IndentIsBlank(line);
    OptionsChars(Indent(line), "options  ", Join(fields, " "));
  }

  lemma OptionsChars(p: string, key: string, v: string)
    requires Blanks(p) && v != "" && v[|v| - 1] != '\r' && Free(v, '\n') && key == "options  "
    ensures DropCR(p + key + v) == p + key + v && Free(p + key + v, '\n')
  {
  }

  lemma RewriteOptionsTwice(line: string, a: string, b: string)
    requires IsOptions(line) && PlainSubvol(a) && PlainSubvol(b)
    ensures RewriteOptions(RewriteOptions(line, a), b) == RewriteOptions(line, b)
  {
    RewrittenOptions(line, a);
    RewriteFieldsTwice(FieldsOf(line), a, b);
  }

  // The Go parser reads the new subvolume from any rewritten options line, however many
  // rootflags= fields and subvol= parts it has.
  lemma GoReadsRewritten(line: string, s: string)
    requires IsOptions(line) && PlainSubvol(s)
    ensures IsOptions(RewriteOptions(line, s))
    ensures GoSubvol(TrimBlanks(RewriteOptions(line, s))[7..]) == Some(s)
  {
    RewrittenOptions(line, s);
    GoFirstRewritten(FieldsOf(line), s);
  }

  lemma GoFirstRewritten(ws: seq<string>, s: string)
    requires PlainSubvol(s)
    ensures GoFirst(RewriteFields(ws, s)) == Some(s)
  {
    GoFirstEach(ws, s);
    if !HasRootflags(ws) {
      FreshToken(s);
      var token := ROOTFLAGS + SUBVOL + s;
      assert (SUBVOL + s)[7..] == s;
      GoFirstConcat(RewriteEach(ws, s), [token]);
      assert GoFirst([token]) == Some(s);
    } else {
      assert RewriteFields(ws, s) == RewriteEach(ws, s);
    }
  }

  lemma {:induction false} GoFirstConcat(a: seq<string>, b: seq<string>)
    ensures GoFirst(a + b) == if GoFirst(a).Some? then GoFirst(a) else GoFirst(b)
  {
    if a == [] {
      assert a + b == b;
    } else {
      assert (a + b)[1..] == a[1..] + b;
      GoFirstConcat(a[1..], b);
    }
  }

  lemma {:induction false} GoFirstEach(ws: seq<string>, s: string)
    requires PlainSubvol(s)
    ensures GoFirst(RewriteEach(ws, s)) == if HasRootflags(ws) then Some(s) else None
  {
    if ws != [] {
      GoFirstEach(ws[1..], s);
      assert RewriteEach(ws, s)[1..] == RewriteEach(ws[1..], s);
      if IsRootflags(ws[0]) {
        ReplacedTokenParts(ws[0], s);
        ReplacedParts(PartsOf(ws[0]), s);
        assert (SUBVOL + s)[7..] == s;
      } else {
        HasRootflagsTail(ws);
      }
    }
  }

  lemma HasRootflagsTail(ws: seq<string>)
    requires ws != [] && !IsRootflags(ws[0])
    ensures HasRootflags(ws) <==> HasRootflags(ws[1..])
  {
    if HasRootflags(ws[1..]) {
      var i :| 0 <= i < |ws[1..]| && IsRootflags(ws[1..][i]);
      assert IsRootflags(ws[i + 1]);
    }
    if HasRootflags(ws) {
      var i :| 0 <= i < |ws| && IsRootflags(ws[i]);
      assert IsRootflags(ws[1..][i - 1]);
    }
  }

  // -------------------------------------------------------------------------
  // What the hook reads from a rewritten options line
  // -------------------------------------------------------------------------

  function CountSubvol(parts: seq<string>): nat {
    if parts == [] then 0 else (if IsSubvol(parts[0]) then 1 else 0) + CountSubvol(parts[1..])
  }

  lemma {:induction false} NoSubvol(parts: seq<string>, cur: string)
    requires CountSubvol(parts) == 0
    ensures LastSubvol(parts, cur) == cur && FirstSubvol(parts) == |parts|
  {
    if parts != [] {
      NoSubvol(parts[1..], cur);
    }
  }

  lemma {:induction false} LastIgnoresFirst(parts: seq<string>, a: string, b: string)
    requires CountSubvol(parts) >= 1
    ensures LastSubvol(parts, a) == LastSubvol(parts, b)
  {
    if !IsSubvol(parts[0]) {
      LastIgnoresFirst(parts[1..], a, b);
    }
  }

  lemma {:induction false} ReplacePartsTail(parts: seq<string>, s: string)
    requires parts != [] && !IsSubvol(parts[0])
    ensures ReplaceParts(parts, s) == [parts[0]] + ReplaceParts(parts[1..], s)
  {
    var tail := parts[1..];
    var i := FirstSubvol(tail);
    assert FirstSubvol(parts) == 1 + i;
    assert parts == [parts[0]] + tail;
    if i < |tail| {
      assert parts[1 + i := SUBVOL + s] == [parts[0]] + tail[i := SUBVOL + s];
    }
  }

  // With at most one subvol= part the hook reads the new value; otherwise the old last one.
  lemma {:induction false} LastOfReplaced(parts: seq<string>, s: string, cur: string)
    ensures LastSubvol(ReplaceParts(parts, s), cur)
         == if CountSubvol(parts) <= 1 then s else LastSubvol(parts, cur)
    ensures CountSubvol(ReplaceParts(parts, s)) == if CountSubvol(parts) <= 1 then 1 else CountSubvol(parts)
  {
    var after := SUBVOL + s;
    assert after[7..] == s;
    if parts == [] {
      assert ReplaceParts(parts, s) == [after];
      var one: seq<string> := [after];
      assert one[1..] == [];
    } else if IsSubvol(parts[0]) {
      var r := ReplaceParts(parts, s);
      assert r == [after] + parts[1..];
      assert r[1..] == parts[1..];
      if CountSubvol(parts[1..]) == 0 {
        NoSubvol(parts[1..], s);
      } else {
        LastIgnoresFirst(parts[1..], s, parts[0][7..]);
      }
    } else {
      ReplacePartsTail(parts, s);
      var r := ReplaceParts(parts, s);
      assert r[1..] == ReplaceParts(parts[1..], s) && r[0] == parts[0];
      LastOfReplaced(parts[1..], s, cur);
    }
  }

  // The subvolume the hook takes from a rewritten rootflags= field.
  function TokenReads(field: string, s: string): string {
    if CountSubvol(PartsOf(field)) <= 1 then s else LastSubvol(PartsOf(field), "")
  }

  lemma ReadRewrittenField(field: string, s: string, a: Args)
    requires PlainSubvol(s)
    ensures ReadWord(RewriteField(field, s), a)
         == if IsRootflags(field) then a.(subvol := TokenReads(field, s)) else ReadWord(field, a)
  {
    if IsRootflags(field) {
      ReplacedTokenParts(field, s);
      LastOfReplaced(PartsOf(field), s, a.subvol);
      if CountSubvol(PartsOf(field)) > 1 {
        LastIgnoresFirst(PartsOf(field), a.subvol, "");
      }
    }
  }

  function LastRootflags(ws: seq<string>): Option<string> {
    if ws == [] then None
    else if LastRootflags(ws[1..]).Some? then LastRootflags(ws[1..])
    else if IsRootflags(ws[0]) then Some(ws[0])
    else None
  }

  lemma {:induction false} ReadWordsConcat(x: seq<string>, y: seq<string>, a: Args)
    ensures ReadWords(x + y, a) == ReadWords(y, ReadWords(x, a))
  {
    if x == [] {
      assert x + y == y;
    } else {
      assert (x + y)[1..] == x[1..] + y;
      ReadWordsConcat(x[1..], y, ReadWord(x[0], a));
    }
  }

  // A mode or basis read earlier is not affected by the subvolume read so far.
  lemma {:induction false} ReadApart(ws: seq<string>, a: Args, b: Args)
    requires a.mode == b.mode && a.basis == b.basis
    ensures ReadWords(ws, a).mode == ReadWords(ws, b).mode
    ensures ReadWords(ws, a).basis == ReadWords(ws, b).basis
  {
    if ws != [] {
      ReadApart(ws[1..], ReadWord(ws[0], a), ReadWord(ws[0], b));
    }
  }

  lemma {:induction false} ReadRewrittenEach(ws: seq<string>, s: string, a: Args)
    requires PlainSubvol(s)
    ensures var r := ReadWords(RewriteEach(ws, s), a);
      && r.subvol == (if LastRootflags(ws).Some? then TokenReads(LastRootflags(ws).value, s) else a.subvol)
      && r.mode == ReadWords(ws, a).mode && r.basis == ReadWords(ws, a).basis
  {
    if ws != [] {
      var next := ReadWord(RewriteField(ws[0], s), a);
      ReadRewrittenField(ws[0], s, a);
      assert RewriteEach(ws, s)[1..] == RewriteEach(ws[1..], s);
      ReadRewrittenEach(ws[1..], s, next);
      ReadApart(ws[1..], next, ReadWord(ws[0], a));
    }
  }

  lemma ReadOne(w: string, a: Args)
    ensures ReadWords([w], a) == ReadWord(w, a)
  {
    assert [w][1..] == [];
  }

  lemma {:induction false} LastRootflagsIff(ws: seq<string>)
    ensures LastRootflags(ws).Some? <==> HasRootflags(ws)
  {
    if ws != [] {
      LastRootflagsIff(ws[1..]);
      if !IsRootflags(ws[0]) {
        HasRootflagsTail(ws);
      }
    }
  }

  lemma ReadRewritten(ws: seq<string>, s: string, a: Args)
    requires PlainSubvol(s)
    ensures var r := ReadWords(RewriteFields(ws, s), a);
      && r.subvol == (if LastRootflags(ws).Some? then TokenReads(LastRootflags(ws).value, s) else s)
      && r.mode == ReadWords(ws, a).mode && r.basis == ReadWords(ws, a).basis
  {
    ReadRewrittenEach(ws, s, a);
    LastRootflagsIff(ws);
    if !HasRootflags(ws) {
      var token := ROOTFLAGS + SUBVOL + s;
      FreshToken(s);
      ReadWordsConcat(RewriteEach(ws, s), [token], a);
      ReadOne(token, ReadWords(RewriteEach(ws, s), a));
      assert (SUBVOL + s)[7..] == s;
      LastOne(SUBVOL + s, ReadWords(RewriteEach(ws, s), a).subvol);
    } else {
      assert RewriteFields(ws, s) == RewriteEach(ws, s);
    }
  }

  lemma LastOne(part: string, cur: string)
    requires IsSubvol(part)
    ensures LastSubvol([part], cur) == part[7..]
  {
    assert [part][1..] == [];
  }

  // The hook boots the new subvolume from a rewritten options line exactly when the line's
  // last rootflags= field had at most one subvol= part, or its last one named it already.
  lemma HookReadsRewritten(ws: seq<string>, s: string, a: Args)
    requires PlainSubvol(s)
    ensures Stripped(ReadWords(RewriteFields(ws, s), a)).subvol == s
       <==> (LastRootflags(ws).None? ||
             var parts := PartsOf(LastRootflags(ws).value);
             CountSubvol(parts) <= 1 || StripSlash(LastSubvol(parts, "")) == s)
  {
    ReadRewritten(ws, s, a);
    assert StripSlash(s) == s;
  }

  lemma TwoSubvolParts(f: string, x: string, y: string)
    requires f == ROOTFLAGS + (x + [','] + y) && Free(x, ',') && Free(y, ',')
    requires IsSubvol(x) && IsSubvol(y)
    ensures IsRootflags(f) && PartsOf(f) == [x, y]
    ensures CountSubvol([x, y]) == 2 && LastSubvol([x, y], "") == y[7..]
  {
    assert f[|ROOTFLAGS|..] == x + [','] + y;
    SplitHead(x, ',', y);
    SplitWhole(y, ',');
    var parts := [x, y];
    assert parts[1..] == [y];
    LastOne(y, x[7..]);
    var one: seq<string> := [y];
    assert one[1..] == [];
    assert CountSubvol(one) == 1;
  }

  // A field with two subvol= parts: Go reads the new subvolume, the hook the old one.
  lemma HookMissesSecondSubvol(f: string, old_: string, s: string)
    requires PlainSubvol(s) && PlainSubvol(old_) && old_ != s
    requires f == ROOTFLAGS + ((SUBVOL + old_) + [','] + (SUBVOL + old_))
    ensures GoFirst(RewriteFields([f], s)) == Some(s)
    ensures Stripped(ReadWords(RewriteFields([f], s), Args("", "", ""))).subvol == old_
  {
    var part := SUBVOL + old_;
    assert part[7..] == old_;
    TwoSubvolParts(f, part, part);
    LastRootflagsOne(f);
    ReadRewritten([f], s, Args("", "", ""));
    GoFirstRewritten([f], s);
  }

  lemma LastRootflagsOne(f: string)
    requires IsRootflags(f)
    ensures LastRootflags([f]) == Some(f)
  {
    var one: seq<string> := [f];
    assert one[1..] == [];
  }
}
