/** Names: which slate names are allowed, how checkpoint subvolumes are named, how the Go
    side matches such a name with a regular expression and the hook with globs and sed. */
module Names {
  import opened Text
  import opened Decimal

  const BASELINE := "@baseline"
  const RUNTIME := "@runtime"
  const HOSTID := "@hostid"
  const AUTO := "auto"
  const KEEP := "keep"

  // -------------------------------------------------------------------------
  // Slate names
  // -------------------------------------------------------------------------

  predicate NameChar(c: char) {
    'a' <= c <= 'z' || 'A' <= c <= 'Z' || IsDigit(c) || c == '_' || c == '-'
  }

  predicate ReservedName(name: string) {
    name in {"baseline", "scratch", "rescue", "runtime", "hostid"}
  }

  predicate ReservedSubvol(subvol: string) {
    subvol in {BASELINE, RUNTIME, HOSTID}
  }

  // validateName of the Go package.
  predicate ValidName(name: string) {
    && name != ""
    && (forall i | 0 <= i < |name| :: NameChar(name[i]))
    && !ReservedName(name) && !ReservedSubvol("@" + name)
  }

  // valid_subvol of the hook, its case patterns in order.
  predicate ValidSubvol(s: string) {
    if '/' in s then false
    else if exists i | 0 <= i < |s| - 1 :: s[i] == '.' && s[i + 1] == '.' then false
    else if s != "" && s[0] == '@' && exists i | 1 <= i < |s| :: !(NameChar(s[i]) || s[i] == '.') then false
    else |s| >= 2 && s[0] == '@'
  }

  function DisplayName(subvol: string): string {
    if subvol == BASELINE then "baseline"
    else if subvol == RUNTIME then "scratch"
    else TrimPrefix(subvol, "@")
  }

  // A slate the CLI accepts is one the hook accepts, and neither reserved name slips through.
  lemma ValidNameIsValidSubvol(name: string)
    requires ValidName(name)
    ensures ValidSubvol("@" + name) && !ReservedSubvol("@" + name)
    ensures DisplayName("@" + name) == name
    ensures '/' !in "@" + name && '.' !in name && '\n' !in name && ',' !in name
  {
    var s := "@" + name;
    forall i | 0 <= i < |name| ensures s[i + 1] == name[i] {}
    assert forall i | 1 <= i < |s| :: s[i] == name[i - 1] && NameChar(s[i]);
  }

  // -------------------------------------------------------------------------
  // Checkpoint names
  // -------------------------------------------------------------------------

  predicate Class(c: string) { c == AUTO || c == KEEP }

  function CkptName(slate: string, seqno: nat, class_: string): string {
    "@" + slate + ".ckpt." + Pad(seqno, 4) + "." + class_
  }

  datatype Match = Match(slate: string, digits: string, class_: string)

  // What the regular expression ^@(.+)\.ckpt\.(\d+)\.(auto|keep)$ accepts with groups m.
  predicate Denotes(s: string, m: Match) {
    && s == "@" + m.slate + ".ckpt." + m.digits + "." + m.class_
    && m.slate != "" && '\n' !in m.slate
    && m.digits != "" && AllDigits(m.digits)
    && Class(m.class_)
  }

  // A text cut at its last c.
  function CutLast(s: string, c: char): (r: Option<(string, string)>)
    ensures r.Some? ==> s == r.value.0 + [c] + r.value.1 && c !in r.value.1
    ensures r.None? ==> c !in s
  {
    if s == "" then None
    else if s[|s| - 1] == c then Some((s[..|s| - 1], ""))
    else
      var r := CutLast(s[..|s| - 1], c);
      if r.None? then None else Some((r.value.0, r.value.1 + [s[|s| - 1]]))
  }

  lemma {:induction false} CutLastAt(front: string, c: char, back: string)
    requires c !in back
    ensures CutLast(front + [c] + back, c) == Some((front, back))
  {
    var s := front + [c] + back;
    if back == "" {
      assert s == front + [c];
      assert s[..|s| - 1] == front;
    } else {
      var k := |back| - 1;
      assert s[..|s| - 1] == front + [c] + back[..k];
      CutLastAt(front, c, back[..k]);
      assert back == back[..k] + [back[k]];
    }
  }

  // The slate's name in what stands before the digits.
  function MatchHead(s: string): Option<string> {
    if !HasSuffix(s, ".ckpt") then None
    else
      var head := s[..|s| - 5];
      if |head| < 2 || head[0] != '@' || '\n' in head then None else Some(head[1..])
  }

  // FindStringSubmatch: the groups are found from the right end of the name.
  function MatchCkpt(s: string): Option<Match> {
    var last := CutLast(s, '.');
    if last.None? || !Class(last.value.1) then None
    else
      var mid := CutLast(last.value.0, '.');
      if mid.None? || mid.value.1 == "" || !AllDigits(mid.value.1) then None
      else
        var head := MatchHead(mid.value.0);
        if head.None? then None else Some(Match(head.value, mid.value.1, last.value.1))
  }

  lemma MatchHeadExact(s: string, slate: string)
    ensures MatchHead(s) == Some(slate)
       <==> s == "@" + slate + ".ckpt" && slate != "" && '\n' !in slate
  {
    if MatchHead(s) == Some(slate) {
      assert s == s[..|s| - 5] + ".ckpt";
      assert s[..|s| - 5] == "@" + slate;
    }
    if s == "@" + slate + ".ckpt" && slate != "" && '\n' !in slate {
      assert s[|s| - 5..] == ".ckpt";
      assert s[..|s| - 5] == "@" + slate;
    }
  }

  lemma Assemble(m: Match)
    ensures "@" + m.slate + ".ckpt." + m.digits + "." + m.class_
         == ("@" + m.slate + ".ckpt") + ['.'] + m.digits + ['.'] + m.class_
  {
    assert ".ckpt." == ".ckpt" + ['.'];
    assert "@" + m.slate + ".ckpt." == ("@" + m.slate + ".ckpt") + ['.'];
  }

  lemma MatchSound(s: string)
    requires MatchCkpt(s).Some?
    ensures Denotes(s, MatchCkpt(s).value)
  {
    var m := MatchCkpt(s).value;
    var last := CutLast(s, '.').value;
    var mid := CutLast(last.0, '.').value;
    MatchHeadExact(mid.0, m.slate);
    Assemble(m);
  }

  lemma MatchComplete(s: string, m: Match)
    requires Denotes(s, m)
    ensures MatchCkpt(s) == Some(m)
  {
    var front := "@" + m.slate + ".ckpt";
    var left := front + ['.'] + m.digits;
    Assemble(m);
    CutLastAt(left, '.', m.class_);
    CutLastAt(front, '.', m.digits);
    MatchHeadExact(front, m.slate);
  }

  // Soundness, completeness and uniqueness of the match at once.
  lemma MatchExact(s: string, m: Match)
    ensures MatchCkpt(s) == Some(m) <==> Denotes(s, m)
  {
    if MatchCkpt(s) == Some(m) {
      MatchSound(s);
    } else if Denotes(s, m) {
      MatchComplete(s, m);
    }
  }

  lemma CkptNameMatches(slate: string, seqno: nat, class_: string)
    requires slate != "" && '\n' !in slate && Class(class_)
    ensures MatchCkpt(CkptName(slate, seqno, class_)) == Some(Match(slate, Pad(seqno, 4), class_))
    ensures Value(Pad(seqno, 4)) == seqno
  {
    MatchExact(CkptName(slate, seqno, class_), Match(slate, Pad(seqno, 4), class_));
    ValueOfPad(seqno, 4);
  }

  // A checkpoint of the named slate, as ListCheckpoints filters it.
  predicate CkptOf(k: string, slate: string) {
    MatchCkpt(k).Some? && MatchCkpt(k).value.slate == slate
  }

  function SeqOf(k: string): nat {
    var m := MatchCkpt(k);
    if m.Some? && AllDigits(m.value.digits) then Value(m.value.digits) else 0
  }

  predicate AutoCkptOf(k: string, slate: string) {
    CkptOf(k, slate) && MatchCkpt(k).value.class_ == AUTO
  }

  predicate KeepCkptOf(k: string, slate: string) {
    CkptOf(k, slate) && MatchCkpt(k).value.class_ == KEEP
  }

  // -------------------------------------------------------------------------
  // The hook's view: globs and sed
  // -------------------------------------------------------------------------

  // "$mnt/$1".ckpt.* : a star never crosses a slash.
  predicate CkptGlob(k: string, subvol: string) {
    subvol + ".ckpt." <= k && '/' !in k
  }

  // "$mnt/$1".ckpt.*.auto
  predicate AutoGlob(k: string, subvol: string) {
    CkptGlob(k, subvol) && HasSuffix(k, ".auto") && |k| >= |subvol| + 11
  }

  function DigitRun(s: string): (r: string)
    ensures r <= s && AllDigits(r)
    ensures |r| < |s| ==> !IsDigit(s[|r|])
  {
    if s != "" && IsDigit(s[0]) then [s[0]] + DigitRun(s[1..]) else ""
  }

  // The group of s/.*\.ckpt\.\([0-9]*\)\..*/\1/, if the line matches: `.*` is greedy, so the
  // rightmost place that fits is taken.
  function SedSeq(s: string): Option<string> {
    SedFrom(s, |s|)
  }

  function SedFrom(s: string, i: nat): Option<string>
    requires i <= |s|
  {
    if SedHere(s, i) then Some(DigitRun(s[i + 6..]))
    else if i == 0 then None
    else SedFrom(s, i - 1)
  }

  predicate SedHere(s: string, i: nat)
    requires i <= |s|
  {
    ".ckpt." <= s[i..] &&
    var r := DigitRun(s[i + 6..]);
    i + 6 + |r| < |s| && s[i + 6 + |r|] == '.'
  }

  lemma {:induction false} DigitRunOf(ds: string, tail: string)
    requires AllDigits(ds) && (tail != "" ==> !IsDigit(tail[0]))
    ensures DigitRun(ds + tail) == ds
  {
    if ds == "" {
      assert ds + tail == tail;
    } else {
      assert (ds + tail)[1..] == ds[1..] + tail;
      DigitRunOf(ds[1..], tail);
      assert ds == [ds[0]] + ds[1..];
    }
  }

  lemma SedAt(p: string, ds: string, class_: string)
    requires ds != "" && AllDigits(ds) && Class(class_)
    ensures var s := p + (".ckpt." + (ds + ("." + class_)));
            SedHere(s, |p|) && DigitRun(s[|p| + 6..]) == ds
  {
    var s := p + (".ckpt." + (ds + ("." + class_)));
    assert s[|p|..] == ".ckpt." + (ds + ("." + class_));
    assert s[|p| + 6..] == ds + ("." + class_);
    DigitRunOf(ds, "." + class_);
    assert s[|p| + 6 + |ds|] == '.';
  }

  // ".ckpt." does not occur in the digits and class that end a checkpoint's name.
  lemma NoMarkIn(tail: string, ds: string, class_: string, i: nat)
    requires ds != "" && AllDigits(ds) && Class(class_)
    requires tail == ".ckpt." + (ds + ("." + class_)) && 0 < i <= |tail|
    ensures !(".ckpt." <= tail[i..])
  {
    var rest := ds + ("." + class_);
    assert forall j | 6 <= j < |tail| :: tail[j] == rest[j - 6];
    if i + 6 <= |tail| {
      assert tail[i..][0] == tail[i] && tail[i..][1] == tail[i + 1];
      if i < 6 {
        assert tail[i] == ".ckpt."[i];
        assert i == 5 ==> tail[i + 1] == ds[0] && IsDigit(tail[i + 1]);
      } else {
        assert |class_| == 4 && |tail| == 11 + |ds|;
        assert tail[i] == ds[i - 6] && IsDigit(tail[i]);
      }
    }
  }

  lemma {:induction false} SedFromDown(p: string, ds: string, class_: string, i: nat)
    requires ds != "" && AllDigits(ds) && Class(class_)
    requires |p| <= i <= |p + (".ckpt." + (ds + ("." + class_)))|
    ensures SedFrom(p + (".ckpt." + (ds + ("." + class_))), i) == Some(ds)
    decreases i
  {
    var tail := ".ckpt." + (ds + ("." + class_));
    var s := p + tail;
    if i == |p| {
      SedAt(p, ds, class_);
    } else {
      NoMarkIn(tail, ds, class_, i - |p|);
      assert s[i..] == tail[i - |p|..];
      SedFromDown(p, ds, class_, i - 1);
    }
  }

  lemma SedReadsCkptName(slate: string, seqno: nat, class_: string)
    requires Class(class_)
    ensures SedSeq(CkptName(slate, seqno, class_)) == Some(Pad(seqno, 4))
  {
    var p := "@" + slate;
    assert CkptName(slate, seqno, class_) == p + (".ckpt." + (Pad(seqno, 4) + ("." + class_)));
    SedFromDown(p, Pad(seqno, 4), class_, |CkptName(slate, seqno, class_)|);
  }

  // -------------------------------------------------------------------------
  // The names a store holds
  // -------------------------------------------------------------------------

  // The top-level subvolume a path lies in.
  function Top(k: string): (t: string)
    ensures t <= k && '/' !in t
    ensures t != k ==> t + "/" <= k
    ensures '/' !in k ==> t == k
  {
    if k == "" || k[0] == '/' then "" else [k[0]] + Top(k[1..])
  }

  lemma {:induction false} TopUnique(k: string, p: string)
    requires '/' !in p
    ensures k == p || p + "/" <= k <==> Top(k) == p
  {
    if p == "" {
      if k != "" && k[0] == '/' {
        assert "" + "/" <= k;
      }
    } else if k != "" && k[0] == p[0] {
      TopUnique(k[1..], p[1..]);
      assert p == [p[0]] + p[1..] && k == [k[0]] + k[1..];
      assert p + "/" == [p[0]] + (p[1..] + "/");
    }
  }

  predicate SlatePath(k: string) {
    |k| >= 2 && k[0] == '@' && ValidName(k[1..])
  }

  // A checkpoint of a valid slate, its number padded as both writers pad it.
  predicate CkptPath(k: string) {
    var m := MatchCkpt(k);
    && m.Some? && ValidName(m.value.slate) && AllDigits(m.value.digits)
    && k == CkptName(m.value.slate, Value(m.value.digits), m.value.class_)
  }

  // The paths a cleanslate store can hold. Subvolumes nested by a workload lie in a slate or
  // in the scratch root and may be called anything.
  predicate StorePath(k: string) {
    if '/' in k then |k| > |Top(k)| + 1 && (Top(k) == RUNTIME || SlatePath(Top(k)))
    else ReservedSubvol(k) || SlatePath(k) || CkptPath(k)
  }

  lemma CkptPathOf(slate: string, seqno: nat, class_: string)
    requires ValidName(slate) && Class(class_)
    ensures var k := CkptName(slate, seqno, class_);
            CkptPath(k) && StorePath(k) && CkptOf(k, slate) && SeqOf(k) == seqno
            && MatchCkpt(k).value.class_ == class_ && '/' !in k && '.' in k
            && CkptGlob(k, "@" + slate) && k != "@" + slate
  {
    ValidNameIsValidSubvol(slate);
    CkptNameMatches(slate, seqno, class_);
    var k := CkptName(slate, seqno, class_);
    assert k == ("@" + slate + ".ckpt.") + (Pad(seqno, 4) + "." + class_);
    assert k[|slate| + 1] == '.';
    forall i | 0 <= i < |k| ensures k[i] != '/' {
      if i > |slate| + 6 {
        assert k[i] == (Pad(seqno, 4) + "." + class_)[i - |slate| - 7];
      } else {
        assert k[i] == ("@" + slate + ".ckpt.")[i];
      }
    }
  }

  // The character of a checkpoint's name at each place.
  lemma CkptChar(n: string, ds: string, c: string, i: nat)
    requires c == AUTO || c == KEEP
    requires i < |"@" + n + ".ckpt." + ds + "." + c|
    ensures var k, a, b := "@" + n + ".ckpt." + ds + "." + c, |n| + 7, |n| + 7 + |ds|;
            |k| == b + 5
            && k[i] == if i == 0 then '@' else if i <= |n| then n[i - 1]
                       else if i < a then ".ckpt."[i - |n| - 1]
                       else if i < b then ds[i - a] else if i == b then '.' else c[i - b - 1]
  {
  }

  lemma ValidNotEmpty(n: string)
    requires ValidName(n)
    ensures n != ""
  {
  }

  // The hook accepts every checkpoint's name.
  lemma CkptIsValidSubvol(n: string, s: nat, c: string)
    requires ValidName(n) && Class(c)
    ensures ValidSubvol(CkptName(n, s, c))
  {
    hide CkptName, ValidName, Pad;
    var k := CkptName(n, s, c);
    CkptPathOf(n, s, c);
    CkptLength(n, s, c);
    forall i | 0 <= i < |k|
      ensures i == 0 ==> k[i] == '@'
      ensures i >= 1 ==> NameChar(k[i]) || k[i] == '.'
      ensures k[i] == '.' <==> i == |n| + 1 || i == |n| + 6 || i == |n| + 7 + |Pad(s, 4)|
    {
      CkptCharKind(n, s, c, i);
    }
  }

  lemma CkptLength(n: string, s: nat, c: string)
    requires ValidName(n) && Class(c)
    ensures |CkptName(n, s, c)| == |n| + 12 + |Pad(s, 4)| && |Pad(s, 4)| >= 4
  {
  }

  lemma CkptCharKind(n: string, s: nat, c: string, i: nat)
    requires ValidName(n) && Class(c) && i < |CkptName(n, s, c)|
    ensures var k := CkptName(n, s, c);
      && (i == 0 ==> k[i] == '@') && (i >= 1 ==> NameChar(k[i]) || k[i] == '.')
      && (k[i] == '.' <==> i == |n| + 1 || i == |n| + 6 || i == |n| + 7 + |Pad(s, 4)|)
  {
    hide Pad;
    CkptChar(n, Pad(s, 4), c, i);
    assert forall j | 0 <= j < |n| :: NameChar(n[j]) && n[j] != '.';
    assert forall j | 0 <= j < 4 :: NameChar(c[j]) && c[j] != '.';
  }

  lemma SlatePathNoDot(k: string)
    ensures SlatePath(k) ==> '.' !in k && '/' !in k
  {
    if SlatePath(k) {
      ValidNameIsValidSubvol(k[1..]);
      assert k == "@" + k[1..];
    }
  }

  // Slates and reserved subvolumes are not checkpoints.
  lemma NoDotNoMatch(k: string)
    requires '.' !in k
    ensures MatchCkpt(k) == None
  {
  }

  lemma {:induction false} MatchHasDot(k: string)
    requires MatchCkpt(k).Some?
    ensures '.' in k && k[0] == '@'
  {
    MatchExact(k, MatchCkpt(k).value);
  }

  function FirstDotAt(s: string): nat {
    if s == "" || s[0] == '.' then 0 else 1 + FirstDotAt(s[1..])
  }

  lemma {:induction false} FirstDotFree(name: string, tail: string)
    requires '.' !in name && tail != "" && tail[0] == '.'
    ensures FirstDotAt(name + tail) == |name|
  {
    if name == "" {
      assert name + tail == tail;
    } else {
      assert (name + tail)[1..] == name[1..] + tail;
      FirstDotFree(name[1..], tail);
    }
  }

  lemma GlobbedIsCkptPath(k: string, slate: string)
    requires StorePath(k) && ValidName(slate) && CkptGlob(k, "@" + slate)
    ensures CkptPath(k)
  {
    var pre := "@" + slate + ".ckpt.";
    assert k[|slate| + 1] == pre[|slate| + 1] == '.';
    assert k[1..][|slate|] == '.';
    assert '.' in k && '.' in k[1..];
    if SlatePath(k) {
      ValidNameIsValidSubvol(k[1..]);
    }
  }

  lemma GlobbedIsListed(k: string, slate: string)
    requires StorePath(k) && ValidName(slate) && CkptGlob(k, "@" + slate)
    ensures CkptOf(k, slate)
  {
    GlobbedIsCkptPath(k, slate);
    var m := MatchCkpt(k).value;
    MatchSound(k);
    ValidNameIsValidSubvol(m.slate);
    ValidNameIsValidSubvol(slate);
    AfterName(m);
    SameName(k, m.slate, slate, "ckpt." + (m.digits + "." + m.class_));
  }

  lemma AfterName(m: Match)
    ensures "@" + m.slate + ".ckpt." + m.digits + "." + m.class_
         == "@" + m.slate + "." + ("ckpt." + (m.digits + "." + m.class_))
  {
    assert ".ckpt." == "." + "ckpt.";
  }

  lemma SameName(k: string, a: string, b: string, tail: string)
    requires '.' !in a && '.' !in b
    requires k == "@" + a + "." + tail
    requires "@" + b + ".ckpt." <= k
    ensures a == b
  {
    var pre := "@" + b + ".ckpt.";
    FirstDotFree(a, "." + tail);
    assert k[1..] == a + ("." + tail);
    var rest := ".ckpt." + k[|pre|..];
    FirstDotFree(b, rest);
    assert k == pre + k[|pre|..];
    assert k[1..] == b + rest;
    assert a == k[1..][..|a|] && b == k[1..][..|b|];
  }

  lemma ListedIsGlobbed(k: string, slate: string)
    requires CkptOf(k, slate) && '/' !in k
    ensures CkptGlob(k, "@" + slate)
    ensures AutoGlob(k, "@" + slate) <==> AutoCkptOf(k, slate)
  {
    var m := MatchCkpt(k).value;
    MatchSound(k);
    var pre := "@" + slate + ".ckpt.";
    assert "@" + slate + ".ckpt." == pre;
    assert k == pre + (m.digits + "." + m.class_);
    assert |k| == |pre| + |m.digits| + 5;
    assert k[|k| - 5..] == "." + m.class_;
    if AutoGlob(k, "@" + slate) {
      assert ".auto"[1..] == "auto" && ("." + m.class_)[1..] == m.class_;
    }
  }

  // Among the paths of a store, the hook's glob for a slate and the Go listing of it pick the
  // same ones; neither reaches another slate, even one whose name begins with this name.
  lemma GlobIsListing(k: string, slate: string)
    requires StorePath(k) && ValidName(slate)
    ensures CkptGlob(k, "@" + slate) <==> CkptOf(k, slate) && '/' !in k
    ensures AutoGlob(k, "@" + slate) <==> AutoCkptOf(k, slate) && '/' !in k
  {
    if CkptGlob(k, "@" + slate) {
      GlobbedIsListed(k, slate);
    }
    if CkptOf(k, slate) && '/' !in k {
      ListedIsGlobbed(k, slate);
    }
  }

  // Formatting then matching returns what was formatted, and sed reads the same digits.
  lemma NameRoundTrip(n: string, seqno: nat, class_: string)
    requires ValidName(n) && Class(class_)
    ensures MatchCkpt(CkptName(n, seqno, class_)) == Some(Match(n, Pad(seqno, 4), class_))
    ensures SedSeq(CkptName(n, seqno, class_)) == Some(Pad(seqno, 4))
    ensures Value(Pad(seqno, 4)) == seqno
  {
    ValidNameIsValidSubvol(n);
    CkptNameMatches(n, seqno, class_);
    SedReadsCkptName(n, seqno, class_);
  }

  // The globs of one slate match its own checkpoints and leave every other slate, its
  // checkpoints and the reserved subvolumes alone.
  lemma GlobsIsolate(n: string, m: string, seqno: nat, class_: string)
    requires ValidName(n) && ValidName(m) && Class(class_)
    ensures CkptGlob(CkptName(m, seqno, class_), "@" + n) <==> n == m
    ensures AutoGlob(CkptName(m, seqno, class_), "@" + n) <==> n == m && class_ == AUTO
    ensures forall k | StorePath(k) && !CkptPath(k) :: !CkptGlob(k, "@" + n)
  {
    NameRoundTrip(m, seqno, class_);
    CkptPathOf(m, seqno, class_);
    GlobIsListing(CkptName(m, seqno, class_), n);
    forall k | StorePath(k) && !CkptPath(k) ensures !CkptGlob(k, "@" + n) {
      if CkptGlob(k, "@" + n) {
        GlobbedIsCkptPath(k, n);
      }
    }
  }
}
