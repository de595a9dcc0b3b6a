/** Checkpoints of a store: listing, looking one up, numbering the next, and choosing which
    automatic ones to prune, as Go does it and as the hook does it. */
module Checkpoints {
  import opened Text
  import opened Decimal
  import opened Names
  import opened Sorting
  import opened Store

  // Paths are those a store can hold, checkpoints are read-only, and a slate and number name at
  // most one checkpoint across both classes.
  ghost predicate Sound(d: Disk) {
    && (forall k {:trigger StorePath(k)} | k in d.subvols :: StorePath(k) && (CkptPath(k) ==> d.subvols[k].ro))
    && Unique(d)
  }

  ghost predicate Unique(d: Disk) {
    forall n, s | ValidName(n) :: !(CkptName(n, s, AUTO) in d.subvols && CkptName(n, s, KEEP) in d.subvols)
  }

  // -------------------------------------------------------------------------
  // The checkpoints of one slate
  // -------------------------------------------------------------------------

  lemma CkptIsTop(k: string, n: string)
    requires CkptOf(k, n) && '/' !in n
    ensures '/' !in k
  {
    var m := MatchCkpt(k).value;
    MatchSound(k);
    assert forall c :: c in m.digits ==> IsDigit(c);
  }

  lemma CkptIsCanonical(d: Disk, k: string, n: string)
    requires Sound(d) && k in d.subvols && CkptOf(k, n) && ValidName(n)
    ensures CkptPath(k) && '/' !in k && Class(MatchCkpt(k).value.class_)
    ensures k == CkptName(n, SeqOf(k), MatchCkpt(k).value.class_)
  {
    ValidNameIsValidSubvol(n);
    CkptIsTop(k, n);
    MatchSound(k);
    MatchHasDot(k);
    SlatePathNoDot(k);
    assert StorePath(k);
  }

  lemma SameNumberSameCkpt(d: Disk, j: string, k: string, n: string)
    requires Sound(d) && ValidName(n) && j in d.subvols && k in d.subvols
    requires CkptOf(j, n) && CkptOf(k, n) && SeqOf(j) == SeqOf(k)
    ensures j == k
  {
    CkptIsCanonical(d, j, n);
    CkptIsCanonical(d, k, n);
    var s := SeqOf(j);
    assert !(CkptName(n, s, AUTO) in d.subvols && CkptName(n, s, KEEP) in d.subvols);
  }

  // -------------------------------------------------------------------------
  // Numbers
  // -------------------------------------------------------------------------

  ghost function MaxOf(s: set<nat>): (m: nat)
    ensures forall x | x in s :: x <= m
    ensures if s == {} then m == 0 else m in s
  {
    if s == {} then 0
    else
      var x :| x in s;
      var rest := s - {x};
      var m := MaxOf(rest);
      assert forall y | y in s :: y == x || y in rest;
      if x > m then x else m
  }

  function Seqs(d: Disk, n: string): set<nat> {
    set k | k in d.subvols && CkptOf(k, n) :: SeqOf(k)
  }

  ghost function MaxSeq(d: Disk, n: string): nat { MaxOf(Seqs(d, n)) }

  lemma SeqAtMostMax(d: Disk, n: string, k: string)
    requires k in d.subvols && CkptOf(k, n)
    ensures SeqOf(k) <= MaxSeq(d, n)
  {
    assert SeqOf(k) in Seqs(d, n);
  }

  // What `ls | sed` prints for one path.
  predicate SedNumeral(k: string) {
    SedSeq(k).Some? && SedSeq(k).value != "" && AllDigits(SedSeq(k).value)
  }

  function SedNumber(k: string): nat {
    if SedNumeral(k) then Value(SedSeq(k).value) else 0
  }

  // The numbers the hook sees: ls -d, sed, sort -n.
  function HookNumbers(d: Disk, subvol: string): set<nat> {
    set k | k in d.subvols && CkptGlob(k, subvol) && SedNumeral(k) :: SedNumber(k)
  }

  // next_seq, with the shell reading its own zero-padded number in decimal.
  ghost function HookNext(d: Disk, subvol: string): nat { MaxOf(HookNumbers(d, subvol)) + 1 }

  // next_seq under the octal rule of POSIX arithmetic; no number when a digit is not octal.
  ghost function PosixNext(d: Disk, subvol: string): Option<nat> {
    var c := PosixConstant(Pad(MaxOf(HookNumbers(d, subvol)), 4));
    if c.None? then None else Some(c.value + 1)
  }

  lemma SedNumberIsSeq(d: Disk, k: string, n: string)
    requires Sound(d) && ValidName(n) && k in d.subvols
    ensures CkptGlob(k, "@" + n) <==> CkptOf(k, n)
    ensures CkptOf(k, n) ==> SedNumeral(k) && SedNumber(k) == SeqOf(k)
  {
    GlobIsListing(k, n);
    ValidNameIsValidSubvol(n);
    if CkptOf(k, n) {
      CkptIsCanonical(d, k, n);
      SedReadsCkptName(n, SeqOf(k), MatchCkpt(k).value.class_);
      ValueOfPad(SeqOf(k), 4);
    }
  }

  // Globs and sed in the hook read the same numbers as the regular expression in Go, so both
  // give the next checkpoint the same number, above every number in use.
  lemma NextNumbersAgree(d: Disk, n: string)
    requires Sound(d) && ValidName(n)
    ensures HookNumbers(d, "@" + n) == Seqs(d, n)
    ensures HookNext(d, "@" + n) == MaxSeq(d, n) + 1
    ensures forall k | k in d.subvols && CkptOf(k, n) :: SeqOf(k) < HookNext(d, "@" + n)
    ensures forall c | Class(c) :: CkptName(n, HookNext(d, "@" + n), c) !in d.subvols
  {
    forall k | k in d.subvols
      ensures CkptGlob(k, "@" + n) <==> CkptOf(k, n)
      ensures CkptOf(k, n) ==> SedNumeral(k) && SedNumber(k) == SeqOf(k)
    {
      SedNumberIsSeq(d, k, n);
    }
    assert HookNumbers(d, "@" + n) == Seqs(d, n);
    forall k | k in d.subvols && CkptOf(k, n) ensures SeqOf(k) < HookNext(d, "@" + n) {
      SeqAtMostMax(d, n, k);
    }
    forall c | Class(c) ensures CkptName(n, HookNext(d, "@" + n), c) !in d.subvols {
      CkptPathOf(n, HookNext(d, "@" + n), c);
    }
  }

  // Under the octal rule the hook numbers as Go does exactly while the newest number is at most
  // 7 or at least 1000.
  lemma PosixNumbersAgree(d: Disk, n: string)
    requires Sound(d) && ValidName(n)
    ensures PosixNext(d, "@" + n) == Some(MaxSeq(d, n) + 1) <==> MaxSeq(d, n) <= 7 || MaxSeq(d, n) >= 1000
  {
    NextNumbersAgree(d, n);
    PosixReadsPadded(MaxSeq(d, n));
  }

  // -------------------------------------------------------------------------
  // Listing and looking up
  // -------------------------------------------------------------------------

  function SlateOf(k: string): string {
    if MatchCkpt(k).Some? then MatchCkpt(k).value.slate else ""
  }

  // sort.Slice by slate and number; names of one slate and number are put in text order, which
  // Go leaves open.
  predicate ByRef(a: string, b: string) {
    || Before(SlateOf(a), SlateOf(b))
    || (SlateOf(a) == SlateOf(b) && (SeqOf(a) < SeqOf(b) || (SeqOf(a) == SeqOf(b) && Before(a, b))))
  }

  lemma ByRefOrder()
    ensures StrictTotal(ByRef)
  {
    TextOrder();
    forall a: string, b: string, c: string | ByRef(a, b) && ByRef(b, c) ensures ByRef(a, c) {
      assert Before(SlateOf(a), SlateOf(b)) && Before(SlateOf(b), SlateOf(c)) ==> Before(SlateOf(a), SlateOf(c));
      assert Before(a, b) && Before(b, c) ==> Before(a, c);
    }
    forall a: string, b: string ensures a == b || ByRef(a, b) || ByRef(b, a) {
      assert a == b || Before(a, b) || Before(b, a);
      assert SlateOf(a) == SlateOf(b) || Before(SlateOf(a), SlateOf(b)) || Before(SlateOf(b), SlateOf(a));
    }
  }

  predicate Wanted(k: string, slate: string) {
    MatchCkpt(k).Some? && (slate == "" || CkptOf(k, slate))
  }

  function Listing(d: Disk, slate: string): set<string> {
    set k | k in d.subvols && Wanted(k, slate)
  }

  ghost function Listed(d: Disk, slate: string): seq<string> {
    ByRefOrder();
    Sorted(Listing(d, slate), ByRef)
  }

  method ListCheckpoints(fs: FsRoot, slate: string) returns (out: seq<string>)
    ensures out == Listed(fs.Now(), slate)
  {
    var names := fs.Names(fs.subvols.Keys);
    out := [];
    for i := 0 to |names|
      invariant Elements(out) == set k | k in names[..i] && Wanted(k, slate)
      invariant forall a, b | 0 <= a < b < |out| :: out[a] != out[b]
    {
      var k := names[i];
      assert k !in names[..i];
      assert names[..i + 1] == names[..i] + [k];
      ghost var before := out;
      if MatchCkpt(k).Some? && (slate == "" || CkptOf(k, slate)) {
        assert k !in Elements(out);
        out := out + [k];
        assert Elements(out) == Elements(before) + {k};
      }
    }
    assert names[..|names|] == names;
    assert forall k :: k in names <==> k in Elements(names);
    assert Elements(out) == Listing(fs.Now(), slate);
    ByRefOrder();
    out := Sort(out, ByRef);
  }

  function Ref(k: string): string { SlateOf(k) + "." + Pad(SeqOf(k), 1) }

  // The slate and number a reference asks for.
  function ParseRef(ref: string, defaultSlate: string): (string, string) {
    if MatchCkpt(ref).Some? then (MatchCkpt(ref).value.slate, MatchCkpt(ref).value.digits)
    else if CutLast(ref, '.').Some? then CutLast(ref, '.').value
    else (defaultSlate, ref)
  }

  function FirstNumbered(q: seq<string>, s: int): Option<string> {
    if q == [] then None
    else if SeqOf(q[0]) == s then Some(q[0])
    else FirstNumbered(q[1..], s)
  }

  ghost function Find(d: Disk, ref: string, defaultSlate: string): Option<string> {
    var (slate, digits) := ParseRef(ref, defaultSlate);
    if ref == "" || Atoi(digits).None? then None
    else FirstNumbered(Listed(d, slate), Atoi(digits).value)
  }

  method FindCheckpoint(fs: FsRoot, ref: string, defaultSlate: string) returns (r: Option<string>)
    ensures r == Find(fs.Now(), ref, defaultSlate)
  {
    if ref == "" {
      return None;
    }
    var slate, digits := defaultSlate, ref;
    var m := MatchCkpt(ref);
    if m.Some? {
      slate, digits := m.value.slate, m.value.digits;
    } else {
      var cut := CutLast(ref, '.');
      if cut.Some? {
        slate, digits := cut.value.0, cut.value.1;
      }
    }
    var s := Atoi(digits);
    if s.None? {
      return None;
    }
    var all := ListCheckpoints(fs, slate);
    for i := 0 to |all|
      invariant FirstNumbered(all, s.value) == FirstNumbered(all[i..], s.value)
    {
      assert all[i..][0] == all[i] && all[i..][1..] == all[i + 1..];
      if SeqOf(all[i]) == s.value {
        return Some(all[i]);
      }
    }
    return None;
  }

  lemma {:induction false} FirstNumberedIs(q: seq<string>, s: int)
    ensures FirstNumbered(q, s).Some? ==> FirstNumbered(q, s).value in q && SeqOf(FirstNumbered(q, s).value) == s
    ensures FirstNumbered(q, s).None? ==> forall k | k in q :: SeqOf(k) != s
  {
    if q != [] {
      FirstNumberedIs(q[1..], s);
      assert q == [q[0]] + q[1..];
    }
  }

  // What a lookup finds is in the store and a checkpoint by name.
  lemma FoundIsListed(d: Disk, ref: string, defaultSlate: string)
    requires Find(d, ref, defaultSlate).Some?
    ensures var k := Find(d, ref, defaultSlate).value;
            k in d.subvols && MatchCkpt(k).Some?
  {
    var (slate, digits) := ParseRef(ref, defaultSlate);
    FirstNumberedIs(Listed(d, slate), Atoi(digits).value);
  }

  lemma {:induction false} FirstNumberedFirst(q: seq<string>, s: int, k: string)
    requires Ordered(q, ByRef) && FirstNumbered(q, s).Some? && k in q && SeqOf(k) == s
    ensures k == FirstNumbered(q, s).value || ByRef(FirstNumbered(q, s).value, k)
  {
    hide SeqOf, ByRef;
    if SeqOf(q[0]) == s {
      var i :| 0 <= i < |q| && q[i] == k;
      assert i > 0 ==> ByRef(q[0], q[i]);
    } else {
      assert q == [q[0]] + q[1..];
      assert forall i, j | 0 <= i < j < |q[1..]| :: q[1..][i] == q[i + 1] && q[1..][j] == q[j + 1];
      FirstNumberedFirst(q[1..], s, k);
    }
  }

  // Of several checkpoints that a reference fits, the one whose slate comes first is found.
  lemma FoundIsFirst(d: Disk, ref: string, defaultSlate: string, k: string)
    requires Find(d, ref, defaultSlate).Some?
    requires var (slate, digits) := ParseRef(ref, defaultSlate);
             k in d.subvols && Wanted(k, slate) && Atoi(digits) == Some(SeqOf(k))
    ensures var c := Find(d, ref, defaultSlate).value;
      && SeqOf(c) == SeqOf(k)
      && (c == k || Before(SlateOf(c), SlateOf(k)) || (SlateOf(c) == SlateOf(k) && Before(c, k)))
  {
    hide SeqOf, MatchCkpt, ParseRef, Atoi;
    var (slate, digits) := ParseRef(ref, defaultSlate);
    ByRefOrder();
    var q := Listed(d, slate);
    FirstNumberedIs(q, SeqOf(k));
    assert k in Listing(d, slate) && k in q;
    FirstNumberedFirst(q, SeqOf(k), k);
  }

  lemma FindsAlone(d: Disk, k: string, ref: string, defaultSlate: string)
    requires k in d.subvols && MatchCkpt(k).Some? && ref != ""
    requires ParseRef(ref, defaultSlate).0 == SlateOf(k) && Atoi(ParseRef(ref, defaultSlate).1) == Some(SeqOf(k))
    requires forall j | j in d.subvols && CkptOf(j, SlateOf(k)) && SeqOf(j) == SeqOf(k) :: j == k
    ensures Find(d, ref, defaultSlate) == Some(k)
  {
    MatchSound(k);
    var q := Listed(d, SlateOf(k));
    FirstNumberedIs(q, SeqOf(k));
    assert k in Listing(d, SlateOf(k));
    assert k in q;
  }

  // Looking up what is printed: a checkpoint whose number no other of its slate shares is found
  // from its reference and from its full name whatever the default slate, and from its bare
  // number when its slate is the default.
  lemma LookupInvertsPrinting(d: Disk, k: string, defaultSlate: string)
    requires k in d.subvols && MatchCkpt(k).Some?
    requires forall j | j in d.subvols && CkptOf(j, SlateOf(k)) && SeqOf(j) == SeqOf(k) :: j == k
    ensures Find(d, Ref(k), defaultSlate) == Some(k)
    ensures Find(d, k, defaultSlate) == Some(k)
    ensures Find(d, Pad(SeqOf(k), 1), SlateOf(k)) == Some(k)
  {
    var digits := Pad(SeqOf(k), 1);
    AtoiOfPad(SeqOf(k), 1);
    DigitsAreNoClass(digits);
    CutLastAt(SlateOf(k), '.', digits);
    NoCkptRef(SlateOf(k), digits);
    FindsAlone(d, k, Ref(k), defaultSlate);
    MatchSound(k);
    AtoiOfDigits(MatchCkpt(k).value.digits);
    FindsAlone(d, k, k, defaultSlate);
    NoDotNoMatch(digits);
    FindsAlone(d, k, digits, SlateOf(k));
  }

  // Every listed checkpoint is found from its printed reference exactly when no two listed ones
  // share a slate and a number.
  lemma LookupInvertsExactly(d: Disk, defaultSlate: string)
    ensures (forall k | k in Listing(d, "") :: Find(d, Ref(k), defaultSlate) == Some(k))
       <==> (forall j, k | j in Listing(d, "") && k in Listing(d, "") ::
               SlateOf(j) == SlateOf(k) && SeqOf(j) == SeqOf(k) ==> j == k)
  {
    hide Find, MatchCkpt;
    var all := Listing(d, "");
    if forall j, k | j in all && k in all :: SlateOf(j) == SlateOf(k) && SeqOf(j) == SeqOf(k) ==> j == k {
      forall k | k in all ensures Find(d, Ref(k), defaultSlate) == Some(k) {
        assert forall j | j in d.subvols && CkptOf(j, SlateOf(k)) :: j in all && SlateOf(j) == SlateOf(k);
        LookupInvertsPrinting(d, k, defaultSlate);
      }
    }
    if forall k | k in all :: Find(d, Ref(k), defaultSlate) == Some(k) {
      forall j, k | j in all && k in all && SlateOf(j) == SlateOf(k) && SeqOf(j) == SeqOf(k) ensures j == k {
        assert Ref(j) == Ref(k);
      }
    }
  }

  lemma AtoiOfDigits(s: string)
    requires s != "" && AllDigits(s)
    ensures Atoi(s) == Some(Value(s))
  {
    assert IsDigit(s[0]);
  }

  lemma DigitsAreNoClass(digits: string)
    requires AllDigits(digits)
    ensures !Class(digits) && '.' !in digits
  {
    assert AUTO[0] == 'a' && KEEP[0] == 'k';
    if digits != "" {
      assert IsDigit(digits[0]);
    }
  }

  lemma NoCkptRef(slate: string, digits: string)
    requires '.' !in digits && !Class(digits)
    ensures MatchCkpt(slate + "." + digits) == None
    ensures CutLast(slate + "." + digits, '.') == Some((slate, digits))
  {
    CutLastAt(slate, '.', digits);
    assert slate + "." + digits == slate + ['.'] + digits;
  }

  // In a sound store that is so for every checkpoint of a slate.
  lemma SlateCkptsAreFound(d: Disk, k: string, n: string, defaultSlate: string)
    requires Sound(d) && ValidName(n) && k in d.subvols && CkptOf(k, n)
    ensures Find(d, n + "." + Pad(SeqOf(k), 1), defaultSlate) == Some(k)
    ensures Find(d, k, defaultSlate) == Some(k)
    ensures Find(d, Pad(SeqOf(k), 1), n) == Some(k)
  {
    forall j | j in d.subvols && CkptOf(j, SlateOf(k)) && SeqOf(j) == SeqOf(k) ensures j == k {
      SameNumberSameCkpt(d, j, k, n);
    }
    LookupInvertsPrinting(d, k, defaultSlate);
  }

  // A workload's own subvolumes can look like checkpoints; two of them can print alike, so no
  // lookup finds both.
  lemma LookAlikesPrintAlike(n: string, j: string, k: string)
    requires ValidName(n)
    requires j == "@" + (n + "/x") + ".ckpt." + "1" + "." + AUTO
    requires k == "@" + (n + "/x") + ".ckpt." + "01" + "." + AUTO
    ensures j != k && MatchCkpt(j).Some? && MatchCkpt(k).Some? && Ref(j) == Ref(k)
    ensures forall d: Disk, defaultSlate :: Find(d, Ref(j), defaultSlate) == Some(j) ==>
              Find(d, Ref(k), defaultSlate) != Some(k)
  {
    ValidNameIsValidSubvol(n);
    var one, zeroOne := "1", "01";
    assert zeroOne[..1] == "0" && zeroOne[..1][..0] == "" && one[..0] == "";
    assert Value("0") == 0 && Value(one) == 1 && Value(zeroOne) == 1;
    assert |j| + 1 == |k|;
    MatchComplete(j, Match(n + "/x", one, AUTO));
    MatchComplete(k, Match(n + "/x", zeroOne, AUTO));
  }

  // The largest number listed, of one slate or of all when none is named.
  ghost function MaxListed(d: Disk, slate: string): nat { MaxOf(set k | k in Listing(d, slate) :: SeqOf(k)) }

  lemma MaxListedIs(d: Disk, slate: string)
    requires slate != ""
    ensures MaxListed(d, slate) == MaxSeq(d, slate)
  {
    hide SeqOf;
    assert Seqs(d, slate) == set k | k in Listing(d, slate) :: SeqOf(k);
  }

  // nextSeq: one above the largest number listed.
  method NextSeq(fs: FsRoot, slate: string) returns (s: nat)
    ensures s == MaxListed(fs.Now(), slate) + 1
    ensures slate != "" ==> s == MaxSeq(fs.Now(), slate) + 1
  {
    var all := ListCheckpoints(fs, slate);
    var max := 0;
    hide Listed, SeqOf, MaxIn, MaxSeq, MaxListed, MaxOf;
    MaxInEmpty();
    for i := 0 to |all|
      invariant max == MaxIn(all[..i])
    {
      MaxInNext(all, i);
      if SeqOf(all[i]) > max {
        max := SeqOf(all[i]);
      }
    }
    assert all[..|all|] == all;
    ListedMax(fs.Now(), slate);
    if slate != "" {
      MaxListedIs(fs.Now(), slate);
    }
    return max + 1;
  }

  // The largest number in a listing, 0 when it is empty.
  function MaxIn(q: seq<string>): nat
    decreases |q|
  {
    if q == [] then 0
    else
      var m, s := MaxIn(q[..|q| - 1]), SeqOf(q[|q| - 1]);
      if s > m then s else m
  }

  lemma MaxInEmpty()
    ensures MaxIn([]) == 0
  {
  }

  lemma MaxInNext(q: seq<string>, i: nat)
    requires i < |q|
    ensures MaxIn(q[..i + 1]) == if SeqOf(q[i]) > MaxIn(q[..i]) then SeqOf(q[i]) else MaxIn(q[..i])
  {
    hide SeqOf;
    assert q[..i + 1][..i] == q[..i] && q[..i + 1][i] == q[i];
  }

  lemma {:induction false} MaxInBounds(q: seq<string>)
    ensures forall k | k in q :: SeqOf(k) <= MaxIn(q)
    ensures MaxIn(q) == 0 || exists k | k in q :: SeqOf(k) == MaxIn(q)
    decreases |q|
  {
    hide SeqOf;
    if q != [] {
      var front, last := q[..|q| - 1], q[|q| - 1];
      assert q == front + [last];
      MaxInBounds(front);
      assert last in q;
    }
  }

  lemma ListedMax(d: Disk, slate: string)
    ensures MaxIn(Listed(d, slate)) == MaxListed(d, slate)
  {
    hide SeqOf;
    var all := Listed(d, slate);
    assert forall k :: k in all <==> k in Listing(d, slate);
    MaxInBounds(all);
    MaxIs(set k | k in Listing(d, slate) :: SeqOf(k), MaxIn(all));
  }

  lemma MaxIs(s: set<nat>, m: nat)
    requires forall x | x in s :: x <= m
    requires m == 0 || m in s
    ensures MaxOf(s) == m
  {
  }

  // next_seq of the hook.
  method NextSeqOfHook(fs: FsRoot, subvol: string) returns (s: nat)
    ensures s == HookNext(fs.Now(), subvol)
  {
    var names := fs.Names(fs.subvols.Keys);
    var last := 0;
    for i := 0 to |names|
      invariant forall j | 0 <= j < i && CkptGlob(names[j], subvol) && SedNumeral(names[j]) ::
                  SedNumber(names[j]) <= last
      invariant last == 0 || exists j | 0 <= j < i ::
                  CkptGlob(names[j], subvol) && SedNumeral(names[j]) && SedNumber(names[j]) == last
    {
      if CkptGlob(names[i], subvol) && SedNumeral(names[i]) && SedNumber(names[i]) > last {
        last := SedNumber(names[i]);
      }
    }
    assert forall k :: k in fs.subvols.Keys <==> k in Elements(names);
    MaxIs(HookNumbers(fs.Now(), subvol), last) by {
      forall x | x in HookNumbers(fs.Now(), subvol) ensures x <= last {
        var k :| k in fs.subvols && CkptGlob(k, subvol) && SedNumeral(k) && SedNumber(k) == x;
        assert k in names;
      }
      if last != 0 {
        var j :| 0 <= j < |names| && CkptGlob(names[j], subvol) && SedNumeral(names[j])
                 && SedNumber(names[j]) == last;
        assert names[j] in Elements(names);
      }
    }
    return last + 1;
  }
}
