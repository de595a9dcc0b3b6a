/** What a boot keeps, whatever fails and wherever it stops: other slates are untouched, kept
    checkpoints stay, the slate's work stays in it or in a kept checkpoint, numbers only grow. */
module HookSafety {
  import opened Text
  import opened Names
  import opened Config
  import opened Store
  import opened Sorting
  import opened Checkpoints
  import opened Pruning
  import opened Hook

  // -------------------------------------------------------------------------
  // The paths that belong to one slate
  // -------------------------------------------------------------------------

  // Its own tree and its checkpoints.
  predicate Family(k: string, n: string) { Top(k) == "@" + n || CkptOf(k, n) }

  predicate PlainName(n: string) { '/' !in n && '.' !in n }

  lemma ValidIsPlain(n: string)
    requires ValidName(n)
    ensures PlainName(n)
  {
    ValidNameIsValidSubvol(n);
    assert forall c | c in n :: c in "@" + n;
  }

  lemma CkptIsNotInTree(k: string, m: string, n: string)
    requires PlainName(m) && PlainName(n) && CkptOf(k, m)
    ensures Top(k) == k && Top(k) != "@" + n && !Within(k, "@" + n)
  {
    CkptIsTop(k, m);
    MatchHasDot(k);
    assert '.' !in "@" + n && '/' !in "@" + n;
    TopUnique(k, "@" + n);
  }

  // No path belongs to two slates.
  lemma FamiliesApart(k: string, m: string, n: string)
    requires PlainName(m) && PlainName(n) && m != n
    ensures !(Family(k, m) && Family(k, n))
  {
    if CkptOf(k, m) {
      CkptIsNotInTree(k, m, n);
    }
    if CkptOf(k, n) {
      CkptIsNotInTree(k, n, m);
    }
    assert ("@" + m)[1..] == m && ("@" + n)[1..] == n;
  }

  lemma SlateInFamily(n: string)
    requires PlainName(n)
    ensures Family("@" + n, n) && !CkptOf("@" + n, n)
    ensures forall k | !Family(k, n) :: !Within(k, "@" + n)
  {
    assert '/' !in "@" + n && '.' !in "@" + n;
    NoDotNoMatch("@" + n);
    forall k | !Family(k, n) ensures !Within(k, "@" + n) {
      TopUnique(k, "@" + n);
    }
  }

  // -------------------------------------------------------------------------
  // What every step keeps
  // -------------------------------------------------------------------------

  // Nothing outside the family of n differs.
  ghost predicate Only(d: Disk, x: Disk, n: string) {
    && (forall k | k in d.subvols && !Family(k, n) :: k in x.subvols && x.subvols[k] == d.subvols[k])
    && (forall k | k in x.subvols && !Family(k, n) :: k in d.subvols)
  }

  // Kept checkpoints of n are still there, unchanged.
  ghost predicate KeepsKept(d: Disk, x: Disk, n: string) {
    forall k | k in d.subvols && KeepCkptOf(k, n) :: k in x.subvols && x.subvols[k] == d.subvols[k]
  }

  // Some kept checkpoint of n holds these files.
  ghost predicate KeptIn(d: Disk, n: string, files: Files) {
    exists k :: k in d.subvols && KeepCkptOf(k, n) && d.subvols[k].files == files
  }

  // The files are on the slate or in one of its kept checkpoints.
  ghost predicate HasWork(d: Disk, n: string, files: Files) {
    ("@" + n in d.subvols && d.subvols["@" + n].files == files) || KeptIn(d, n, files)
  }

  ghost predicate KeepsWork(d: Disk, x: Disk, n: string) {
    "@" + n in d.subvols ==> HasWork(x, n, d.subvols["@" + n].files)
  }

  ghost predicate SameRest(d: Disk, x: Disk) {
    x.config == d.config && x.entries == d.entries && (x.staged == d.staged || x.staged == None)
  }

  // The largest number never falls and rises by at most j, and no number is given twice.
  ghost predicate Grows(d: Disk, x: Disk, n: string, j: nat) {
    && MaxSeq(d, n) <= MaxSeq(x, n) <= MaxSeq(d, n) + j
    && forall k | k in x.subvols && CkptOf(k, n) && SeqOf(k) <= MaxSeq(d, n) ::
         k in d.subvols && x.subvols[k] == d.subvols[k]
  }

  // A boot that prunes retains something, and j more numbers stay below 10000.
  ghost predicate Room(d: Disk, n: string, j: nat) {
    HookAutoOn(d.config) ==> HookRetain(d.config) >= 1 && MaxSeq(d, n) + j < 10000
  }

  ghost predicate Safe(d: Disk, x: Disk, n: string, j: nat) {
    && Sound(x) && SameRest(d, x) && Only(d, x, n) && KeepsKept(d, x, n) && KeepsWork(d, x, n)
    && (Room(d, n, j) ==> Grows(d, x, n, j))
  }

  ghost predicate AllSafe(d: Disk, trail: seq<Disk>, n: string, j: nat) {
    forall i | 0 <= i < |trail| :: Safe(d, trail[i], n, j)
  }

  lemma SafeSame(d: Disk, n: string, j: nat)
    requires Sound(d)
    ensures Safe(d, d, n, j)
  {
    forall k | k in d.subvols && CkptOf(k, n) && SeqOf(k) <= MaxSeq(d, n)
      ensures k in d.subvols && d.subvols[k] == d.subvols[k]
    {
    }
  }

  lemma KeepsWorkOver(d: Disk, y: Disk, x: Disk, n: string)
    requires KeepsWork(d, y, n) && KeepsWork(y, x, n) && KeepsKept(y, x, n)
    ensures KeepsWork(d, x, n)
  {
    if "@" + n in d.subvols {
      HasWorkOver(y, x, n, d.subvols["@" + n].files);
    }
  }

  lemma KeptInOver(y: Disk, x: Disk, n: string, files: Files)
    requires KeepsKept(y, x, n)
    ensures KeptIn(y, n, files) ==> KeptIn(x, n, files)
  {
    if KeptIn(y, n, files) {
      var k :| k in y.subvols && KeepCkptOf(k, n) && y.subvols[k].files == files;
      assert k in x.subvols && x.subvols[k] == y.subvols[k];
    }
  }

  lemma HasWorkOver(y: Disk, x: Disk, n: string, files: Files)
    requires KeepsWork(y, x, n) && KeepsKept(y, x, n)
    ensures HasWork(y, n, files) ==> HasWork(x, n, files)
  {
    KeptInOver(y, x, n, files);
  }

  lemma GrowsOver(d: Disk, y: Disk, x: Disk, n: string, i: nat, j: nat)
    requires Grows(d, y, n, i) && Grows(y, x, n, j)
    ensures Grows(d, x, n, i + j)
  {
    hide MaxSeq;
    forall k | k in x.subvols && CkptOf(k, n) && SeqOf(k) <= MaxSeq(d, n)
      ensures k in d.subvols && x.subvols[k] == d.subvols[k]
    {
      assert k in y.subvols;
    }
  }

  lemma OnlyOver(d: Disk, y: Disk, x: Disk, n: string)
    ensures Only(d, y, n) && Only(y, x, n) ==> Only(d, x, n)
    ensures KeepsKept(d, y, n) && KeepsKept(y, x, n) ==> KeepsKept(d, x, n)
  {
  }

  lemma SafeOver(d: Disk, y: Disk, x: Disk, n: string, i: nat, j: nat)
    requires Safe(d, y, n, i) && Safe(y, x, n, j)
    ensures Safe(d, x, n, i + j)
  {
    hide Sound, KeepsWork, Grows, MaxSeq, Only, KeepsKept;
    KeepsWorkOver(d, y, x, n);
    OnlyOver(d, y, x, n);
    if Room(d, n, i + j) {
      GrowsRoom(d, y, n, i, j);
      GrowsOver(d, y, x, n, i, j);
    }
  }

  lemma GrowsRoom(d: Disk, y: Disk, n: string, i: nat, j: nat)
    requires Room(d, n, i + j) && y.config == d.config
    requires Room(d, n, i) ==> Grows(d, y, n, i)
    ensures Grows(d, y, n, i) && Room(y, n, j)
  {
  }

  lemma SafeMore(d: Disk, x: Disk, n: string, i: nat, j: nat)
    requires Safe(d, x, n, i) && i <= j
    ensures Safe(d, x, n, j)
  {
    hide Sound, KeepsWork, MaxSeq;
  }

  lemma EndSafe(d: Disk, a: seq<Disk>, n: string, j: nat)
    requires Sound(d) && AllSafe(d, a, n, j)
    ensures Safe(d, End(d, a), n, j)
  {
    hide Safe;
    SafeSame(d, n, j);
  }

  lemma SafeConcat(d: Disk, a: seq<Disk>, b: seq<Disk>, n: string, i: nat, j: nat)
    requires Sound(d) && AllSafe(d, a, n, i) && AllSafe(End(d, a), b, n, j)
    ensures AllSafe(d, a + b, n, i + j)
  {
    hide Safe;
    EndSafe(d, a, n, i);
    forall k | 0 <= k < |a + b| ensures Safe(d, (a + b)[k], n, i + j) {
      if k < |a| {
        SafeMore(d, a[k], n, i, i + j);
      } else {
        SafeOver(d, End(d, a), b[k - |a|], n, i, j);
      }
    }
  }

  // -------------------------------------------------------------------------
  // The single steps
  // -------------------------------------------------------------------------

  // The same checkpoints of n, so the same numbers.
  lemma SameCkpts(d: Disk, x: Disk, n: string, j: nat)
    requires forall k | CkptOf(k, n) :: (k in d.subvols <==> k in x.subvols)
                                        && (k in d.subvols ==> x.subvols[k] == d.subvols[k])
    ensures Grows(d, x, n, j) && KeepsKept(d, x, n)
  {
    assert Seqs(d, n) == Seqs(x, n);
  }

  lemma UnlinkSafe(d: Disk, n: string, fault: bool)
    requires Sound(d)
    ensures AllSafe(d, UnlinkTrail(d, fault), n, 0)
  {
    var x := d.(staged := None);
    SameCkpts(d, x, n, 0);
    SoundSubset(d, x);
  }

  lemma SlateIsPath(n: string)
    requires ValidName(n)
    ensures StorePath("@" + n) && !CkptPath("@" + n) && '.' !in "@" + n
  {
    ValidNameIsValidSubvol(n);
    NoDotNoMatch("@" + n);
    assert ("@" + n)[1..] == n;
  }

  lemma SlateAddedSound(d: Disk, n: string, s: Subvol)
    requires Sound(d) && ValidName(n)
    ensures Sound(d.(subvols := d.subvols["@" + n := s]))
  {
    hide CkptName;
    var x := d.(subvols := d.subvols["@" + n := s]);
    SlateIsPath(n);
    forall k | k in x.subvols ensures StorePath(k) && (CkptPath(k) ==> x.subvols[k].ro) {
      assert k != "@" + n ==> k in d.subvols && StorePath(k);
    }
    forall m, q | ValidName(m) ensures !(CkptName(m, q, AUTO) in x.subvols && CkptName(m, q, KEEP) in x.subvols) {
      CkptNameHasDot(m, q, AUTO);
      CkptNameHasDot(m, q, KEEP);
      assert !(CkptName(m, q, AUTO) in d.subvols && CkptName(m, q, KEEP) in d.subvols);
    }
  }

  lemma CkptNameHasDot(n: string, s: nat, c: string)
    ensures '.' in CkptName(n, s, c)
  {
    assert CkptName(n, s, c)[|n| + 1] == '.';
  }

  // A slate that is missing is made.
  lemma MakeSafe(d: Disk, src: string, n: string)
    requires Sound(d) && ValidName(n) && CanSnap(d, src, "@" + n)
    ensures Safe(d, Snap(d, src, "@" + n, false), n, 0)
  {
    hide Sound, MaxSeq, MatchCkpt;
    ValidIsPlain(n);
    SlateAddedSound(d, n, Subvol(d.subvols[src].files, false));
    SlateInFamily(n);
    SameCkpts(d, Snap(d, src, "@" + n, false), n, 0);
  }

  lemma CkptAddedSound(d: Disk, n: string, c: string, s: Subvol)
    requires Sound(d) && ValidName(n) && Class(c) && s.ro
    ensures Sound(d.(subvols := d.subvols[CkptName(n, MaxSeq(d, n) + 1, c) := s]))
  {
    hide MaxSeq, CkptName, StorePath, Unique, CkptPath;
    var m := MaxSeq(d, n) + 1;
    CkptPathOf(n, m, c);
    NextIsFree(d, n);
    StaysUnique(d, d.(subvols := d.subvols[CkptName(n, m, c) := s]), n, m, c);
  }

  lemma NextIsFree(d: Disk, n: string)
    requires Sound(d) && ValidName(n)
    ensures CkptName(n, MaxSeq(d, n) + 1, AUTO) !in d.subvols && CkptName(n, MaxSeq(d, n) + 1, KEEP) !in d.subvols
    ensures HookCkpt("@" + n, HookNext(d, "@" + n), AUTO) == CkptName(n, MaxSeq(d, n) + 1, AUTO)
    ensures HookCkpt("@" + n, HookNext(d, "@" + n), KEEP) == CkptName(n, MaxSeq(d, n) + 1, KEEP)
  {
    hide Sound, MaxSeq, HookNext;
    NextNumbersAgree(d, n);
    assert Class(AUTO) && Class(KEEP);
  }

  lemma StaysUnique(d: Disk, x: Disk, n: string, m: nat, c: string)
    requires Unique(d) && ValidName(n) && Class(c)
    requires x.subvols.Keys == d.subvols.Keys + {CkptName(n, m, c)}
    requires CkptName(n, m, AUTO) !in d.subvols && CkptName(n, m, KEEP) !in d.subvols
    ensures Unique(x)
  {
    hide CkptName;
    forall n', q | ValidName(n') ensures !(CkptName(n', q, AUTO) in x.subvols && CkptName(n', q, KEEP) in x.subvols) {
      PairStaysUnique(d, x, n, m, c, n', q);
    }
  }

  lemma PairStaysUnique(d: Disk, x: Disk, n: string, m: nat, c: string, n': string, q: nat)
    requires Unique(d) && ValidName(n) && ValidName(n') && Class(c)
    requires x.subvols.Keys == d.subvols.Keys + {CkptName(n, m, c)}
    requires CkptName(n, m, AUTO) !in d.subvols && CkptName(n, m, KEEP) !in d.subvols
    ensures !(CkptName(n', q, AUTO) in x.subvols && CkptName(n', q, KEEP) in x.subvols)
  {
    hide CkptName, ValidName;
    assert !(CkptName(n', q, AUTO) in d.subvols && CkptName(n', q, KEEP) in d.subvols);
    if CkptName(n', q, AUTO) == CkptName(n, m, c) {
      SameCkptName(n', q, n, m, AUTO, c);
      ClassesApart(n, m);
    } else if CkptName(n', q, KEEP) == CkptName(n, m, c) {
      SameCkptName(n', q, n, m, KEEP, c);
      ClassesApart(n, m);
    }
  }

  lemma ClassesApart(n: string, m: nat)
    requires ValidName(n)
    ensures CkptName(n, m, AUTO) != CkptName(n, m, KEEP)
  {
    NameRoundTrip(n, m, AUTO);
    NameRoundTrip(n, m, KEEP);
    assert AUTO[0] != KEEP[0];
  }

  lemma SameCkptName(n': string, q: nat, n: string, m: nat, c': string, c: string)
    requires ValidName(n) && ValidName(n') && Class(c) && Class(c') && CkptName(n', q, c') == CkptName(n, m, c)
    ensures n' == n && q == m && c' == c
  {
    NameRoundTrip(n, m, c);
    NameRoundTrip(n', q, c');
  }

  // A checkpoint with the next number is made.
  lemma CkptSafe(d: Disk, src: string, n: string, c: string)
    requires Sound(d) && ValidName(n) && Class(c)
    requires CanSnap(d, src, CkptName(n, MaxSeq(d, n) + 1, c))
    ensures Safe(d, Snap(d, src, CkptName(n, MaxSeq(d, n) + 1, c), true), n, 1)
  {
    hide Sound, MaxSeq, MatchCkpt, CkptName, StorePath;
    var m := MaxSeq(d, n) + 1;
    var k := CkptName(n, m, c);
    CkptPathOf(n, m, c);
    CkptAddedSound(d, n, c, Subvol(d.subvols[src].files, true));
    CkptAddedGrows(d, n, k, Subvol(d.subvols[src].files, true));
  }

  lemma CkptAddedGrows(d: Disk, n: string, k: string, s: Subvol)
    requires k !in d.subvols && CkptOf(k, n) && SeqOf(k) == MaxSeq(d, n) + 1
    ensures Grows(d, d.(subvols := d.subvols[k := s]), n, 1)
  {
    hide SeqOf, MatchCkpt;
    var x := d.(subvols := d.subvols[k := s]);
    assert Seqs(x, n) == Seqs(d, n) + {SeqOf(k)};
    MaxIs(Seqs(x, n), SeqOf(k));
  }

  // The slate is deleted once its files are kept.
  lemma DeleteSafe(d: Disk, n: string, f: DeleteFaults)
    requires Sound(d) && ValidName(n) && "@" + n in d.subvols && KeptIn(d, n, d.subvols["@" + n].files)
    ensures AllSafe(d, HookDelete(d, "@" + n, f), n, 0)
  {
    hide Safe, HookDelete;
    DeleteShrinks(d, "@" + n, f);
    var t := HookDelete(d, "@" + n, f);
    forall i | 0 <= i < |t| ensures Safe(d, t[i], n, 0) {
      ShrunkSafe(d, t[i], n);
    }
  }

  lemma ShrunkSafe(d: Disk, x: Disk, n: string)
    requires Sound(d) && ValidName(n) && "@" + n in d.subvols && KeptIn(d, n, d.subvols["@" + n].files)
    requires Shrunk(d, x, "@" + n)
    ensures Safe(d, x, n, 0)
  {
    hide Sound, Room, Grows, MatchCkpt;
    ValidIsPlain(n);
    SoundSubset(d, x);
    SlateInFamily(n);
    forall k | CkptOf(k, n) ensures !Within(k, "@" + n) {
      CkptIsNotInTree(k, n, n);
    }
    SameCkpts(d, x, n, 0);
    KeptInOver(d, x, n, d.subvols["@" + n].files);
  }

  // -------------------------------------------------------------------------
  // The parts of a boot
  // -------------------------------------------------------------------------

  lemma EnsureSafe(d: Disk, n: string, f: HookFaults)
    requires Sound(d) && ValidName(n)
    ensures AllSafe(d, EnsureRun(d, "@" + n, f).trail, n, 0)
  {
    hide Safe, Sound;
    if "@" + n !in d.subvols && CanSnap(d, BASELINE, "@" + n) {
      MakeSafe(d, BASELINE, n);
    }
  }

  lemma ReplaceSafe(d: Disk, n: string, source: string, f: HookFaults)
    requires Sound(d) && ValidName(n) && "@" + n in d.subvols && KeptIn(d, n, d.subvols["@" + n].files)
    ensures AllSafe(d, ReplaceRun(d, "@" + n, source, f).trail, n, 0)
  {
    hide Safe, Sound, HookDelete, KeptIn;
    var a := HookDelete(d, "@" + n, f.deletes);
    DeleteSafe(d, n, f.deletes);
    EndSafe(d, a, n, 0);
    SafeIsSound(d, End(d, a), n, 0);
    if CanSnap(End(d, a), source, "@" + n) {
      MakeSafe(End(d, a), source, n);
    }
    SafeConcat(d, a, SnapTrail(End(d, a), source, "@" + n, false, f.recreate), n, 0, 0);
  }

  lemma SafeIsSound(d: Disk, x: Disk, n: string, j: nat)
    requires Safe(d, x, n, j)
    ensures Sound(x)
  {
  }

  lemma AllSafeMore(d: Disk, a: seq<Disk>, n: string, i: nat, j: nat)
    requires AllSafe(d, a, n, i) && i <= j
    ensures AllSafe(d, a, n, j)
  {
    hide Safe;
    forall k | 0 <= k < |a| ensures Safe(d, a[k], n, j) {
      SafeMore(d, a[k], n, i, j);
    }
  }

  // How many numbers the parts of a boot take.
  function ApplyTaken(d: Disk, t: string, f: HookFaults): nat {
    if Applies(d, t) && !f.keep then 1 else 0
  }

  function AutoTaken(f: HookFaults): nat { if f.auto then 0 else 1 }

  function PreparedTaken(d: Disk, n: string, f: HookFaults): (j: nat)
    ensures j <= 1
  {
    ApplyTaken(End(d, EnsureRun(d, "@" + n, f).trail), "@" + n, f)
  }

  function Taken(d: Disk, n: string, f: HookFaults): nat {
    PreparedTaken(d, n, f) + if HookAutoOn(d.config) then AutoTaken(f) else 0
  }

  lemma KeepAndReplaceSafe(d: Disk, n: string, source: string, f: HookFaults)
    requires Sound(d) && ValidName(n) && "@" + n in d.subvols
    ensures AllSafe(d, KeepAndReplace(d, "@" + n, source, f).trail, n, if f.keep then 0 else 1)
  {
    hide Safe, Sound, ReplaceRun, HookCkpt, HookNext, MaxSeq, KeptIn, CkptName;
    NextIsFree(d, n);
    var t, k := "@" + n, PreName(d, "@" + n);
    if f.keep || !CanSnap(d, t, k) {
      UnlinkSafe(d, n, f.unlink);
      AllSafeMore(d, UnlinkTrail(d, f.unlink), n, 0, if f.keep then 0 else 1);
    } else {
      var d1 := Snap(d, t, k, true);
      CkptSafe(d, t, n, KEEP);
      SafeIsSound(d, d1, n, 1);
      UnlinkSafe(d1, n, f.unlink);
      var u := UnlinkTrail(d1, f.unlink);
      SafeConcat(d, [d1], u, n, 1, 0);
      var d2 := End(d1, u);
      EndSafe(d1, u, n, 0);
      SafeIsSound(d1, d2, n, 0);
      JustKept(d, d2, n);
      ReplaceSafe(d2, n, source, f);
      assert End(d, [d1] + u) == d2;
      SafeConcat(d, [d1] + u, ReplaceRun(d2, t, source, f).trail, n, 1, 0);
    }
  }

  // After the first step the slate's files are in a kept checkpoint.
  lemma JustKept(d: Disk, x: Disk, n: string)
    requires Sound(d) && ValidName(n) && CanSnap(d, "@" + n, PreName(d, "@" + n))
    requires x.subvols == Snap(d, "@" + n, PreName(d, "@" + n), true).subvols
    ensures "@" + n in x.subvols && KeptIn(x, n, x.subvols["@" + n].files)
  {
    hide Sound, HookNext, MaxSeq, CkptName, MatchCkpt;
    NextIsFree(d, n);
    var k := PreName(d, "@" + n);
    CkptPathOf(n, MaxSeq(d, n) + 1, KEEP);
    assert k in x.subvols && KeepCkptOf(k, n) && x.subvols[k].files == x.subvols["@" + n].files;
  }

  lemma ApplySafe(d: Disk, n: string, f: HookFaults)
    requires Sound(d) && ValidName(n) && "@" + n in d.subvols
    ensures AllSafe(d, ApplyRun(d, "@" + n, f).trail, n, ApplyTaken(d, "@" + n, f))
  {
    hide Safe, Sound, KeepAndReplace, Applies, StagedSlate, StagedSource;
    KeepAndReplaceSafe(d, n, StagedSource(d), f);
    UnlinkSafe(d, n, f.unlink);
  }

  lemma PreparedSafe(d: Disk, n: string, f: HookFaults)
    requires Sound(d) && ValidName(n)
    ensures AllSafe(d, PreparedRun(d, "@" + n, f).trail, n, PreparedTaken(d, n, f))
  {
    hide Safe, Sound, ApplyRun, ApplyTaken;
    var e := EnsureRun(d, "@" + n, f);
    EnsureSafe(d, n, f);
    EndSafe(d, e.trail, n, 0);
    SafeIsSound(d, End(d, e.trail), n, 0);
    if e.panic {
      AllSafeMore(d, e.trail, n, 0, PreparedTaken(d, n, f));
    } else {
      ApplySafe(End(d, e.trail), n, f);
      SafeConcat(d, e.trail, ApplyRun(End(d, e.trail), "@" + n, f).trail, n, 0, PreparedTaken(d, n, f));
    }
  }

  lemma AutoSafe(d: Disk, n: string, f: HookFaults)
    requires Sound(d) && ValidName(n)
    ensures AllSafe(d, AutoTrail(d, "@" + n, f), n, AutoTaken(f))
  {
    hide Safe, Sound, HookCkpt, HookNext, MaxSeq, CkptName;
    NextIsFree(d, n);
    if CanSnap(d, "@" + n, AutoName(d, "@" + n)) {
      CkptSafe(d, "@" + n, n, AUTO);
    }
  }

  // Pruning leaves the newest checkpoint.
  lemma PrunedKeepsMax(d: Disk, x: Disk, n: string)
    requires Sound(d) && ValidName(n) && HookRetain(d.config) >= 1 && MaxSeq(d, n) < 10000
    requires Pruned(d, x, HookDrop(d, "@" + n, HookRetain(d.config)))
    ensures Grows(d, x, n, 0)
  {
    hide HookDrop, Sound, MatchCkpt, HookRetain;
    var m := MaxSeq(d, n);
    forall s | s in Seqs(x, n) ensures s <= m {
      var k :| k in x.subvols && CkptOf(k, n) && SeqOf(k) == s;
      SeqAtMostMax(d, n, k);
    }
    if m > 0 {
      assert m in Seqs(d, n);
      var k :| k in d.subvols && CkptOf(k, n) && SeqOf(k) == m;
      NewestNotDropped(d, n, k);
      assert k in x.subvols;
    }
    MaxIs(Seqs(x, n), m);
  }

  lemma NewestNotDropped(d: Disk, n: string, k: string)
    requires Sound(d) && ValidName(n) && HookRetain(d.config) >= 1 && MaxSeq(d, n) < 10000
    requires k in d.subvols && CkptOf(k, n) && SeqOf(k) == MaxSeq(d, n)
    ensures k !in HookDrop(d, "@" + n, HookRetain(d.config))
  {
    hide HookDrop, Sound, MatchCkpt, SeqOf, MaxSeq;
    var drop := HookDrop(d, "@" + n, HookRetain(d.config));
    forall j | j in d.subvols && CkptOf(j, n) ensures SeqOf(j) <= MaxSeq(d, n) {
      SeqAtMostMax(d, n, j);
    }
    NewestSurvive(d, n, HookRetain(d.config));
    DropIsAuto(d, n, HookRetain(d.config));
    var survivors := GoAutos(d, n) - Elements(drop);
    if survivors == {} {
      assert |survivors| == 0;
      assert GoAutos(d, n) == {};
      assert forall x | x in drop :: x in GoAutos(d, n);
    } else {
      var y :| y in survivors;
      assert forall x | x in drop :: SeqOf(x) < SeqOf(y);
    }
  }

  lemma PruneAllSafe(d: Disk, n: string, f: DeleteFaults)
    requires Sound(d) && ValidName(n) && HookAutoOn(d.config)
    ensures AllSafe(d, PruneTrail(d, "@" + n, f), n, 0)
  {
    hide Safe, Sound, PruneTrail, HookDrop, HookAutoOn;
    PruneSafe(d, n, f);
    var t := PruneTrail(d, "@" + n, f);
    forall i | 0 <= i < |t| ensures Safe(d, t[i], n, 0) {
      PrunedIsSafe(d, t[i], n);
    }
  }

  lemma PrunedIsSafe(d: Disk, x: Disk, n: string)
    requires Sound(d) && ValidName(n) && Pruned(d, x, HookDrop(d, "@" + n, HookRetain(d.config)))
    requires HookAutoOn(d.config)
    ensures Safe(d, x, n, 0)
  {
    hide HookDrop, Sound, MaxSeq, HookRetain, MatchCkpt, Grows, HookAutoOn;
    ValidIsPlain(n);
    SoundSubset(d, x);
    DropIsAuto(d, n, HookRetain(d.config));
    SlateInFamily(n);
    assert AUTO[0] != KEEP[0];
    if Room(d, n, 0) {
      PrunedKeepsMax(d, x, n);
    }
  }

  lemma CheckpointTrailSafe(d: Disk, n: string, f: HookFaults)
    requires Sound(d) && ValidName(n)
    ensures AllSafe(d, CheckpointTrail(d, "@" + n, f), n, if HookAutoOn(d.config) then AutoTaken(f) else 0)
  {
    hide Safe, Sound, PruneTrail, AutoTrail, HookAutoOn, AutoTaken;
    var c, j := AutoTrail(d, "@" + n, f), AutoTaken(f);
    if HookAutoOn(d.config) {
      AutoSafe(d, n, f);
      EndSafe(d, c, n, j);
      SafeIsSound(d, End(d, c), n, j);
      SafeIsSame(d, End(d, c), n, j);
      PruneAllSafe(End(d, c), n, f.deletes);
      SafeConcat(d, c, PruneTrail(End(d, c), "@" + n, f.deletes), n, j, 0);
    }
  }

  lemma SafeIsSame(d: Disk, x: Disk, n: string, j: nat)
    requires Safe(d, x, n, j)
    ensures x.config == d.config
  {
  }

  // Every state a boot of a slate passes through, whatever fails, is safe.
  lemma PersistentSafe(d: Disk, n: string, f: HookFaults)
    requires Sound(d) && ValidName(n)
    ensures AllSafe(d, PersistentRun(d, "@" + n, f).trail, n, Taken(d, n, f))
  {
    hide Safe, Sound, PreparedRun, CheckpointTrail, ValidSubvol, PreparedTaken, AutoTaken, HookAutoOn;
    var p, i := PreparedRun(d, "@" + n, f), PreparedTaken(d, n, f);
    PreparedSafe(d, n, f);
    EndSafe(d, p.trail, n, i);
    SafeIsSound(d, End(d, p.trail), n, i);
    SafeIsSame(d, End(d, p.trail), n, i);
    CheckpointTrailSafe(End(d, p.trail), n, f);
    SafeConcat(d, p.trail, CheckpointTrail(End(d, p.trail), "@" + n, f), n, i, Taken(d, n, f) - i);
    AllSafeMore(d, p.trail, n, i, Taken(d, n, f));
  }

  // -------------------------------------------------------------------------
  // A scratch boot
  // -------------------------------------------------------------------------

  // Only the scratch root and what is nested in it differ.
  ghost predicate ScratchOnly(d: Disk, x: Disk) {
    && Sound(x) && x.staged == d.staged && x.config == d.config && x.entries == d.entries
    && (forall k | k in d.subvols && !Within(k, RUNTIME) :: k in x.subvols && x.subvols[k] == d.subvols[k])
    && (forall k | k in x.subvols && !Within(k, RUNTIME) :: k in d.subvols)
  }

  lemma RuntimeIsPath()
    ensures StorePath(RUNTIME) && !CkptPath(RUNTIME)
  {
    assert '.' !in RUNTIME && '/' !in RUNTIME;
    NoDotNoMatch(RUNTIME);
  }

  lemma RuntimeAddedSound(d: Disk, s: Subvol)
    requires Sound(d)
    ensures Sound(d.(subvols := d.subvols[RUNTIME := s]))
  {
    hide CkptName;
    var x := d.(subvols := d.subvols[RUNTIME := s]);
    assert '.' !in RUNTIME && '/' !in RUNTIME;
    NoDotNoMatch(RUNTIME);
    RuntimeIsPath();
    hide StorePath, CkptPath;
    forall k | k in x.subvols ensures StorePath(k) && (CkptPath(k) ==> x.subvols[k].ro) {
      if k != RUNTIME {
        assert k in d.subvols && StorePath(k);
      }
    }
    forall m, q | ValidName(m) ensures !(CkptName(m, q, AUTO) in x.subvols && CkptName(m, q, KEEP) in x.subvols) {
      CkptNameHasDot(m, q, AUTO);
      CkptNameHasDot(m, q, KEEP);
      assert !(CkptName(m, q, AUTO) in d.subvols && CkptName(m, q, KEEP) in d.subvols);
    }
  }

  lemma ShrunkScratch(d: Disk, x: Disk)
    requires Sound(d) && Shrunk(d, x, RUNTIME)
    ensures ScratchOnly(d, x)
  {
    hide Sound;
    SoundSubset(d, x);
  }

  lemma ScratchRunOnly(d: Disk, basis: string, f: HookFaults)
    requires Sound(d)
    ensures forall i | 0 <= i < |ScratchRun(d, basis, f).trail| :: ScratchOnly(d, ScratchRun(d, basis, f).trail[i])
  {
    hide Sound, HookDelete, ScratchBasis;
    var a := if RUNTIME in d.subvols then HookDelete(d, RUNTIME, f.deletes) else [];
    if RUNTIME in d.subvols {
      DeleteShrinks(d, RUNTIME, f.deletes);
      forall i | 0 <= i < |a| ensures ScratchOnly(d, a[i]) {
        ShrunkScratch(d, a[i]);
      }
    }
    var d1, b := End(d, a), ScratchBasis(d, basis);
    if CanSnap(d1, b, RUNTIME) {
      RuntimeAddedSound(d1, Subvol(d1.subvols[b].files, false));
    }
  }
}
