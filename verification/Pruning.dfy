/** Pruning automatic checkpoints: the hook sorts names as text, Go sorts by number. */
module Pruning {
  import opened Text
  import opened Decimal
  import opened Names
  import opened Sorting
  import opened Store
  import opened Checkpoints
  import opened Config

  // All but the last `keep` of a list: head -n $((_count - _keep)).
  function AllBut(q: seq<string>, keep: nat): seq<string> {
    if |q| <= keep then [] else q[..|q| - keep]
  }

  // ls -d "$mnt/$1".ckpt.*.auto
  function HookAutos(d: Disk, subvol: string): set<string> {
    set k | k in d.subvols && AutoGlob(k, subvol)
  }

  ghost function HookDrop(d: Disk, subvol: string, keep: nat): seq<string> {
    AllBut(TextSorted(HookAutos(d, subvol)), keep)
  }

  // The automatic checkpoints Go lists: of one slate, or of all when none is named.
  function GoAutos(d: Disk, slate: string): set<string> {
    set k | k in d.subvols && Wanted(k, slate) && MatchCkpt(k).value.class_ == AUTO
  }

  ghost function GoDrop(d: Disk, slate: string, keep: nat): seq<string> {
    ByRefOrder();
    AllBut(Sorted(GoAutos(d, slate), ByRef), keep)
  }

  // -------------------------------------------------------------------------
  // Text order against number order
  // -------------------------------------------------------------------------

  lemma CkptNameShape(n: string, s: nat, c: string)
    ensures CkptName(n, s, c) == ("@" + n + ".ckpt.") + (Pad(s, 4) + "." + c)
  {
  }

  // For two numbers of one slate the names sort as the numbers do exactly when the smaller is at
  // most the larger cut to its length.
  lemma TextAgainstNumber(n: string, a: nat, b: nat, c: string, c': string)
    requires a < b
    ensures |Pad(a, 4)| <= |Pad(b, 4)|
    ensures Before(CkptName(n, a, c), CkptName(n, b, c'))
       <==> a <= b / Pow10(|Pad(b, 4)| - |Pad(a, 4)|)
  {
    PadLengthMonotone(a, b, 4);
    CkptNameShape(n, a, c);
    CkptNameShape(n, b, c');
    BeforeFront("@" + n + ".ckpt.", Pad(a, 4) + "." + c, Pad(b, 4) + "." + c');
    DottedOrder(a, b, c, c');
  }

  lemma FourDigits(a: nat)
    requires a < 10000
    ensures |Pad(a, 4)| == 4
  {
    assert Pow10(1) == 10 && Pow10(2) == 100 && Pow10(3) == 1000 && Pow10(4) == 10000;
    PadLength(a, 4, 4);
  }

  // Below 10000 they agree; the next number breaks it.
  lemma TextIsNumberBelow10000(n: string, a: nat, b: nat, c: string, c': string)
    requires a < b < 10000
    ensures Before(CkptName(n, a, c), CkptName(n, b, c'))
  {
    FourDigits(a);
    FourDigits(b);
    TextAgainstNumber(n, a, b, c, c');
  }

  lemma TextBreaksAt10000(n: string, c: string)
    ensures !Before(CkptName(n, 9999, c), CkptName(n, 10000, c))
  {
    FourDigits(9999);
    FiveDigits();
    assert Pow10(1) == 10 * Pow10(0);
    TextAgainstNumber(n, 9999, 10000, c, c);
  }

  lemma FiveDigits()
    ensures |Pad(10000, 4)| == 5
  {
    assert Pow10(1) == 10 && Pow10(2) == 100 && Pow10(3) == 1000 && Pow10(4) == 10000;
    assert Pow10(5) == 100000;
    PadLength(10000, 4, 5);
    ValueOfPad(10000, 4);
    ValueBelow(Pad(10000, 4));
  }

  ghost predicate Below10000(d: Disk, n: string) {
    forall k | k in d.subvols && CkptOf(k, n) :: SeqOf(k) < 10000
  }

  lemma AutosAgree(d: Disk, n: string)
    requires Sound(d) && ValidName(n)
    ensures HookAutos(d, "@" + n) == GoAutos(d, n)
  {
    ValidNameIsValidSubvol(n);
    forall k | k in d.subvols ensures AutoGlob(k, "@" + n) <==> AutoCkptOf(k, n) {
      GlobIsListing(k, n);
      if CkptOf(k, n) {
        CkptIsTop(k, n);
      }
    }
  }

  // The larger number cut to the length of the smaller one's text.
  function CutTo(b: nat, a: nat): nat {
    if |Pad(a, 4)| <= |Pad(b, 4)| then b / Pow10(|Pad(b, 4)| - |Pad(a, 4)|) else 0
  }

  // On every two automatic checkpoints the smaller number is at most the larger cut to its length.
  ghost predicate NumbersFit(d: Disk, n: string) {
    forall j, k | j in GoAutos(d, n) && k in GoAutos(d, n) && SeqOf(j) < SeqOf(k) ::
      SeqOf(j) <= CutTo(SeqOf(k), SeqOf(j))
  }

  lemma PairAgrees(d: Disk, n: string, j: string, k: string)
    requires Sound(d) && ValidName(n) && j in d.subvols && k in d.subvols
    requires CkptOf(j, n) && CkptOf(k, n) && SeqOf(j) < SeqOf(k)
    ensures Before(j, k) <==> SeqOf(j) <= CutTo(SeqOf(k), SeqOf(j))
    ensures ByRef(j, k)
  {
    hide Sound, CkptName, CutTo, Before, MatchCkpt, SeqOf;
    CkptIsCanonical(d, j, n);
    CkptIsCanonical(d, k, n);
    NamesByNumber(n, SeqOf(j), SeqOf(k), MatchCkpt(j).value.class_, MatchCkpt(k).value.class_);
    LaterByRef(j, k, n);
  }

  lemma NamesByNumber(n: string, a: nat, b: nat, c: string, c': string)
    requires a < b
    ensures Before(CkptName(n, a, c), CkptName(n, b, c')) <==> a <= CutTo(b, a)
  {
    hide Before, CkptName, Pad, Pow10;
    TextAgainstNumber(n, a, b, c, c');
  }

  lemma FitOrdersAgree(d: Disk, n: string, j: string, k: string)
    requires Sound(d) && ValidName(n) && NumbersFit(d, n)
    requires j in GoAutos(d, n) && k in GoAutos(d, n) && Before(j, k)
    ensures ByRef(j, k)
  {
    hide Sound, MatchCkpt, CutTo, Before, SeqOf, ByRef;
    ValidNotEmpty(n);
    TextOrder();
    assert !Before(k, j);
    if SeqOf(j) < SeqOf(k) {
      PairAgrees(d, n, j, k);
    } else if SeqOf(k) < SeqOf(j) {
      PairAgrees(d, n, k, j);
    } else {
      SameNumberSameCkpt(d, j, k, n);
    }
  }

  lemma FitDropsAgree(d: Disk, n: string, keep: nat)
    requires Sound(d) && ValidName(n) && NumbersFit(d, n)
    ensures HookDrop(d, "@" + n, keep) == GoDrop(d, n, keep)
  {
    hide Sound, GoAutos, HookAutos, NumbersFit, Before, ByRef;
    AutosAgree(d, n);
    TextOrder();
    ByRefOrder();
    forall a, b | a in GoAutos(d, n) && b in GoAutos(d, n) ensures Before(a, b) ==> ByRef(a, b) {
      if Before(a, b) {
        FitOrdersAgree(d, n, a, b);
      }
    }
    SortedAgree(GoAutos(d, n), Before, ByRef);
  }

  lemma AllButNone(q: seq<string>)
    ensures AllBut(q, 0) == q
  {
  }

  // The same list ordered both ways orders its members both ways.
  lemma BothOrders(q: seq<string>, j: string, k: string)
    requires Ordered(q, Before) && Ordered(q, ByRef) && j in q && k in q && ByRef(j, k)
    ensures Before(j, k)
  {
    hide Before, ByRef;
    ByRefOrder();
    var a :| 0 <= a < |q| && q[a] == j;
    var b :| 0 <= b < |q| && q[b] == k;
    assert !ByRef(k, j) && !ByRef(j, j);
    assert a < b;
  }

  lemma AgreeingFits(d: Disk, n: string)
    requires Sound(d) && ValidName(n) && HookDrop(d, "@" + n, 0) == GoDrop(d, n, 0)
    ensures NumbersFit(d, n)
  {
    hide Sound, MatchCkpt, CutTo, Before, SeqOf, ByRef, HookAutos;
    ValidNotEmpty(n);
    AutosAgree(d, n);
    TextOrder();
    ByRefOrder();
    var q := Sorted(GoAutos(d, n), ByRef);
    AllButNone(q);
    AllButNone(TextSorted(HookAutos(d, "@" + n)));
    forall j, k | j in GoAutos(d, n) && k in GoAutos(d, n) && SeqOf(j) < SeqOf(k)
      ensures SeqOf(j) <= CutTo(SeqOf(k), SeqOf(j))
    {
      PairAgrees(d, n, j, k);
      BothOrders(q, j, k);
    }
  }

  // The hook drops what Go's PruneAuto drops, whatever is retained, exactly when the numbers fit.
  lemma DropsAgreeIff(d: Disk, n: string)
    requires Sound(d) && ValidName(n)
    ensures (forall keep: nat :: HookDrop(d, "@" + n, keep) == GoDrop(d, n, keep)) <==> NumbersFit(d, n)
  {
    hide Sound, NumbersFit, HookDrop, GoDrop;
    if NumbersFit(d, n) {
      forall keep: nat ensures HookDrop(d, "@" + n, keep) == GoDrop(d, n, keep) {
        FitDropsAgree(d, n, keep);
      }
    }
    if forall keep: nat :: HookDrop(d, "@" + n, keep) == GoDrop(d, n, keep) {
      AgreeingFits(d, n);
    }
  }

  lemma SmallFits(a: nat, b: nat)
    requires a < b < 10000
    ensures a <= CutTo(b, a)
  {
    FourDigits(a);
    FourDigits(b);
    assert Pow10(0) == 1;
  }

  // Below 10000 they fit, so the hook drops what Go drops, in the same order.
  lemma DropsAgree(d: Disk, n: string, keep: nat)
    requires Sound(d) && ValidName(n) && Below10000(d, n)
    ensures HookDrop(d, "@" + n, keep) == GoDrop(d, n, keep)
  {
    hide Sound, MatchCkpt, SeqOf, CutTo, HookDrop, GoDrop;
    ValidNotEmpty(n);
    forall j, k | j in GoAutos(d, n) && k in GoAutos(d, n) && SeqOf(j) < SeqOf(k)
      ensures SeqOf(j) <= CutTo(SeqOf(k), SeqOf(j))
    {
      SmallFits(SeqOf(j), SeqOf(k));
    }
    FitDropsAgree(d, n, keep);
  }

  // With the checkpoints 9999 and 10000 and one to retain the hook drops the newest, Go the oldest.
  lemma HookDropsNewest(d: Disk, n: string)
    requires Sound(d) && ValidName(n)
    requires GoAutos(d, n) == {CkptName(n, 9999, AUTO), CkptName(n, 10000, AUTO)}
    ensures HookDrop(d, "@" + n, 1) == [CkptName(n, 10000, AUTO)]
    ensures GoDrop(d, n, 1) == [CkptName(n, 9999, AUTO)]
  {
    hide Sound, CkptName, GoAutos, HookAutos, Before, ByRef, MatchCkpt;
    var a, b := CkptName(n, 9999, AUTO), CkptName(n, 10000, AUTO);
    AutosAgree(d, n);
    TextBreaksAt10000(n, AUTO);
    CkptPathOf(n, 9999, AUTO);
    CkptPathOf(n, 10000, AUTO);
    LaterByRef(a, b, n);
    TextOrder();
    ByRefOrder();
    assert Before(b, a);
    SortedUnique([b, a], {a, b}, Before);
    SortedUnique([a, b], {a, b}, ByRef);
    assert AllBut([b, a], 1) == [b] && AllBut([a, b], 1) == [a];
  }

  lemma LaterByRef(j: string, k: string, n: string)
    requires CkptOf(j, n) && CkptOf(k, n) && SeqOf(j) < SeqOf(k)
    ensures ByRef(j, k) && j != k
  {
  }

  // -------------------------------------------------------------------------
  // What is dropped
  // -------------------------------------------------------------------------

  lemma DropIsAuto(d: Disk, n: string, keep: nat)
    requires Sound(d) && ValidName(n)
    ensures forall k | k in HookDrop(d, "@" + n, keep) :: k in d.subvols && AutoCkptOf(k, n)
  {
    AutosAgree(d, n);
    TextOrder();
    var q := Sorted(HookAutos(d, "@" + n), Before);
    forall k | k in AllBut(q, keep) ensures k in d.subvols && AutoCkptOf(k, n) {
      assert k in q;
      assert k in GoAutos(d, n);
    }
  }

  lemma DroppedComeFirst(s: set<string>, q: seq<string>, keep: nat, x: string, y: string)
    requires Ordered(q, ByRef) && forall z :: z in q <==> z in s
    requires x in AllBut(q, keep) && y in s && y !in AllBut(q, keep)
    ensures ByRef(x, y)
  {
    var drop := AllBut(q, keep);
    var i :| 0 <= i < |drop| && drop[i] == x;
    assert y in q;
    var j :| 0 <= j < |q| && q[j] == y;
    assert |drop| <= j by {
      assert forall k | 0 <= k < |drop| :: drop[k] == q[k];
    }
    assert q[i] == x;
  }

  lemma SurvivorCount(s: set<string>, q: seq<string>, keep: nat)
    requires Ordered(q, ByRef) && |q| == |s| && forall x :: x in q <==> x in s
    ensures |s - Elements(AllBut(q, keep))| == if |s| < keep then |s| else keep
  {
    var drop := AllBut(q, keep);
    if |q| > keep {
      var rest := q[|q| - keep..];
      assert q == drop + rest;
      RestElements(q, |q| - keep);
      forall x ensures x in s - Elements(drop) <==> x in Elements(rest) {
        assert x in q <==> x in drop || x in rest;
      }
      assert s - Elements(drop) == Elements(rest);
      OrderedSize(rest);
    } else {
      assert Elements(drop) == {};
      assert s - {} == s;
    }
  }

  lemma RestElements(q: seq<string>, cut: nat)
    requires Ordered(q, ByRef) && cut <= |q|
    ensures Ordered(q[cut..], ByRef)
    ensures forall x :: x in q[cut..] ==> x !in q[..cut]
  {
    ByRefOrder();
    forall i, j | 0 <= i < j < |q[cut..]| ensures ByRef(q[cut..][i], q[cut..][j]) {
      assert ByRef(q[cut + i], q[cut + j]);
    }
    forall x | x in q[cut..] ensures x !in q[..cut] {
      var i :| 0 <= i < |q[cut..]| && q[cut..][i] == x;
      forall j | 0 <= j < cut ensures q[j] != x {
        assert ByRef(q[j], q[cut + i]);
      }
    }
  }

  lemma {:induction false} OrderedSize(q: seq<string>)
    requires Ordered(q, ByRef)
    ensures |Elements(q)| == |q|
  {
    if q != [] {
      ByRefOrder();
      RestElements(q, 1);
      OrderedSize(q[1..]);
      assert q[0] in q[..1];
      assert Elements(q) == {q[0]} + Elements(q[1..]);
    }
  }

  lemma NewerByRef(d: Disk, n: string, x: string, y: string)
    requires Sound(d) && ValidName(n) && x in d.subvols && y in d.subvols
    requires CkptOf(x, n) && CkptOf(y, n) && ByRef(x, y)
    ensures SeqOf(x) < SeqOf(y)
  {
    BeforeIrreflexive(n);
    BeforeIrreflexive(x);
    if SeqOf(x) == SeqOf(y) {
      SameNumberSameCkpt(d, x, y, n);
    }
  }

  // The survivors are the newest automatic checkpoints, as many as are to be kept or all there
  // are; no kept checkpoint is dropped.
  lemma NewestSurvive(d: Disk, n: string, keep: nat)
    requires Sound(d) && ValidName(n) && Below10000(d, n)
    ensures var drop := HookDrop(d, "@" + n, keep);
      && var survivors := GoAutos(d, n) - Elements(drop);
      && |survivors| == (if |GoAutos(d, n)| < keep then |GoAutos(d, n)| else keep)
      && (forall x, y | x in drop && y in survivors :: SeqOf(x) < SeqOf(y))
      && (forall k | k in drop :: !KeepCkptOf(k, n))
  {
    DropsAgree(d, n, keep);
    DropIsAuto(d, n, keep);
    ByRefOrder();
    var autos := GoAutos(d, n);
    var q := Sorted(autos, ByRef);
    SurvivorCount(autos, q, keep);
    var drop := AllBut(q, keep);
    forall x, y | x in drop && y in autos - Elements(drop) ensures SeqOf(x) < SeqOf(y) {
      DroppedComeFirst(autos, q, keep, x, y);
      NewerByRef(d, n, x, y);
    }
  }

  // -------------------------------------------------------------------------
  // The deletions
  // -------------------------------------------------------------------------

  ghost function HookDeleteAll(d: Disk, ps: seq<string>, f: DeleteFaults): seq<Disk>
    decreases |ps|
  {
    if ps == [] then []
    else
      var a := HookDelete(d, ps[0], f);
      a + HookDeleteAll(End(d, a), ps[1..], f)
  }

  ghost function PruneTrail(d: Disk, subvol: string, f: DeleteFaults): seq<Disk> {
    HookDeleteAll(d, HookDrop(d, subvol, HookRetain(d.config)), f)
  }

  // x is d with some of the listed checkpoints gone.
  ghost predicate Pruned(d: Disk, x: Disk, ps: seq<string>) {
    && x.staged == d.staged && x.config == d.config && x.entries == d.entries
    && (forall k | k in x.subvols :: k in d.subvols && x.subvols[k] == d.subvols[k])
    && (forall k | k in d.subvols && k !in ps :: k in x.subvols)
  }

  lemma NothingInsideCkpt(d: Disk, p: string, n: string)
    requires Sound(d) && ValidName(n) && p in d.subvols && CkptOf(p, n)
    ensures Tree(d, p) == {p}
  {
    CkptIsCanonical(d, p, n);
    MatchHasDot(p);
    SlatePathNoDot(p);
    hide MatchCkpt;
    forall k | k in d.subvols ensures !Inside(k, p) {
      assert StorePath(k);
      TopUnique(k, p);
      InsideHasSlash(k, p);
    }
    assert Within(p, p);
  }

  lemma InsideHasSlash(k: string, p: string)
    ensures Inside(k, p) ==> '/' in k
  {
    if Inside(k, p) {
      assert k[|p|] == (p + "/")[|p|];
    }
  }

  lemma SoundSubset(d: Disk, x: Disk)
    requires Sound(d) && forall k | k in x.subvols :: k in d.subvols && x.subvols[k] == d.subvols[k]
    ensures Sound(x)
  {
    forall n, s | ValidName(n) ensures !(CkptName(n, s, AUTO) in x.subvols && CkptName(n, s, KEEP) in x.subvols) {
      assert !(CkptName(n, s, AUTO) in d.subvols && CkptName(n, s, KEEP) in d.subvols);
    }
  }

  lemma DeleteOnePrunes(d: Disk, x: Disk, p: string, n: string, ps: seq<string>, f: DeleteFaults)
    requires Sound(x) && ValidName(n) && p in x.subvols && CkptOf(p, n) && p in ps && Pruned(d, x, ps)
    ensures forall i | 0 <= i < |HookDelete(x, p, f)| :: Pruned(d, HookDelete(x, p, f)[i], ps)
  {
    DeleteShrinks(x, p, f);
    NothingInsideCkpt(x, p, n);
    var t := HookDelete(x, p, f);
    forall i | 0 <= i < |t| ensures Pruned(d, t[i], ps) {
      assert Shrunk(x, t[i], p);
      forall k | k in d.subvols && k !in ps ensures k in t[i].subvols {
        assert k in x.subvols;
        assert Within(k, p) ==> k in Tree(x, p);
      }
    }
  }

  lemma {:induction false} DeleteAllPrunes(d: Disk, x: Disk, todo: seq<string>, n: string, ps: seq<string>, f: DeleteFaults)
    requires Sound(d) && ValidName(n) && Pruned(d, x, ps)
    requires forall i | 0 <= i < |todo| :: todo[i] in x.subvols && CkptOf(todo[i], n) && todo[i] in ps
    requires forall i, j | 0 <= i < j < |todo| :: todo[i] != todo[j]
    ensures var t := HookDeleteAll(x, todo, f);
            (forall i | 0 <= i < |t| :: Pruned(d, t[i], ps)) && Pruned(d, End(x, t), ps)
    decreases |todo|
  {
    if todo != [] {
      var p := todo[0];
      SoundSubset(d, x);
      DeleteOnePrunes(d, x, p, n, ps, f);
      var a := HookDelete(x, p, f);
      var y := End(x, a);
      assert Pruned(d, y, ps);
      DeleteShrinks(x, p, f);
      NothingInsideCkpt(x, p, n);
      var rest := todo[1..];
      forall i | 0 <= i < |rest| ensures rest[i] in y.subvols && CkptOf(rest[i], n) && rest[i] in ps {
        assert rest[i] == todo[i + 1] && todo[0] != todo[i + 1];
        assert rest[i] !in Tree(x, p);
      }
      DeleteAllPrunes(d, y, rest, n, ps, f);
      EndConcat(x, a, HookDeleteAll(y, rest, f));
    }
  }

  lemma DropIsDistinct(d: Disk, subvol: string, keep: nat)
    ensures var q := HookDrop(d, subvol, keep);
            forall i, j | 0 <= i < j < |q| :: q[i] != q[j]
  {
    TextOrder();
    var s := Sorted(HookAutos(d, subvol), Before);
    var q := AllBut(s, keep);
    forall i, j | 0 <= i < j < |q| ensures q[i] != q[j] {
      assert Before(s[i], s[j]);
      BeforeIrreflexive(s[i]);
    }
  }

  // Whatever fails, pruning a slate removes only automatic checkpoints of it, from those chosen.
  lemma PruneSafe(d: Disk, n: string, f: DeleteFaults)
    requires Sound(d) && ValidName(n)
    ensures var t := PruneTrail(d, "@" + n, f);
            var drop := HookDrop(d, "@" + n, HookRetain(d.config));
            && (forall i | 0 <= i < |t| :: Pruned(d, t[i], drop))
            && Pruned(d, End(d, t), drop)
            && forall k | k in drop :: k in d.subvols && AutoCkptOf(k, n)
  {
    var drop := HookDrop(d, "@" + n, HookRetain(d.config));
    DropIsAuto(d, n, HookRetain(d.config));
    DropIsDistinct(d, "@" + n, HookRetain(d.config));
    forall i | 0 <= i < |drop| ensures drop[i] in d.subvols && CkptOf(drop[i], n) && drop[i] in drop {
      assert drop[i] in drop;
    }
    DeleteAllPrunes(d, d, drop, n, drop, f);
  }

  ghost predicate Prunable(d: Disk, todo: seq<string>, n: string) {
    && (forall i | 0 <= i < |todo| :: todo[i] in d.subvols && CkptOf(todo[i], n))
    && (forall i, j | 0 <= i < j < |todo| :: todo[i] != todo[j])
  }

  lemma RestPrunable(d: Disk, todo: seq<string>, n: string)
    requires Prunable(d, todo, n) && todo != []
    ensures Prunable(Remove(d, {todo[0]}), todo[1..], n)
    ensures d.subvols - {todo[0]} - Elements(todo[1..]) == d.subvols - Elements(todo)
  {
    var x, rest := Remove(d, {todo[0]}), todo[1..];
    forall i | 0 <= i < |rest| ensures rest[i] in x.subvols && CkptOf(rest[i], n) {
      assert rest[i] == todo[i + 1] && todo[0] != todo[i + 1];
    }
    assert Elements(todo) == {todo[0]} + Elements(rest);
  }

  // When no deletion fails, exactly the chosen ones go.
  lemma {:induction false} DeleteAllClears(d: Disk, todo: seq<string>, n: string, f: DeleteFaults)
    requires Sound(d) && ValidName(n) && f.stuck == {} && f.noList == {} && Prunable(d, todo, n)
    ensures End(d, HookDeleteAll(d, todo, f)) == Remove(d, Elements(todo))
    decreases |todo|
  {
    if todo == [] {
      assert d.subvols - {} == d.subvols;
    } else {
      var p, rest := todo[0], todo[1..];
      NothingInsideCkpt(d, p, n);
      DeleteClears(d, p, f);
      var x := Remove(d, {p});
      SoundSubset(d, x);
      RestPrunable(d, todo, n);
      DeleteAllClears(x, rest, n, f);
      EndConcat(d, HookDelete(d, p, f), HookDeleteAll(x, rest, f));
    }
  }

  lemma PruneClears(d: Disk, n: string, f: DeleteFaults)
    requires Sound(d) && ValidName(n) && f.stuck == {} && f.noList == {}
    ensures End(d, PruneTrail(d, "@" + n, f)) == Remove(d, Elements(HookDrop(d, "@" + n, HookRetain(d.config))))
  {
    var drop := HookDrop(d, "@" + n, HookRetain(d.config));
    DropIsAuto(d, n, HookRetain(d.config));
    DropIsDistinct(d, "@" + n, HookRetain(d.config));
    forall i | 0 <= i < |drop| ensures drop[i] in d.subvols && CkptOf(drop[i], n) {
      assert drop[i] in drop;
    }
    DeleteAllClears(d, drop, n, f);
  }
}
