/** The filesystem root: subvolumes by path (a nested one has a slash in its path), the staged
    file, the settings and the boot entries; and the btrfs commands as atomic steps on it.
    A trail lists the contents after every command that changed them. */
module Store {
  import opened Text
  import opened Names
  import opened Sorting

  type Files = map<string, string>

  datatype Subvol = Subvol(files: Files, ro: bool)

  datatype Disk = Disk(subvols: map<string, Subvol>, staged: Option<string>,
                       config: Option<string>, entries: map<string, string>)

  function End(d: Disk, trail: seq<Disk>): Disk {
    if trail == [] then d else trail[|trail| - 1]
  }

  lemma EndConcat(d: Disk, a: seq<Disk>, b: seq<Disk>)
    ensures End(d, a + b) == End(End(d, a), b)
  {
  }

  // -------------------------------------------------------------------------
  // Snapshots
  // -------------------------------------------------------------------------

  predicate CanSnap(d: Disk, src: string, dst: string) {
    src in d.subvols && dst !in d.subvols
  }

  // A snapshot copies the subvolume's own files and nothing nested in it.
  function Snap(d: Disk, src: string, dst: string, ro: bool): Disk
    requires CanSnap(d, src, dst)
  {
    d.(subvols := d.subvols[dst := Subvol(d.subvols[src].files, ro)])
  }

  function SnapTrail(d: Disk, src: string, dst: string, ro: bool, fault: bool): seq<Disk> {
    if !fault && CanSnap(d, src, dst) then [Snap(d, src, dst, ro)] else []
  }

  // -------------------------------------------------------------------------
  // Deletion
  // -------------------------------------------------------------------------

  // The paths for which `delete -R`, `list -o` and plain `delete` fail.
  datatype DeleteFaults = DeleteFaults(noRecursive: set<string>, noList: set<string>, stuck: set<string>)

  // Deletion as the filesystem promises it.
  predicate Deletes(f: DeleteFaults) { f.stuck == {} && f.noList == {} }

  predicate Inside(k: string, p: string) { p + "/" <= k }

  predicate Within(k: string, p: string) { k == p || Inside(k, p) }

  function Nested(d: Disk, p: string): set<string> {
    set k | k in d.subvols && Inside(k, p)
  }

  function Tree(d: Disk, p: string): set<string> {
    set k | k in d.subvols && Within(k, p)
  }

  function Remove(d: Disk, ks: set<string>): Disk {
    d.(subvols := d.subvols - ks)
  }

  // btrfs refuses to delete a subvolume that holds others.
  predicate CanDelete(d: Disk, p: string, f: DeleteFaults) {
    p in d.subvols && Nested(d, p) == {} && p !in f.stuck
  }

  function PlainTrail(d: Disk, p: string, f: DeleteFaults): seq<Disk> {
    if CanDelete(d, p, f) then [Remove(d, {p})] else []
  }

  function PlainEach(d: Disk, ps: seq<string>, f: DeleteFaults): seq<Disk>
    decreases |ps|
  {
    if ps == [] then []
    else
      var a := PlainTrail(d, ps[0], f);
      a + PlainEach(End(d, a), ps[1..], f)
  }

  // Longest path first; `sort -rn` breaks ties by reversed text.
  predicate Deeper(a: string, b: string) {
    |a| > |b| || (|a| == |b| && Before(b, a))
  }

  lemma DeeperOrder()
    ensures StrictTotal(Deeper)
  {
    TextOrder();
  }

  ghost function Deepest(d: Disk, p: string): seq<string> {
    DeeperOrder();
    Sorted(Nested(d, p), Deeper)
  }

  // delete_subvol of the hook: -R, else each nested subvolume and then the subvolume itself. On
  // a path that is not there every command fails.
  ghost function HookDelete(d: Disk, p: string, f: DeleteFaults): seq<Disk> {
    if p !in d.subvols then []
    else if p !in f.noRecursive then [Remove(d, Tree(d, p))]
    else
      var a := PlainEach(d, if p in f.noList then [] else Deepest(d, p), f);
      a + PlainTrail(End(d, a), p, f)
  }

  // btrfsDeleteRecursive: the same, but nothing is tried when listing fails.
  ghost function GoDelete(d: Disk, p: string, f: DeleteFaults): seq<Disk> {
    if p in f.noRecursive && p in f.noList then [] else HookDelete(d, p, f)
  }

  // x is d with nothing but subvolumes in the tree of p missing, and p only if its whole tree is.
  ghost predicate Shrunk(d: Disk, x: Disk, p: string) {
    && x.staged == d.staged && x.config == d.config && x.entries == d.entries
    && (forall k | k in x.subvols :: k in d.subvols && x.subvols[k] == d.subvols[k])
    && (forall k | k in d.subvols && !Within(k, p) :: k in x.subvols)
    && (p !in x.subvols ==> forall k | k in x.subvols :: !Within(k, p))
  }

  ghost predicate AllShrunk(d: Disk, trail: seq<Disk>, p: string) {
    forall i | 0 <= i < |trail| :: Shrunk(d, trail[i], p) && (i < |trail| - 1 ==> p in trail[i].subvols)
  }

  lemma PlainShrinks(d: Disk, x: Disk, q: string, f: DeleteFaults, p: string)
    requires Shrunk(d, x, p) && Within(q, p) && p in x.subvols
    ensures forall i | 0 <= i < |PlainTrail(x, q, f)| :: Shrunk(d, PlainTrail(x, q, f)[i], p)
    ensures q != p ==> p in End(x, PlainTrail(x, q, f)).subvols
    ensures q == p ==> (p !in End(x, PlainTrail(x, q, f)).subvols <==> CanDelete(x, p, f))
  {
    if CanDelete(x, q, f) {
      var y := Remove(x, {q});
      assert forall k | k in x.subvols && Inside(k, q) :: k in Nested(x, q);
      assert q == p ==> forall k | k in y.subvols :: !Within(k, p);
    }
  }

  lemma {:induction false} PlainEachShrinks(d: Disk, x: Disk, ps: seq<string>, f: DeleteFaults, p: string)
    requires Shrunk(d, x, p) && p in x.subvols
    requires forall i | 0 <= i < |ps| :: Inside(ps[i], p)
    ensures var t := PlainEach(x, ps, f);
      && (forall i | 0 <= i < |t| :: Shrunk(d, t[i], p) && p in t[i].subvols)
      && Shrunk(d, End(x, t), p) && p in End(x, t).subvols
    decreases |ps|
  {
    if ps != [] {
      assert Inside(ps[0], p);
      assert |ps[0]| > |p|;
      PlainShrinks(d, x, ps[0], f, p);
      var a := PlainTrail(x, ps[0], f);
      forall i | 0 <= i < |ps[1..]| ensures Inside(ps[1..][i], p) {
        assert ps[1..][i] == ps[i + 1];
      }
      PlainEachShrinks(d, End(x, a), ps[1..], f, p);
    }
  }

  // Whatever fails, deleting p removes nothing outside its tree, changes nothing, and removes p
  // itself only with everything nested in it, in its last step.
  lemma DeleteShrinks(d: Disk, p: string, f: DeleteFaults)
    requires p in d.subvols
    ensures AllShrunk(d, HookDelete(d, p, f), p) && Shrunk(d, End(d, HookDelete(d, p, f)), p)
  {
    if p in f.noRecursive {
      var ps := if p in f.noList then [] else Deepest(d, p);
      forall i | 0 <= i < |ps| ensures Inside(ps[i], p) {
        assert ps[i] in ps;
      }
      PlainEachShrinks(d, d, ps, f, p);
      var a := PlainEach(d, ps, f);
      PlainShrinks(d, End(d, a), p, f, p);
    }
  }

  lemma GoDeleteShrinks(d: Disk, p: string, f: DeleteFaults)
    requires p in d.subvols
    ensures AllShrunk(d, GoDelete(d, p, f), p) && Shrunk(d, End(d, GoDelete(d, p, f)), p)
  {
    DeleteShrinks(d, p, f);
  }

  // Longest paths first, in any order among paths of one length.
  predicate LongestFirst(ps: seq<string>) {
    forall i, j | 0 <= i < j < |ps| :: |ps[i]| >= |ps[j]| && ps[i] != ps[j]
  }

  // ps lists, longest first, subvolumes that can be deleted, and with each all it holds.
  ghost predicate Clearable(d: Disk, ps: seq<string>, f: DeleteFaults) {
    && LongestFirst(ps)
    && (forall i | 0 <= i < |ps| :: ps[i] in d.subvols && ps[i] !in f.stuck)
    && (forall k, i | k in d.subvols && 0 <= i < |ps| && Inside(k, ps[i]) :: k in ps)
  }

  lemma FirstIsEmpty(d: Disk, ps: seq<string>, f: DeleteFaults)
    requires Clearable(d, ps, f) && ps != []
    ensures CanDelete(d, ps[0], f)
  {
    var p := ps[0];
    forall k | k in d.subvols ensures !Inside(k, p) {
      assert Inside(k, p) ==> |k| > |p|;
      assert k in ps ==> |k| <= |p|;
    }
  }

  lemma RestClearable(d: Disk, ps: seq<string>, f: DeleteFaults)
    requires Clearable(d, ps, f) && ps != []
    ensures Clearable(Remove(d, {ps[0]}), ps[1..], f)
  {
    var d1, rest := Remove(d, {ps[0]}), ps[1..];
    forall i | 0 <= i < |rest| ensures rest[i] in d1.subvols && rest[i] !in f.stuck {
      assert rest[i] == ps[i + 1] && ps[0] != ps[i + 1];
    }
    forall k, i | k in d1.subvols && 0 <= i < |rest| && Inside(k, rest[i]) ensures k in rest {
      assert Inside(k, ps[i + 1]);
      assert k in ps && k != ps[0];
    }
  }

  lemma {:induction false} PlainEachClears(d: Disk, ps: seq<string>, f: DeleteFaults)
    requires Clearable(d, ps, f)
    ensures End(d, PlainEach(d, ps, f)) == Remove(d, Elements(ps))
    decreases |ps|
  {
    if ps == [] {
      assert d.subvols - {} == d.subvols;
    } else {
      FirstIsEmpty(d, ps, f);
      RestClearable(d, ps, f);
      PlainEachHead(d, ps, f);
      PlainEachClears(Remove(d, {ps[0]}), ps[1..], f);
      RemoveHead(d, ps);
    }
  }

  lemma RemoveHead(d: Disk, ps: seq<string>)
    requires ps != []
    ensures Remove(Remove(d, {ps[0]}), Elements(ps[1..])) == Remove(d, Elements(ps))
  {
    assert Elements(ps) == {ps[0]} + Elements(ps[1..]);
    assert d.subvols - {ps[0]} - Elements(ps[1..]) == d.subvols - Elements(ps);
  }

  lemma PlainEachHead(d: Disk, ps: seq<string>, f: DeleteFaults)
    requires ps != [] && CanDelete(d, ps[0], f)
    ensures End(d, PlainEach(d, ps, f)) == End(Remove(d, {ps[0]}), PlainEach(Remove(d, {ps[0]}), ps[1..], f))
  {
    var d1 := Remove(d, {ps[0]});
    assert PlainTrail(d, ps[0], f) == [d1];
    EndConcat(d, [d1], PlainEach(d1, ps[1..], f));
  }

  // The fallback succeeds: with every descendant listed longest first and no deletion failing
  // for another reason than a descendant, all of the tree goes and nothing else.
  lemma FallbackDeletesTree(d: Disk, p: string, ps: seq<string>, f: DeleteFaults)
    requires p in d.subvols && LongestFirst(ps) && Elements(ps) == Nested(d, p)
    requires f.stuck !! Tree(d, p)
    ensures var a := PlainEach(d, ps, f);
            End(d, a + PlainTrail(End(d, a), p, f)) == Remove(d, Tree(d, p))
  {
    forall i | 0 <= i < |ps| ensures ps[i] in d.subvols && ps[i] !in f.stuck && Inside(ps[i], p) {
      assert ps[i] in Elements(ps);
      assert ps[i] in Tree(d, p);
    }
    forall k, i | k in d.subvols && 0 <= i < |ps| && Inside(k, ps[i]) ensures k in ps {
      assert Inside(ps[i], p);
      assert p + "/" <= k;
      assert k in Nested(d, p);
      assert k in Elements(ps);
    }
    PlainEachClears(d, ps, f);
    var a := PlainEach(d, ps, f);
    var d1 := Remove(d, Elements(ps));
    assert p !in Elements(ps) by {
      assert !Inside(p, p);
    }
    assert Nested(d1, p) == {};
    assert p in Tree(d, p);
    assert PlainTrail(d1, p, f) == [Remove(d1, {p})];
    assert Tree(d, p) == Elements(ps) + {p};
    assert d.subvols - Elements(ps) - {p} == d.subvols - Tree(d, p);
  }

  lemma DeleteClears(d: Disk, p: string, f: DeleteFaults)
    requires p in d.subvols && f.stuck !! Tree(d, p)
    requires p !in f.noList || p !in f.noRecursive
    ensures End(d, HookDelete(d, p, f)) == Remove(d, Tree(d, p))
    ensures End(d, GoDelete(d, p, f)) == Remove(d, Tree(d, p))
  {
    if p in f.noRecursive {
      var ps := Deepest(d, p);
      DeeperOrder();
      forall i, j | 0 <= i < j < |ps| ensures |ps[i]| >= |ps[j]| && ps[i] != ps[j] {
        assert Deeper(ps[i], ps[j]);
        assert !Deeper(ps[i], ps[i]);
      }
      assert Elements(ps) == Nested(d, p);
      FallbackDeletesTree(d, p, ps, f);
    }
  }

  // -------------------------------------------------------------------------
  // The mounted filesystem root, changed in place
  // -------------------------------------------------------------------------

  class FsRoot {
    var subvols: map<string, Subvol>
    var staged: Option<string>
    var config: Option<string>
    var entries: map<string, string>
    ghost var trail: seq<Disk>

    ghost function Now(): Disk
      reads this
    {
      Disk(subvols, staged, config, entries)
    }

    constructor (d: Disk)
      ensures Now() == d && trail == []
    {
      subvols, staged, config, entries := d.subvols, d.staged, d.config, d.entries;
      trail := [];
    }

    method Snapshot(src: string, dst: string, ro: bool, fault: bool) returns (ok: bool)
      modifies this
      ensures ok <==> !fault && CanSnap(old(Now()), src, dst)
      ensures trail == old(trail) + SnapTrail(old(Now()), src, dst, ro, fault)
      ensures Now() == End(old(Now()), SnapTrail(old(Now()), src, dst, ro, fault))
    {
      ok := !fault && src in subvols && dst !in subvols;
      if ok {
        subvols := subvols[dst := Subvol(subvols[src].files, ro)];
        trail := trail + [Now()];
      }
    }

    method Delete(p: string, f: DeleteFaults) returns (ok: bool)
      modifies this
      ensures ok <==> CanDelete(old(Now()), p, f)
      ensures trail == old(trail) + PlainTrail(old(Now()), p, f)
      ensures Now() == End(old(Now()), PlainTrail(old(Now()), p, f))
    {
      var inside := set k | k in subvols && Inside(k, p);
      ok := p in subvols && inside == {} && p !in f.stuck;
      if ok {
        subvols := subvols - {p};
        trail := trail + [Now()];
      }
    }

    method DeleteR(p: string, f: DeleteFaults) returns (ok: bool)
      modifies this
      ensures ok <==> p in old(subvols) && p !in f.noRecursive
      ensures Now() == if ok then Remove(old(Now()), Tree(old(Now()), p)) else old(Now())
      ensures trail == if ok then old(trail) + [Now()] else old(trail)
    {
      ok := p in subvols && p !in f.noRecursive;
      if ok {
        subvols := subvols - (set k | k in subvols && Within(k, p));
        trail := trail + [Now()];
      }
    }

    // btrfs subvolume list -o, its paths sorted deepest first; none when listing fails.
    method ListNested(p: string, f: DeleteFaults) returns (ok: bool, ps: seq<string>)
      ensures ok <==> p in subvols && p !in f.noList
      ensures ps == if ok then Deepest(Now(), p) else []
    {
      ok := p in subvols && p !in f.noList;
      ps := [];
      if ok {
        var names := Names(set k | k in subvols && Inside(k, p));
        DeeperOrder();
        ps := Sort(names, Deeper);
        assert Elements(names) == Nested(Now(), p);
      }
    }

    // Some listing of a set of paths, as the filesystem reports it.
    method Names(s: set<string>) returns (names: seq<string>)
      ensures Elements(names) == s
      ensures forall i, j | 0 <= i < j < |names| :: names[i] != names[j]
    {
      names := [];
      var rest := s;
      while rest != {}
        invariant rest <= s && Elements(names) == s - rest
        invariant forall i, j | 0 <= i < j < |names| :: names[i] != names[j]
        decreases rest
      {
        var k :| k in rest;
        assert k !in Elements(names);
        ghost var before := names;
        names := names + [k];
        rest := rest - {k};
        assert Elements(names) == Elements(before) + {k};
      }
    }
  }

  lemma PlainEachStep(d: Disk, ps: seq<string>, i: nat, f: DeleteFaults)
    requires i < |ps|
    ensures PlainEach(d, ps[i..], f)
         == PlainTrail(d, ps[i], f) + PlainEach(End(d, PlainTrail(d, ps[i], f)), ps[i + 1..], f)
  {
    assert ps[i..][0] == ps[i] && ps[i..][1..] == ps[i + 1..];
  }

  lemma DeleteEachStep(d: Disk, done: seq<Disk>, ps: seq<string>, i: nat, f: DeleteFaults)
    requires i < |ps| && PlainEach(d, ps, f) == done + PlainEach(End(d, done), ps[i..], f)
    ensures var a := PlainTrail(End(d, done), ps[i], f);
      && PlainEach(d, ps, f) == (done + a) + PlainEach(End(d, done + a), ps[i + 1..], f)
      && End(d, done + a) == End(End(d, done), a)
  {
    PlainEachStep(End(d, done), ps, i, f);
    EndConcat(d, done, PlainTrail(End(d, done), ps[i], f));
  }

  method DeleteEach(fs: FsRoot, ps: seq<string>, f: DeleteFaults)
    modifies fs
    ensures fs.trail == old(fs.trail) + PlainEach(old(fs.Now()), ps, f)
    ensures fs.Now() == End(old(fs.Now()), PlainEach(old(fs.Now()), ps, f))
  {
    ghost var d := fs.Now();
    ghost var done: seq<Disk> := [];
    for i := 0 to |ps|
      invariant fs.trail == old(fs.trail) + done && fs.Now() == End(d, done)
      invariant PlainEach(d, ps, f) == done + PlainEach(End(d, done), ps[i..], f)
    {
      DeleteEachStep(d, done, ps, i, f);
      done := done + PlainTrail(fs.Now(), ps[i], f);
      var _ := fs.Delete(ps[i], f);
    }
    assert ps[|ps|..] == [];
  }

  // The fallback's two parts put together.
  lemma FallbackOutcome(d: Disk, p: string, f: DeleteFaults)
    requires p in d.subvols && p in f.noRecursive
    ensures var a := PlainEach(d, if p in f.noList then [] else Deepest(d, p), f);
      && HookDelete(d, p, f) == a + PlainTrail(End(d, a), p, f)
      && End(d, HookDelete(d, p, f)) == End(End(d, a), PlainTrail(End(d, a), p, f))
      && (CanDelete(End(d, a), p, f) <==> p !in End(d, HookDelete(d, p, f)).subvols)
  {
    var ps := if p in f.noList then [] else Deepest(d, p);
    forall i | 0 <= i < |ps| ensures Inside(ps[i], p) {
      assert ps[i] in ps;
    }
    PlainEachShrinks(d, d, ps, f, p);
    var a := PlainEach(d, ps, f);
    PlainShrinks(d, End(d, a), p, f, p);
    EndConcat(d, a, PlainTrail(End(d, a), p, f));
  }

  lemma NothingThere(d: Disk, p: string, f: DeleteFaults)
    requires p !in d.subvols
    ensures PlainEach(d, [], f) == [] && PlainTrail(d, p, f) == [] && HookDelete(d, p, f) == GoDelete(d, p, f) == []
  {
  }

  method DeleteSubvol(fs: FsRoot, p: string, f: DeleteFaults) returns (ok: bool)
    modifies fs
    ensures fs.trail == old(fs.trail) + HookDelete(old(fs.Now()), p, f)
    ensures fs.Now() == End(old(fs.Now()), HookDelete(old(fs.Now()), p, f))
    ensures ok <==> p in old(fs.subvols) && p !in fs.subvols
  {
    ok := fs.DeleteR(p, f);
    if ok {
      return;
    }
    if p in fs.subvols {
      FallbackOutcome(fs.Now(), p, f);
    } else {
      NothingThere(fs.Now(), p, f);
    }
    var _, ps := fs.ListNested(p, f);
    DeleteEach(fs, ps, f);
    ok := fs.Delete(p, f);
  }

  method DeleteRecursive(fs: FsRoot, p: string, f: DeleteFaults) returns (ok: bool)
    modifies fs
    ensures fs.trail == old(fs.trail) + GoDelete(old(fs.Now()), p, f)
    ensures fs.Now() == End(old(fs.Now()), GoDelete(old(fs.Now()), p, f))
    ensures ok <==> p in old(fs.subvols) && p !in fs.subvols
  {
    ok := fs.DeleteR(p, f);
    if ok {
      return;
    }
    if p in fs.subvols {
      FallbackOutcome(fs.Now(), p, f);
    } else {
      NothingThere(fs.Now(), p, f);
    }
    var listed, ps := fs.ListNested(p, f);
    if !listed {
      return false;
    }
    DeleteEach(fs, ps, f);
    ok := fs.Delete(p, f);
  }
}
