/** What the commands keep and remove: discarding takes one slate and all that belongs to it and
    nothing else, pruning in Go takes what the hook takes, and the boot record tells which slate
    is running. */
module OpsLaws {
  import opened Text
  import opened Decimal
  import opened Names
  import opened Entries
  import opened Store
  import opened Sorting
  import opened Checkpoints
  import opened Config
  import opened Pruning
  import opened Hook
  import opened HookSafety
  import opened BootSpec
  import opened Ops

  // -------------------------------------------------------------------------
  // Deleting parts of one slate
  // -------------------------------------------------------------------------

  // x is d with nothing but parts of the family of n missing.
  ghost predicate FamilyShrunk(d: Disk, x: Disk, n: string) {
    && x.staged == d.staged && x.config == d.config && x.entries == d.entries
    && (forall k | k in x.subvols :: k in d.subvols && x.subvols[k] == d.subvols[k])
    && (forall k | k in d.subvols && !Family(k, n) :: k in x.subvols)
  }

  lemma ShrunkInFamily(d0: Disk, d: Disk, x: Disk, p: string, n: string)
    requires Sound(d0) && ValidName(n) && FamilyShrunk(d0, d, n) && Shrunk(d, x, p) && p in d.subvols
    requires p == "@" + n || CkptOf(p, n)
    ensures FamilyShrunk(d0, x, n)
  {
    hide MatchCkpt, Sound;
    ValidIsPlain(n);
    SlateInFamily(n);
    if CkptOf(p, n) {
      NothingInsideCkpt(d0, p, n);
      assert forall k | k in d0.subvols && Within(k, p) :: k in Tree(d0, p);
    }
  }

  // Nothing is left of the listed subvolumes or in them.
  ghost predicate AllGone(x: Disk, ps: seq<string>) {
    forall k, i | k in x.subvols && 0 <= i < |ps| :: !Within(k, ps[i])
  }

  ghost predicate OfSlate(ps: seq<string>, n: string) {
    forall i | 0 <= i < |ps| :: ps[i] == "@" + n || CkptOf(ps[i], n)
  }

  lemma {:induction false} DeleteListOnly(d0: Disk, d: Disk, ps: seq<string>, n: string, f: DeleteFaults)
    requires Sound(d0) && ValidName(n) && FamilyShrunk(d0, d, n) && OfSlate(ps, n)
    ensures var r := DeleteList(d, ps, f);
      && (forall i | 0 <= i < |r.trail| :: FamilyShrunk(d0, r.trail[i], n))
      && FamilyShrunk(d0, End(d, r.trail), n) && FamilyShrunk(d, End(d, r.trail), n)
      && (r.error == None ==> AllGone(End(d, r.trail), ps))
    decreases |ps|
  {
    hide Sound, GoDelete, Shrunk, FamilyShrunk, MatchCkpt, AllGone;
    if ps == [] {
      SelfShrunk(d, n);
    } else {
      var a := GoDelete(d, ps[0], f);
      var x := End(d, a);
      FirstStep(d0, d, ps, n, f);
      if ps[0] in d.subvols && ps[0] !in x.subvols {
        RestOfSlate(ps, n);
        DeleteListOnly(d0, x, ps[1..], n, f);
        EndConcat(d, a, DeleteList(x, ps[1..], f).trail);
        var y := End(x, DeleteList(x, ps[1..], f).trail);
        ShrunkAgain(d, x, y, n);
        if DeleteList(x, ps[1..], f).error == None {
          GoneToo(d, x, y, ps, n);
        }
      }
    }
  }

  lemma SelfShrunk(d: Disk, n: string)
    ensures FamilyShrunk(d, d, n) && AllGone(d, [])
  {
  }

  lemma ShrunkAgain(d: Disk, x: Disk, y: Disk, n: string)
    requires FamilyShrunk(d, x, n) && FamilyShrunk(x, y, n)
    ensures FamilyShrunk(d, y, n)
  {
  }

  lemma GoneToo(d: Disk, x: Disk, y: Disk, ps: seq<string>, n: string)
    requires ps != [] && Shrunk(d, x, ps[0]) && ps[0] !in x.subvols
    requires FamilyShrunk(x, y, n) && AllGone(y, ps[1..])
    ensures AllGone(y, ps)
  {
    forall k, i | k in y.subvols && 0 <= i < |ps| ensures !Within(k, ps[i]) {
      if i > 0 {
        assert ps[i] == ps[1..][i - 1];
      }
    }
  }

  lemma RestOfSlate(ps: seq<string>, n: string)
    requires ps != [] && OfSlate(ps, n)
    ensures OfSlate(ps[1..], n)
  {
    hide CkptOf;
    assert forall i | 0 <= i < |ps[1..]| :: ps[1..][i] == ps[i + 1];
  }

  lemma FirstStep(d0: Disk, d: Disk, ps: seq<string>, n: string, f: DeleteFaults)
    requires Sound(d0) && ValidName(n) && FamilyShrunk(d0, d, n) && OfSlate(ps, n) && ps != []
    ensures var a := GoDelete(d, ps[0], f);
      && (forall i | 0 <= i < |a| :: FamilyShrunk(d0, a[i], n))
      && FamilyShrunk(d0, End(d, a), n) && FamilyShrunk(d, End(d, a), n)
      && (ps[0] in d.subvols ==> Shrunk(d, End(d, a), ps[0]))
  {
    hide Sound, GoDelete, Shrunk, FamilyShrunk, MatchCkpt;
    var a := GoDelete(d, ps[0], f);
    SelfShrunk(d, n);
    if ps[0] in d.subvols {
      GoDeleteShrinks(d, ps[0], f);
      forall i | 0 <= i < |a| ensures FamilyShrunk(d0, a[i], n) {
        ShrunkInFamily(d0, d, a[i], ps[0], n);
      }
      ShrunkInFamily(d0, d, End(d, a), ps[0], n);
      StillSound(d0, d, n);
      ShrunkInFamily(d, d, End(d, a), ps[0], n);
    } else {
      NothingThere(d, ps[0], f);
    }
  }

  lemma StillSound(d: Disk, x: Disk, n: string)
    requires Sound(d) && FamilyShrunk(d, x, n)
    ensures Sound(x)
  {
    SoundSubset(d, x);
  }

  // -------------------------------------------------------------------------
  // Discard
  // -------------------------------------------------------------------------

  lemma DiscardedOfSlate(d: Disk, n: string)
    requires ValidName(n)
    ensures OfSlate(Listed(d, n) + ["@" + n], n)
  {
    hide MatchCkpt, Listed;
    ListedIs(d, n);
    var q := Listed(d, n);
    forall i | 0 <= i < |q| ensures CkptOf(q[i], n) {
      assert q[i] in q;
      assert q[i] in Listing(d, n);
    }
  }

  // Whatever fails and wherever it stops, discarding n removes nothing outside the family of n.
  lemma DiscardOnly(d: Disk, b: Option<Booted>, n: string, f: DeleteFaults)
    requires Sound(d)
    ensures var r := DiscardRun(d, b, n, f);
      && (forall i | 0 <= i < |r.trail| :: FamilyShrunk(d, r.trail[i], n) && Sound(r.trail[i]))
      && FamilyShrunk(d, End(d, r.trail), n)
  {
    hide Sound, FamilyShrunk, Listed, DeleteList, ValidName, OfSlate;
    SelfShrunk(d, n);
    var r := DiscardRun(d, b, n, f);
    if r.trail != [] {
      DiscardedOfSlate(d, n);
      DeleteListOnly(d, d, Listed(d, n) + ["@" + n], n, f);
      forall i | 0 <= i < |r.trail| ensures Sound(r.trail[i]) {
        StillSound(d, r.trail[i], n);
      }
    }
  }

  // Once it reports success the slate, everything nested in it and all its checkpoints are gone,
  // and exactly those.
  lemma DiscardExact(d: Disk, b: Option<Booted>, n: string, f: DeleteFaults)
    requires Sound(d) && DiscardRun(d, b, n, f).error == None
    ensures var x := End(d, DiscardRun(d, b, n, f).trail);
            forall k :: k in x.subvols <==> k in d.subvols && !Family(k, n)
  {
    hide Sound, Listed, DeleteList, ValidName, OfSlate, MatchCkpt;
    var ps := Listed(d, n) + ["@" + n];
    DiscardedOfSlate(d, n);
    DeleteListOnly(d, d, ps, n, f);
    var x := End(d, DeleteList(d, ps, f).trail);
    forall k | k in x.subvols ensures !Family(k, n) {
      GoneFamily(d, x, k, n);
    }
  }

  lemma GoneFamily(d: Disk, x: Disk, k: string, n: string)
    requires ValidName(n) && k in d.subvols && k in x.subvols && AllGone(x, Listed(d, n) + ["@" + n])
    ensures !Family(k, n)
  {
    hide MatchCkpt, Listed, ValidName;
    ListedIs(d, n);
    ValidIsPlain(n);
    ValidNotEmpty(n);
    TopUnique(k, "@" + n);
    var q := Listed(d, n);
    var ps := q + ["@" + n];
    assert ps[|q|] == "@" + n;
    assert !Within(k, ps[|q|]);
    forall i | 0 <= i < |q| ensures k != q[i] {
      assert ps[i] == q[i];
      assert !Within(k, ps[i]);
    }
    assert k !in q;
  }

  // The listed subvolumes exist and are not parts of one another, so each deletion finds its target.
  ghost predicate Deletable(d: Disk, ps: seq<string>) {
    && (forall i | 0 <= i < |ps| :: ps[i] in d.subvols)
    && (forall i, j | 0 <= i < |ps| && 0 <= j < |ps| && i != j :: !Within(ps[i], ps[j]))
  }

  lemma RestDeletable(d: Disk, x: Disk, ps: seq<string>, i: nat)
    requires i < |ps| && Shrunk(d, x, ps[i]) && Deletable(d, ps[i..])
    ensures Deletable(x, ps[i + 1..])
  {
    var q, rest := ps[i..], ps[i + 1..];
    forall j | 0 <= j < |rest| ensures rest[j] in x.subvols {
      assert rest[j] == q[j + 1] && q[0] == ps[i];
      assert !Within(q[j + 1], q[0]);
    }
    forall j, k | 0 <= j < |rest| && 0 <= k < |rest| && j != k ensures !Within(rest[j], rest[k]) {
      assert rest[j] == q[j + 1] && rest[k] == q[k + 1];
    }
  }

  lemma DiscardedDeletable(d: Disk, n: string)
    requires ValidName(n) && "@" + n in d.subvols
    ensures Deletable(d, Listed(d, n) + ["@" + n])
  {
    hide Listed, MatchCkpt;
    ListedIs(d, n);
    ValidIsPlain(n);
    var q := Listed(d, n);
    var ps := q + ["@" + n];
    SlateInFamily(n);
    forall i | 0 <= i < |q| ensures q[i] in d.subvols && CkptOf(q[i], n) {
      assert q[i] in q;
      assert q[i] in Listing(d, n);
    }
    forall i, j | 0 <= i < |ps| && 0 <= j < |ps| && i != j ensures !Within(ps[i], ps[j]) {
      if i < |q| {
        CkptIsNotInTree(q[i], n, n);
        CkptIsTop(q[i], n);
      }
      InsideHasSlash(ps[i], ps[j]);
    }
  }

  lemma {:induction false} DeleteListSucceeds(d: Disk, ps: seq<string>, f: DeleteFaults)
    requires Deletable(d, ps) && Deletes(f)
    ensures DeleteList(d, ps, f).error == None
    decreases |ps|
  {
    hide GoDelete, Tree;
    if ps != [] {
      DeleteClears(d, ps[0], f);
      var x := End(d, GoDelete(d, ps[0], f));
      GoDeleteShrinks(d, ps[0], f);
      InOwnTree(d, ps[0]);
      assert ps[0..] == ps;
      RestDeletable(d, x, ps, 0);
      DeleteListSucceeds(x, ps[1..], f);
    }
  }

  lemma InOwnTree(d: Disk, p: string)
    requires p in d.subvols
    ensures p in Tree(d, p)
  {
  }

  // It succeeds exactly for a slate that exists, is not running and has a slate's name.
  lemma DiscardSucceeds(d: Disk, b: Option<Booted>, n: string, f: DeleteFaults)
    requires Deletes(f)
    ensures DiscardRun(d, b, n, f).error == None
       <==> ValidName(n) && "@" + n in d.subvols && !RunsOn(b, "@" + n)
  {
    hide Listed, DeleteList, ValidName, Deletable;
    if ValidName(n) && "@" + n in d.subvols {
      DiscardedDeletable(d, n);
      DeleteListSucceeds(d, Listed(d, n) + ["@" + n], f);
    }
  }

  // -------------------------------------------------------------------------
  // Pruning in Go and in the hook
  // -------------------------------------------------------------------------

  lemma {:induction false} DeleteListClears(d: Disk, todo: seq<string>, n: string, f: DeleteFaults)
    requires Sound(d) && ValidName(n) && Deletes(f) && Prunable(d, todo, n)
    ensures End(d, DeleteList(d, todo, f).trail) == Remove(d, Elements(todo))
    decreases |todo|
  {
    hide Sound, GoDelete, MatchCkpt;
    if todo == [] {
      assert d.subvols - {} == d.subvols;
    } else {
      var p, rest := todo[0], todo[1..];
      NothingInsideCkpt(d, p, n);
      DeleteClears(d, p, f);
      var x := Remove(d, {p});
      SoundSubset(d, x);
      RestPrunable(d, todo, n);
      DeleteListClears(x, rest, n, f);
      EndConcat(d, GoDelete(d, p, f), DeleteList(x, rest, f).trail);
    }
  }

  lemma DropPrunable(d: Disk, n: string, keep: nat)
    requires Sound(d) && ValidName(n)
    ensures Prunable(d, HookDrop(d, "@" + n, keep), n)
  {
    hide Sound, HookDrop, MatchCkpt;
    DropIsAuto(d, n, keep);
    DropIsDistinct(d, "@" + n, keep);
    var q := HookDrop(d, "@" + n, keep);
    assert forall i | 0 <= i < |q| :: q[i] in q;
  }

  // With all numbers below 10000 and one retention count, the text-sorted pruning of the hook
  // and the number-sorted pruning of Go leave the same store.
  lemma PruningAgrees(d: Disk, n: string, f: DeleteFaults, g: DeleteFaults)
    requires Sound(d) && ValidName(n) && Below10000(d, n) && Deletes(f) && Deletes(g)
    requires HookRetain(d.config) == ConfigRetain(d.config)
    ensures End(d, PruneTrail(d, "@" + n, f)) == End(d, GoPruneRun(d, n, g).trail)
  {
    hide Sound, HookDrop, GoDrop, DeleteList, PruneTrail, Below10000, HookRetain, ConfigRetain;
    var keep := HookRetain(d.config);
    DropsAgree(d, n, keep);
    DropPrunable(d, n, keep);
    PruneClears(d, n, f);
    DeleteListClears(d, GoDrop(d, n, keep), n, g);
  }

  // -------------------------------------------------------------------------
  // The boot record
  // -------------------------------------------------------------------------

  lemma TrimSolid(s: string)
    requires s != "" && !GoSpace(s[0]) && !GoSpace(s[|s| - 1])
    ensures TrimSpace(s) == s
  {
  }

  lemma FactOf(facts: Facts, key: string, v: string)
    requires v != "" && !GoSpace(v[0]) && !GoSpace(v[|v| - 1])
    requires key in facts ==> facts[key] == v
    ensures Fact(facts, key) == if key in facts then v else ""
  {
    hide TrimSpace;
    TrimSolid(v);
  }

  lemma FactsAre(name: string, mode: string, basis: string, ckpt: string, requested: string, lost: set<string>)
    ensures var m := WriteFacts(name, mode, basis, ckpt, requested, lost);
      && ("slate" in m <==> "slate" !in lost) && ("slate" in m ==> m["slate"] == name)
      && ("mode" in m <==> "mode" !in lost) && ("mode" in m ==> m["mode"] == mode)
      && ("basis" in m <==> "basis" !in lost) && ("basis" in m ==> m["basis"] == basis)
      && ("checkpoint" in m <==> "checkpoint" !in lost) && ("checkpoint" in m ==> m["checkpoint"] == ckpt)
      && ("requested" in m <==> "requested" !in lost) && ("requested" in m ==> m["requested"] == requested)
  {
    var s, o, b, c, r := "slate", "mode", "basis", "checkpoint", "requested";
    assert |s| == 5 && |o| == 4 && |b| == 5 && |c| == 10 && |r| == 9 && s[0] == 's' && b[0] == 'b';
    var m: Facts := map[s := name, o := mode, b := basis, c := ckpt, r := requested];
    assert m[s] == name && m[o] == mode && m[b] == basis && m[c] == ckpt && m[r] == requested;
    assert WriteFacts(name, mode, basis, ckpt, requested, lost) == m - lost;
  }

  // What is recorded of a persistent boot of n is true, however much of it was lost.
  predicate RecordTrue(facts: Facts, n: string) {
    && ("slate" in facts ==> facts["slate"] == n)
    && ("mode" in facts ==> facts["mode"] == PERSISTENT)
    && ("basis" in facts ==> facts["basis"] == "@" + n)
  }

  lemma HookRecordsTruth(n: string, ckpt: string, lost: set<string>)
    requires ValidName(n)
    ensures RecordTrue(WriteFacts(DisplayName("@" + n), "persistent", "@" + n, ckpt, "@" + n, lost), n)
  {
    hide WriteFacts, ValidName;
    SlateReads(n);
    FactsAre(n, "persistent", "@" + n, ckpt, "@" + n, lost);
  }

  lemma PersistentIs(s: string)
    requires s == PERSISTENT
    ensures s != "" && !GoSpace(s[0]) && !GoSpace(s[|s| - 1]) && s != UNKNOWN
  {
    assert s[0] == 'p' && s[|s| - 1] == 't' && UNKNOWN[0] == 'u';
  }

  lemma SlateReads(n: string)
    requires ValidName(n)
    ensures n != "" && !GoSpace(n[0]) && !GoSpace(n[|n| - 1])
    ensures var s := "@" + n; !GoSpace(s[0]) && !GoSpace(s[|s| - 1])
    ensures DisplayName("@" + n) == n
    ensures "@" + n != RUNTIME && "@" + n != BASELINE
  {
    ValidNameIsPlain(n);
    ValidNameIsValidSubvol(n);
    assert ("@" + n)[|n|] == n[|n| - 1];
  }

  // The record says that n is running, unless the slate's name was written and the basis or the
  // mode was not.
  lemma RecordTells(facts: Facts, cmdline: string, n: string)
    requires ValidName(n) && GoSubvol(cmdline) == Some("@" + n) && RecordTrue(facts, n)
    ensures RunsOn(BootRecord(facts, cmdline), "@" + n)
       <==> "slate" !in facts || ("basis" in facts && "mode" in facts)
  {
    hide TrimSpace, Fact, ValidName, GoSpace, GoSubvol, DisplayName;
    SlateReads(n);
    PersistentIs(PERSISTENT);
    FactOf(facts, "slate", n);
    FactOf(facts, "mode", PERSISTENT);
    FactOf(facts, "basis", "@" + n);
  }

  // -------------------------------------------------------------------------
  // Naming a slate as the source of a fork
  // -------------------------------------------------------------------------

  // Some checkpoint of any slate carries the number that the text spells.
  predicate Numbered(d: Disk, from: string) {
    Atoi(from).Some? && exists k :: k in d.subvols && MatchCkpt(k).Some? && SeqOf(k) == Atoi(from).value
  }

  lemma FindByNumber(d: Disk, from: string)
    requires ValidName(from)
    ensures Find(d, from, "").Some? <==> Numbered(d, from)
    ensures Find(d, from, "").Some? ==> '.' in Find(d, from, "").value
  {
    hide MatchCkpt, SeqOf, Atoi, Listed;
    ValidNotEmpty(from);
    ValidIsPlain(from);
    NoDotNoMatch(from);
    CutHasMark(from, '.');
    ListedIs(d, "");
    if Atoi(from).Some? {
      FirstNumberedIs(Listed(d, ""), Atoi(from).value);
      var r := FirstNumbered(Listed(d, ""), Atoi(from).value);
      if r.Some? {
        assert r.value in Listing(d, "");
        MatchHasDot(r.value);
      }
      assert forall k | k in d.subvols && MatchCkpt(k).Some? :: k in Listing(d, "");
    }
  }

  lemma CutHasMark(s: string, c: char)
    ensures CutLast(s, c).Some? ==> c in s
  {
    var r := CutLast(s, c);
    if r.Some? {
      assert s[|r.value.0|] == c;
    }
  }

  // What runs, or was the basis of what runs, is this subvolume, and it is no rescue boot.
  predicate RanFrom(b: Option<Booted>, subvol: string) {
    b.Some? && b.value.mode != RESCUE && b.value.basis == subvol
  }

  // When a fork from a slate's name takes that slate. The slate called `current` is taken only if
  // it is what runs, whatever exists; any other exactly when it exists and its name is not a
  // number some checkpoint carries: then the checkpoint is taken, whichever slate it is of.
  lemma SlateAsSource(d: Disk, b: Option<Booted>, from: string)
    requires ValidName(from)
    ensures ForkSource(d, b, from) == Ok("@" + from)
       <==> if from == CURRENT then RanFrom(b, "@" + from) else "@" + from in d.subvols && !Numbered(d, from)
    ensures Numbered(d, from) ==>
              Find(d, from, "").Some? && ForkSource(d, b, from) == Ok(Find(d, from, "").value)
  {
    hide Find, Numbered, ForkSource, ValidName, Atoi, TrimPrefix;
    var r := ForkSource(d, b, from);
    if from == CURRENT {
      CurrentSource(d, b, r);
      CurrentIsNoNumber(d);
    } else {
      ForkSourceNamed(d, b, from, r);
      FindByNumber(d, from);
      AtNoDot(from);
    }
  }

  lemma CurrentSource(d: Disk, b: Option<Booted>, r: Result<string>)
    requires r == ForkSource(d, b, CURRENT)
    ensures r == if b.None? then Err(NoBootRecord)
                 else if b.value.mode == RESCUE then Err(NoSlateRunning) else Ok(b.value.basis)
  {
  }

  lemma CurrentIsNoNumber(d: Disk)
    ensures !Numbered(d, CURRENT)
  {
    assert CURRENT[0] == 'c' && !IsDigit(CURRENT[0]);
  }

  lemma CurrentIsName()
    ensures ValidName(CURRENT)
  {
    assert |CURRENT| == 7 && CURRENT[0] == 'c' && ("@" + CURRENT)[1] == 'c';
    assert BASELINE[1] == 'b' && RUNTIME[1] == 'r' && HOSTID[1] == 'h';
    assert forall i | 0 <= i < 7 :: 'a' <= CURRENT[i] <= 'z';
  }

  lemma AtNoDot(from: string)
    requires ValidName(from)
    ensures '.' !in "@" + from
  {
    ValidIsPlain(from);
  }

  lemma ForkSourceNamed(d: Disk, b: Option<Booted>, from: string, r: Result<string>)
    requires ValidName(from) && from != CURRENT && r == ForkSource(d, b, from)
    ensures var c := Find(d, from, "");
            r == if c.Some? then Ok(c.value)
                 else if "@" + from in d.subvols then Ok("@" + from) else Err(NoSuchSource)
  {
    hide Find;
    NotKeywords(from);
  }

  lemma NotKeywords(from: string)
    requires ValidName(from)
    ensures from != "" && from != THE_BASELINE && TrimPrefix(from, "@") == from
  {
    assert NameChar(from[0]) && from[0] != '@';
  }

  // With an at sign before it a slate's name is never taken for anything else.
  lemma SlateWithAtSign(d: Disk, b: Option<Booted>, n: string)
    requires ValidName(n)
    ensures ForkSource(d, b, "@" + n) == if "@" + n in d.subvols then Ok("@" + n) else Err(NoSuchSource)
  {
    hide Find, ValidName;
    AtNoDot(n);
    AtFindsNothing(d, "@" + n);
    assert ("@" + n)[0] == '@' && CURRENT[0] == 'c' && THE_BASELINE[0] == 'b' && ("@" + n)[1..] == n;
  }

  lemma AtFindsNothing(d: Disk, ref: string)
    requires '.' !in ref && ref != "" && ref[0] == '@'
    ensures Find(d, ref, "") == None
  {
    NoDotNoMatch(ref);
    CutHasMark(ref, '.');
    assert !IsDigit(ref[0]);
  }
}
