/** The commands on a running system: what each does to the store and when it refuses, and the
    commands themselves, changing the store in place. */
module Ops {
  import opened Text
  import opened Decimal
  import opened Names
  import opened Staged
  import opened Config
  import opened Entries
  import opened Store
  import opened Sorting
  import opened Checkpoints
  import opened Pruning
  import opened Hook
  import opened HookSafety

  const PERSISTENT := "persistent"
  const SCRATCH := "scratch"
  const RESCUE := "rescue"
  const UNKNOWN := "unknown"
  const TEMPLATE := "main"

  // The words that `--from` takes for the running slate and for the baseline.
  const CURRENT := "current"
  const THE_BASELINE := "baseline"

  datatype Error = InvalidName | SlateExists | NoSuchSlate | NoSuchSource | NoBootRecord | NoSlateRunning
                 | Incomplete(paths: seq<string>) | NoSuchCheckpoint | SlateIsRunning | CommandFailed

  datatype Result<+T> = Ok(value: T) | Err(error: Error)

  // The store after every command that changed it, and the error reported, if any.
  datatype Done = Done(trail: seq<Disk>, error: Option<Error>)

  // Which commands fail: a snapshot, finding or writing a boot entry, writing the staged file,
  // listing and deleting subvolumes.
  datatype CliFaults = CliFaults(snapshot: bool, entry: bool, write: bool, deletes: DeleteFaults)

  // -------------------------------------------------------------------------
  // How the running system was booted
  // -------------------------------------------------------------------------

  datatype Booted = Booted(name: string, mode: string, basis: string, checkpoint: string,
                           requested: string, fromCmdline: bool)

  // A fact's file holds the value and a newline, which trimming removes; a missing one reads "".
  function Fact(facts: Facts, key: string): string {
    if key in facts then TrimSpace(facts[key]) else ""
  }

  function BootedFromFacts(facts: Facts): Booted {
    var mode := Fact(facts, "mode");
    Booted(Fact(facts, "slate"), if mode == "" then UNKNOWN else mode, Fact(facts, "basis"),
           Fact(facts, "checkpoint"), Fact(facts, "requested"), false)
  }

  function ModeOf(subvol: string): string {
    if subvol == RUNTIME then SCRATCH else if subvol == BASELINE then RESCUE else PERSISTENT
  }

  function BootedFromCmdline(cmdline: string): Option<Booted> {
    var s := GoSubvol(cmdline);
    if s.None? then None
    else Some(Booted(DisplayName(s.value), ModeOf(s.value), s.value, "", "", true))
  }

  // ReadBooted: the boot record if it names a slate, else the command line.
  function BootRecord(facts: Facts, cmdline: string): Option<Booted> {
    if Fact(facts, "slate") != "" then Some(BootedFromFacts(facts)) else BootedFromCmdline(cmdline)
  }

  method ReadBooted(facts: Facts, cmdline: string) returns (b: Option<Booted>)
    ensures b == BootRecord(facts, cmdline)
  {
    hide TrimSpace, DisplayName;
    var name := Fact(facts, "slate");
    if name != "" {
      var r := Booted(name, Fact(facts, "mode"), Fact(facts, "basis"), Fact(facts, "checkpoint"),
                      Fact(facts, "requested"), false);
      if r.mode == "" {
        r := r.(mode := UNKNOWN);
      }
      return Some(r);
    }
    var s := ParseCmdlineSubvol(cmdline);
    if s.None? {
      return None;
    }
    var r := Booted(DisplayName(s.value), "", s.value, "", "", true);
    if s.value == RUNTIME {
      r := r.(mode := SCRATCH);
    } else if s.value == BASELINE {
      r := r.(mode := RESCUE);
    } else {
      r := r.(mode := PERSISTENT);
    }
    return Some(r);
  }

  // This boot deliberately left no rollback point.
  predicate AutoCheckpointOff(b: Booted) { b.checkpoint == "disabled" }

  // The boot fell back to something other than what was asked for.
  predicate Diverged(b: Booted) { b.requested != "" && b.basis != "" && b.requested != b.basis }

  predicate RunsOn(b: Option<Booted>, subvol: string) {
    b.Some? && b.value.basis == subvol && b.value.mode == PERSISTENT
  }

  // -------------------------------------------------------------------------
  // Fork
  // -------------------------------------------------------------------------

  ghost function ForkSource(d: Disk, b: Option<Booted>, from: string): Result<string> {
    if from == "" || from == CURRENT then
      if b.None? then Err(NoBootRecord)
      else if b.value.mode == RESCUE then Err(NoSlateRunning)
      else Ok(b.value.basis)
    else if from == THE_BASELINE then Ok(BASELINE)
    else if Find(d, from, "").Some? then Ok(Find(d, from, "").value)
    else
      var subvol := "@" + TrimPrefix(from, "@");
      if subvol in d.subvols then Ok(subvol) else Err(NoSuchSource)
  }

  function EntryRun(d: Disk, name: string, fault: bool): Done {
    if fault || TEMPLATE !in d.entries then Done([], Some(CommandFailed))
    else Done([d.(entries := d.entries[name := RewriteEntry(d.entries[TEMPLATE], name, "@" + name)])], None)
  }

  ghost function ForkRun(d: Disk, b: Option<Booted>, name: string, from: string, bls: bool, f: CliFaults): Done {
    if !ValidName(name) then Done([], Some(InvalidName))
    else if "@" + name in d.subvols then Done([], Some(SlateExists))
    else
      var src := ForkSource(d, b, from);
      if src.Err? then Done([], Some(src.error))
      else if f.snapshot || !CanSnap(d, src.value, "@" + name) then Done([], Some(CommandFailed))
      else
        var d1 := Snap(d, src.value, "@" + name, false);
        if !bls then Done([d1], None)
        else
          var e := EntryRun(d1, name, f.entry);
          Done([d1] + e.trail, e.error)
  }

  // -------------------------------------------------------------------------
  // Rollback and reset
  // -------------------------------------------------------------------------

  // Writing the staged file first empties it.
  function StageRun(d: Disk, p: Pending, fault: bool): Done {
    if p.slate == "" || p.source == "" then Done([], Some(NoSuchSlate))
    else if p.source !in d.subvols then Done([], Some(NoSuchSource))
    else if fault then Done([], Some(CommandFailed))
    else Done([d.(staged := Some("")), d.(staged := Some(StagedText(p)))], None)
  }

  function RollbackTo(c: string): Pending {
    Pending("@" + SlateOf(c), c, "rollback to checkpoint " + Ref(c))
  }

  ghost function RollbackRun(d: Disk, b: Option<Booted>, ref: string, f: CliFaults): Done {
    var c := Find(d, ref, if b.Some? then b.value.name else "");
    if c.None? then Done([], Some(NoSuchCheckpoint)) else StageRun(d, RollbackTo(c.value), f.write)
  }

  function ResetOf(name: string): Pending { Pending("@" + name, BASELINE, "reset to the baseline") }

  // The slate named, or the one running.
  function ResetTarget(b: Option<Booted>, name: Option<string>): string {
    if name.Some? then name.value
    else if b.Some? && b.value.mode == PERSISTENT then b.value.name
    else ""
  }

  function ResetRun(d: Disk, name: string, f: CliFaults): Done {
    if !ValidName(name) then Done([], Some(InvalidName))
    else if "@" + name !in d.subvols then Done([], Some(NoSuchSlate))
    else StageRun(d, ResetOf(name), f.write)
  }

  // -------------------------------------------------------------------------
  // Checkpoints
  // -------------------------------------------------------------------------

  // Paths of nested subvolumes relative to the slate's root; one that would be empty is skipped.
  function NestedPaths(d: Disk, n: string): set<string> {
    set k | k in d.subvols && Inside(k, "@" + n) && |k| > |n| + 2 :: k[|n| + 2..]
  }

  predicate Listable(d: Disk, n: string, f: DeleteFaults) { "@" + n in d.subvols && "@" + n !in f.noList }

  ghost function CheckpointRun(d: Disk, n: string, message: string, allowIncomplete: bool, f: CliFaults): Done {
    if !ValidName(n) then Done([], Some(InvalidName))
    else if !allowIncomplete && Listable(d, n, f.deletes) && NestedPaths(d, n) != {}
      then Done([], Some(Incomplete(TextSorted(NestedPaths(d, n)))))
    else if "@" + n !in d.subvols then Done([], Some(NoSuchSlate))
    else
      var c := CkptName(n, MaxSeq(d, n) + 1, if message == "" then AUTO else KEEP);
      if f.snapshot || !CanSnap(d, "@" + n, c) then Done([], Some(CommandFailed))
      else Done([Snap(d, "@" + n, c, true)], None)
  }

  // The command gives every checkpoint a message, so all it makes are kept.
  function MessageOr(message: string): (r: string)
    ensures r != "" && (message != "" ==> r == message)
  {
    if message == "" then "kept" else message
  }

  ghost function CheckpointCommand(d: Disk, b: Option<Booted>, message: string, allowIncomplete: bool, f: CliFaults): Done {
    if b.None? then Done([], Some(NoBootRecord))
    else if b.value.mode != PERSISTENT then Done([], Some(NoSlateRunning))
    else CheckpointRun(d, b.value.name, MessageOr(message), allowIncomplete, f)
  }

  // -------------------------------------------------------------------------
  // Discarding and pruning
  // -------------------------------------------------------------------------

  function After(done: seq<Disk>, r: Done): Done { Done(done + r.trail, r.error) }

  // Delete each, stopping at the first failure.
  ghost function DeleteList(d: Disk, ps: seq<string>, f: DeleteFaults): Done
    decreases |ps|
  {
    if ps == [] then Done([], None)
    else
      var a := GoDelete(d, ps[0], f);
      if ps[0] !in d.subvols || ps[0] in End(d, a).subvols then Done(a, Some(CommandFailed))
      else After(a, DeleteList(End(d, a), ps[1..], f))
  }

  ghost function DiscardRun(d: Disk, b: Option<Booted>, n: string, f: DeleteFaults): Done {
    if !ValidName(n) then Done([], Some(InvalidName))
    else if "@" + n !in d.subvols then Done([], Some(NoSuchSlate))
    else if RunsOn(b, "@" + n) then Done([], Some(SlateIsRunning))
    else DeleteList(d, Listed(d, n) + ["@" + n], f)
  }

  function DropEntry(d: Disk, name: string, fault: bool): seq<Disk> {
    if fault || name !in d.entries then [] else [d.(entries := d.entries - {name})]
  }

  ghost function DiscardCommand(d: Disk, b: Option<Booted>, n: string, bls: bool, f: CliFaults): Done {
    var r := DiscardRun(d, b, n, f.deletes);
    if r.error.Some? || !bls then r
    else Done(r.trail + DropEntry(End(d, r.trail), n, f.entry), None)
  }

  function ConfigRetain(config: Option<string>): nat {
    if config.None? then RETAIN_DEFAULT else GoRetain(Split(config.value, '\n'))
  }

  ghost function GoPruneRun(d: Disk, n: string, f: DeleteFaults): Done {
    DeleteList(d, GoDrop(d, n, ConfigRetain(d.config)), f)
  }

  // -------------------------------------------------------------------------
  // The commands, step by step on the mounted filesystem root
  // -------------------------------------------------------------------------

  method ResolveForkSource(fs: FsRoot, b: Option<Booted>, from: string) returns (r: Result<string>)
    ensures r == ForkSource(fs.Now(), b, from)
  {
    if from == "" || from == CURRENT {
      if b.None? {
        return Err(NoBootRecord);
      }
      if b.value.mode == RESCUE {
        return Err(NoSlateRunning);
      }
      return Ok(b.value.basis);
    }
    if from == THE_BASELINE {
      return Ok(BASELINE);
    }
    var c := FindCheckpoint(fs, from, "");
    if c.Some? {
      return Ok(c.value);
    }
    var subvol := "@" + TrimPrefix(from, "@");
    if subvol !in fs.subvols {
      return Err(NoSuchSource);
    }
    return Ok(subvol);
  }

  method WriteBLSEntry(fs: FsRoot, name: string, fault: bool) returns (e: Option<Error>)
    modifies fs
    ensures var r := EntryRun(old(fs.Now()), name, fault);
            fs.trail == old(fs.trail) + r.trail && fs.Now() == End(old(fs.Now()), r.trail) && e == r.error
  {
    hide RewriteEntry;
    if fault || TEMPLATE !in fs.entries {
      return Some(CommandFailed);
    }
    var out := RewriteBLSEntry(fs.entries[TEMPLATE], name, "@" + name);
    fs.entries := fs.entries[name := out];
    fs.trail := fs.trail + [fs.Now()];
    return None;
  }

  method Fork(fs: FsRoot, b: Option<Booted>, name: string, from: string, bls: bool, f: CliFaults)
    returns (e: Option<Error>)
    modifies fs
    ensures var r := ForkRun(old(fs.Now()), b, name, from, bls, f);
            fs.trail == old(fs.trail) + r.trail && fs.Now() == End(old(fs.Now()), r.trail) && e == r.error
  {
    hide ForkSource, EntryRun, ValidName;
    if !ValidName(name) {
      return Some(InvalidName);
    }
    if "@" + name in fs.subvols {
      return Some(SlateExists);
    }
    var src := ResolveForkSource(fs, b, from);
    if src.Err? {
      return Some(src.error);
    }
    ghost var d := fs.Now();
    var ok := fs.Snapshot(src.value, "@" + name, false, f.snapshot);
    if !ok {
      return Some(CommandFailed);
    }
    if !bls {
      return None;
    }
    ghost var d1 := fs.Now();
    EndConcat(d, [d1], EntryRun(d1, name, f.entry).trail);
    e := WriteBLSEntry(fs, name, f.entry);
  }

  method StagePending(fs: FsRoot, p: Pending, fault: bool) returns (e: Option<Error>)
    modifies fs
    ensures var r := StageRun(old(fs.Now()), p, fault);
            fs.trail == old(fs.trail) + r.trail && fs.Now() == End(old(fs.Now()), r.trail) && e == r.error
  {
    hide StagedText;
    if p.slate == "" || p.source == "" {
      return Some(NoSuchSlate);
    }
    if p.source !in fs.subvols {
      return Some(NoSuchSource);
    }
    if fault {
      return Some(CommandFailed);
    }
    fs.staged := Some("");
    fs.trail := fs.trail + [fs.Now()];
    fs.staged := Some(StagedText(p));
    fs.trail := fs.trail + [fs.Now()];
    return None;
  }

  method Rollback(fs: FsRoot, b: Option<Booted>, ref: string, f: CliFaults) returns (e: Option<Error>)
    modifies fs
    ensures var r := RollbackRun(old(fs.Now()), b, ref, f);
            fs.trail == old(fs.trail) + r.trail && fs.Now() == End(old(fs.Now()), r.trail) && e == r.error
  {
    hide Find, StageRun, RollbackTo;
    var defaultSlate := "";
    if b.Some? {
      defaultSlate := b.value.name;
    }
    var c := FindCheckpoint(fs, ref, defaultSlate);
    if c.None? {
      return Some(NoSuchCheckpoint);
    }
    e := StagePending(fs, RollbackTo(c.value), f.write);
  }

  method Reset(fs: FsRoot, name: string, f: CliFaults) returns (e: Option<Error>)
    modifies fs
    ensures var r := ResetRun(old(fs.Now()), name, f);
            fs.trail == old(fs.trail) + r.trail && fs.Now() == End(old(fs.Now()), r.trail) && e == r.error
  {
    hide StageRun, ResetOf, ValidName;
    if !ValidName(name) {
      return Some(InvalidName);
    }
    if "@" + name !in fs.subvols {
      return Some(NoSuchSlate);
    }
    e := StagePending(fs, ResetOf(name), f.write);
  }

  // NestedIn: none when enumeration fails.
  method NestedIn(fs: FsRoot, n: string, f: DeleteFaults) returns (r: Option<seq<string>>)
    ensures r == if Listable(fs.Now(), n, f) then Some(TextSorted(NestedPaths(fs.Now(), n))) else None
  {
    hide Deepest, TextSorted;
    var ok, found := fs.ListNested("@" + n, f);
    if !ok {
      return None;
    }
    DeepestIs(fs.Now(), "@" + n);
    var out: seq<string> := [];
    for i := 0 to |found|
      invariant forall x :: x in out <==> exists j | 0 <= j < i :: |found[j]| > |n| + 2 && x == found[j][|n| + 2..]
      invariant forall a, b | 0 <= a < b < |out| :: out[a] != out[b]
    {
      assert "@" + n + "/" <= found[i] by {
        assert found[i] in Nested(fs.Now(), "@" + n);
      }
      var rel := found[i][|n| + 2..];
      if rel == "" {
        continue;
      }
      forall j | 0 <= j < i && |found[j]| > |n| + 2 ensures found[j][|n| + 2..] != rel {
        assert found[j] in Nested(fs.Now(), "@" + n);
        SameTail("@" + n + "/", found[j], found[i]);
      }
      assert rel !in out;
      out := out + [rel];
    }
    OutIsNested(fs.Now(), n, found, out);
    TextOrder();
    out := Sort(out, Before);
    TextSortedIs(NestedPaths(fs.Now(), n));
    return Some(out);
  }

  lemma TextSortedIs(s: set<string>)
    ensures StrictTotal(Before) && TextSorted(s) == Sorted(s, Before)
  {
    TextOrder();
  }

  lemma SameTail(p: string, a: string, b: string)
    requires p <= a && p <= b && a != b
    ensures a[|p|..] != b[|p|..]
  {
    assert a == p + a[|p|..] && b == p + b[|p|..];
  }

  lemma DeepestIs(d: Disk, p: string)
    ensures forall k :: k in Deepest(d, p) <==> k in Nested(d, p)
    ensures forall i, j | 0 <= i < j < |Deepest(d, p)| :: Deepest(d, p)[i] != Deepest(d, p)[j]
  {
    DeeperOrder();
    var q := Deepest(d, p);
    forall i, j | 0 <= i < j < |q| ensures q[i] != q[j] {
      assert Deeper(q[i], q[j]) && !Deeper(q[i], q[i]);
    }
  }

  lemma OutIsNested(d: Disk, n: string, found: seq<string>, out: seq<string>)
    requires forall k :: k in found <==> k in Nested(d, "@" + n)
    requires forall x :: x in out <==> exists j | 0 <= j < |found| :: |found[j]| > |n| + 2 && x == found[j][|n| + 2..]
    ensures Elements(out) == NestedPaths(d, n)
  {
    forall x ensures x in out <==> x in NestedPaths(d, n) {
      if x in NestedPaths(d, n) {
        var k :| k in d.subvols && Inside(k, "@" + n) && |k| > |n| + 2 && x == k[|n| + 2..];
        assert k in found;
      }
      if x in out {
        var j :| 0 <= j < |found| && |found[j]| > |n| + 2 && x == found[j][|n| + 2..];
        assert found[j] in found;
      }
    }
  }

  method CheckCapturable(fs: FsRoot, n: string, f: DeleteFaults) returns (e: Option<Error>)
    ensures e == if Listable(fs.Now(), n, f) && NestedPaths(fs.Now(), n) != {}
                 then Some(Incomplete(TextSorted(NestedPaths(fs.Now(), n)))) else None
  {
    var nested := NestedIn(fs, n, f);
    TextSortedIs(NestedPaths(fs.Now(), n));
    if nested.None? || |nested.value| == 0 {
      return None;
    }
    return Some(Incomplete(nested.value));
  }

  method CreateCheckpoint(fs: FsRoot, n: string, message: string, allowIncomplete: bool, f: CliFaults)
    returns (e: Option<Error>)
    modifies fs
    ensures var r := CheckpointRun(old(fs.Now()), n, message, allowIncomplete, f);
            fs.trail == old(fs.trail) + r.trail && fs.Now() == End(old(fs.Now()), r.trail) && e == r.error
  {
    hide MaxSeq, NestedPaths, TextSorted, CkptName;
    if !ValidName(n) {
      return Some(InvalidName);
    }
    if !allowIncomplete {
      e := CheckCapturable(fs, n, f.deletes);
      if e.Some? {
        return;
      }
    }
    if "@" + n !in fs.subvols {
      return Some(NoSuchSlate);
    }
    var class_ := KEEP;
    if message == "" {
      class_ := AUTO;
    }
    var number := NextSeq(fs, n);
    var ok := fs.Snapshot("@" + n, CkptName(n, number, class_), true, f.snapshot);
    return if ok then None else Some(CommandFailed);
  }

  method Checkpoint(fs: FsRoot, b: Option<Booted>, message: string, allowIncomplete: bool, f: CliFaults)
    returns (e: Option<Error>)
    modifies fs
    ensures var r := CheckpointCommand(old(fs.Now()), b, message, allowIncomplete, f);
            fs.trail == old(fs.trail) + r.trail && fs.Now() == End(old(fs.Now()), r.trail) && e == r.error
  {
    hide CheckpointRun;
    if b.None? {
      return Some(NoBootRecord);
    }
    if b.value.mode != PERSISTENT {
      return Some(NoSlateRunning);
    }
    e := CreateCheckpoint(fs, b.value.name, MessageOr(message), allowIncomplete, f);
  }

  lemma DeleteListStep(d: Disk, done: seq<Disk>, ps: seq<string>, i: nat, f: DeleteFaults)
    requires i < |ps| && DeleteList(d, ps, f) == After(done, DeleteList(End(d, done), ps[i..], f))
    ensures var x := End(d, done);
      var a := GoDelete(x, ps[i], f);
      var y := End(d, done + a);
      && y == End(x, a)
      && (if ps[i] !in x.subvols || ps[i] in y.subvols
          then DeleteList(d, ps, f) == Done(done + a, Some(CommandFailed)) && Dropped(x, ps[i..], f) == 0
          else DeleteList(d, ps, f) == After(done + a, DeleteList(y, ps[i + 1..], f))
               && Dropped(x, ps[i..], f) == 1 + Dropped(y, ps[i + 1..], f))
  {
    hide GoDelete;
    assert ps[i..][0] == ps[i] && ps[i..][1..] == ps[i + 1..];
    EndConcat(d, done, GoDelete(End(d, done), ps[i], f));
  }

  method DeleteCheckpoints(fs: FsRoot, ps: seq<string>, f: DeleteFaults) returns (dropped: nat, e: Option<Error>)
    modifies fs
    ensures var r := DeleteList(old(fs.Now()), ps, f);
            fs.trail == old(fs.trail) + r.trail && fs.Now() == End(old(fs.Now()), r.trail) && e == r.error
    ensures dropped == Dropped(old(fs.Now()), ps, f)
  {
    hide GoDelete, DeleteList, Dropped;
    ghost var d := fs.Now();
    ghost var done: seq<Disk> := [];
    dropped := 0;
    NothingListed(d, [], ps, f);
    for i := 0 to |ps|
      invariant fs.trail == old(fs.trail) + done && fs.Now() == End(d, done)
      invariant DeleteList(d, ps, f) == After(done, DeleteList(End(d, done), ps[i..], f))
      invariant Dropped(d, ps, f) == dropped + Dropped(End(d, done), ps[i..], f)
    {
      DeleteListStep(d, done, ps, i, f);
      done := done + GoDelete(fs.Now(), ps[i], f);
      var ok := DeleteRecursive(fs, ps[i], f);
      if !ok {
        return dropped, Some(CommandFailed);
      }
      dropped := dropped + 1;
    }
    assert ps[|ps|..] == [];
    NothingListed(fs.Now(), done, ps, f);
    return dropped, None;
  }

  lemma NothingListed(d: Disk, done: seq<Disk>, ps: seq<string>, f: DeleteFaults)
    ensures After(done, DeleteList(d, [], f)) == Done(done, None) && Dropped(d, [], f) == 0
    ensures ps[0..] == ps && After([], DeleteList(d, ps, f)) == DeleteList(d, ps, f)
  {
  }

  lemma ListedIs(d: Disk, n: string)
    ensures forall k :: k in Listed(d, n) <==> k in Listing(d, n)
    ensures forall i, j | 0 <= i < |Listed(d, n)| && 0 <= j < |Listed(d, n)| && i != j ::
              Listed(d, n)[i] != Listed(d, n)[j]
  {
    ByRefOrder();
    var q := Listed(d, n);
    forall i, j | 0 <= i < |q| && 0 <= j < |q| && i != j ensures q[i] != q[j] {
      assert ByRef(q[i], q[j]) || ByRef(q[j], q[i]);
      assert !ByRef(q[i], q[i]);
    }
  }

  method Discard(fs: FsRoot, b: Option<Booted>, n: string, f: DeleteFaults) returns (e: Option<Error>)
    modifies fs
    ensures var r := DiscardRun(old(fs.Now()), b, n, f);
            fs.trail == old(fs.trail) + r.trail && fs.Now() == End(old(fs.Now()), r.trail) && e == r.error
  {
    hide DeleteList, Listed;
    if !ValidName(n) {
      return Some(InvalidName);
    }
    if "@" + n !in fs.subvols {
      return Some(NoSuchSlate);
    }
    if b.Some? && b.value.basis == "@" + n && b.value.mode == PERSISTENT {
      return Some(SlateIsRunning);
    }
    var checkpoints := ListCheckpoints(fs, n);
    var _, err := DeleteCheckpoints(fs, checkpoints + ["@" + n], f);
    return err;
  }

  method DiscardSlate(fs: FsRoot, b: Option<Booted>, n: string, bls: bool, f: CliFaults) returns (e: Option<Error>)
    modifies fs
    ensures var r := DiscardCommand(old(fs.Now()), b, n, bls, f);
            fs.trail == old(fs.trail) + r.trail && fs.Now() == End(old(fs.Now()), r.trail) && e == r.error
  {
    hide DiscardRun;
    ghost var d := fs.Now();
    e := Discard(fs, b, n, f.deletes);
    if e.Some? || !bls {
      return;
    }
    EndConcat(d, DiscardRun(d, b, n, f.deletes).trail, DropEntry(fs.Now(), n, f.entry));
    if !f.entry && n in fs.entries {
      fs.entries := fs.entries - {n};
      fs.trail := fs.trail + [fs.Now()];
    }
  }

  // -------------------------------------------------------------------------
  // Pruning
  // -------------------------------------------------------------------------

  lemma {:induction false} SubOrdered(q: seq<string>, all: seq<string>, x: string)
    requires Ordered(all + [x], ByRef) && Ordered(q, ByRef) && forall y | y in q :: y in all
    ensures Ordered(q + [x], ByRef)
  {
    forall i | 0 <= i < |q| ensures ByRef(q[i], x) {
      assert q[i] in all;
      var j :| 0 <= j < |all| && all[j] == q[i];
      assert (all + [x])[j] == q[i] && (all + [x])[|all|] == x;
    }
  }

  lemma PrefixOrdered(q: seq<string>, i: nat)
    requires Ordered(q, ByRef) && i <= |q|
    ensures Ordered(q[..i], ByRef)
  {
  }

  // How many of a list are deleted before the first failure.
  ghost function Dropped(d: Disk, ps: seq<string>, f: DeleteFaults): (n: nat)
    ensures n <= |ps| && (n == |ps| <==> DeleteList(d, ps, f).error == None)
    decreases |ps|
  {
    if ps == [] then 0
    else
      var x := End(d, GoDelete(d, ps[0], f));
      if ps[0] !in d.subvols || ps[0] in x.subvols then 0 else 1 + Dropped(x, ps[1..], f)
  }

  // PruneAuto: the automatic checkpoints of the listing, oldest first, deleted but for the last.
  method PruneAuto(fs: FsRoot, n: string, f: DeleteFaults) returns (dropped: nat, e: Option<Error>)
    modifies fs
    ensures var r := GoPruneRun(old(fs.Now()), n, f);
            fs.trail == old(fs.trail) + r.trail && fs.Now() == End(old(fs.Now()), r.trail) && e == r.error
    ensures dropped == Dropped(old(fs.Now()), GoDrop(old(fs.Now()), n, ConfigRetain(old(fs.config))), f)
  {
    hide DeleteList, GoDrop, Listed, MatchCkpt, GoRetain, Dropped;
    var autos := ListAutos(fs, n);
    var keep := RetainAuto(fs.config);
    GoDropIs(fs.Now(), n, autos, keep);
    if |autos| <= keep {
      NothingListed(fs.Now(), [], [], f);
      return 0, None;
    }
    dropped, e := DeleteCheckpoints(fs, autos[..|autos| - keep], f);
  }

  method ListAutos(fs: FsRoot, n: string) returns (autos: seq<string>)
    ensures Ordered(autos, ByRef) && forall k :: k in autos <==> k in GoAutos(fs.Now(), n)
  {
    hide Listed, ByRef;
    var all := ListCheckpoints(fs, n);
    ListedOrdered(fs.Now(), n);
    autos := [];
    for i := 0 to |all|
      invariant Ordered(autos, ByRef)
      invariant forall k :: k in autos <==> k in all[..i] && k in GoAutos(fs.Now(), n)
    {
      assert all[..i + 1] == all[..i] + [all[i]];
      assert all[i] in all && all[i] in Listing(fs.Now(), n);
      if MatchCkpt(all[i]).value.class_ == AUTO {
        PrefixOrdered(all, i + 1);
        SubOrdered(autos, all[..i], all[i]);
        autos := autos + [all[i]];
      }
    }
    assert all[..|all|] == all;
  }

  lemma ListedOrdered(d: Disk, n: string)
    ensures Ordered(Listed(d, n), ByRef) && forall k :: k in Listed(d, n) <==> k in Listing(d, n)
  {
    ByRefOrder();
  }

  lemma GoDropIs(d: Disk, n: string, autos: seq<string>, keep: nat)
    requires Ordered(autos, ByRef) && forall k :: k in autos <==> k in GoAutos(d, n)
    ensures GoDrop(d, n, keep) == AllBut(autos, keep)
  {
    ByRefOrder();
    SortedUnique(autos, GoAutos(d, n), ByRef);
  }
}
