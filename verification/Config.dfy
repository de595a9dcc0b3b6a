/** The machine's settings file, read by Go line by line and by the hook with sed. */
module Config {
  import opened Text
  import opened Decimal
  import Staged

  const RETAIN_KEY := "retain_auto="
  const AUTO_KEY := "auto_checkpoint="
  const RETAIN_DEFAULT: nat := 10
  const INT64_LIMIT: nat := 0x8000_0000_0000_0000

  predicate OffWord(v: string) { v == "off" || v == "no" || v == "false" || v == "0" }

  // -------------------------------------------------------------------------
  // Go
  // -------------------------------------------------------------------------

  // The number a line sets for Go, if it sets one: strconv.Atoi on 64 bits, not negative.
  function GoRetainLine(line: string): Option<nat> {
    var t := TrimSpace(line);
    if !(RETAIN_KEY <= t) then None
    else
      var n := Atoi(t[|RETAIN_KEY|..]);
      if n.Some? && 0 <= n.value < INT64_LIMIT then Some(n.value) else None
  }

  predicate GoAutoOffLine(line: string) {
    var t := TrimSpace(line);
    AUTO_KEY <= t && OffWord(TrimSpace(t[|AUTO_KEY|..]))
  }

  predicate GoAutoOff(lines: seq<string>) {
    exists i | 0 <= i < |lines| :: GoAutoOffLine(lines[i])
  }

  // RetainAuto: the first line that sets a number; the default when the file is missing or
  // sets none.
  method RetainAuto(config: Option<string>) returns (n: nat)
    ensures config.None? ==> n == RETAIN_DEFAULT
    ensures config.Some? ==> n == GoRetain(Split(config.value, '\n'))
  {
    if config.None? {
      return RETAIN_DEFAULT;
    }
    var lines := Split(config.value, '\n');
    for i := 0 to |lines|
      invariant GoRetain(lines) == GoRetain(lines[i..])
    {
      assert lines[i..][0] == lines[i] && lines[i..][1..] == lines[i + 1..];
      var t := TrimSpace(lines[i]);
      if RETAIN_KEY <= t {
        var v := Atoi(t[|RETAIN_KEY|..]);
        if v.Some? && 0 <= v.value < INT64_LIMIT {
          return v.value;
        }
      }
    }
    return RETAIN_DEFAULT;
  }

  function GoRetain(lines: seq<string>): nat {
    if lines == [] then RETAIN_DEFAULT
    else if GoRetainLine(lines[0]).Some? then GoRetainLine(lines[0]).value
    else GoRetain(lines[1..])
  }

  // AutoCheckpointEnabled: off if any line says so.
  method AutoCheckpointEnabled(config: Option<string>) returns (on: bool)
    ensures config.None? ==> on
    ensures config.Some? ==> (on <==> !GoAutoOff(Split(config.value, '\n')))
  {
    if config.None? {
      return true;
    }
    var lines := Split(config.value, '\n');
    for i := 0 to |lines|
      invariant forall j | 0 <= j < i :: !GoAutoOffLine(lines[j])
    {
      var t := TrimSpace(lines[i]);
      if AUTO_KEY <= t {
        if OffWord(TrimSpace(t[|AUTO_KEY|..])) {
          assert GoAutoOffLine(lines[i]);
          return false;
        }
      }
    }
    return true;
  }

  // -------------------------------------------------------------------------
  // The hook
  // -------------------------------------------------------------------------

  // sed -n 's/^retain_auto=\([0-9][0-9]*\)$/\1/p'
  function SedRetain(lines: seq<string>): seq<string> {
    if lines == [] then []
    else
      var l := lines[0];
      var v := if RETAIN_KEY <= l then l[|RETAIN_KEY|..] else "";
      (if v != "" && AllDigits(v) then [v] else []) + SedRetain(lines[1..])
  }

  // retain_auto: the last number set, read in decimal.
  function HookRetain(config: Option<string>): nat {
    if config.None? then RETAIN_DEFAULT else HookRetainIn(Split(config.value, '\n'))
  }

  function HookRetainIn(lines: seq<string>): nat {
    var v := Staged.TailOne(SedRetain(lines));
    if v != "" && AllDigits(v) then Value(v) else RETAIN_DEFAULT
  }

  // auto_checkpoint_enabled: the last value decides.
  predicate HookAutoOn(config: Option<string>) {
    config.None? || !HookAutoOff(Split(config.value, '\n'))
  }

  predicate HookAutoOff(lines: seq<string>) {
    OffWord(Staged.TailOne(Staged.SedPrint(lines, AUTO_KEY)))
  }

  // -------------------------------------------------------------------------
  // When the two readers agree
  // -------------------------------------------------------------------------

  // No line that mentions a key carries surrounding blanks or a number out of range.
  predicate CleanLine(line: string) {
    var t := TrimSpace(line);
    && (RETAIN_KEY <= t ==>
          var v := t[|RETAIN_KEY|..];
          t == line && v != "" && AllDigits(v) && Value(v) < INT64_LIMIT)
    && (AUTO_KEY <= t ==> t == line && TrimSpace(t[|AUTO_KEY|..]) == t[|AUTO_KEY|..])
    && (RETAIN_KEY <= line ==> RETAIN_KEY <= t) && (AUTO_KEY <= line ==> AUTO_KEY <= t)
  }

  predicate CleanLines(lines: seq<string>) {
    forall i | 0 <= i < |lines| :: CleanLine(lines[i])
  }

  // The number the first of some texts stands for.
  function NumberOr(vs: seq<string>, otherwise: nat): nat {
    if vs != [] && AllDigits(vs[0]) then Value(vs[0]) else otherwise
  }

  predicate Numeral(v: string) { v != "" && AllDigits(v) }

  lemma RetainLine(line: string)
    requires CleanLine(line)
    ensures RETAIN_KEY <= line ==>
      Numeral(line[|RETAIN_KEY|..]) && GoRetainLine(line) == Some(Value(line[|RETAIN_KEY|..]))
    ensures !(RETAIN_KEY <= line) ==> GoRetainLine(line) == None
  {
    if RETAIN_KEY <= line {
      var v := line[|RETAIN_KEY|..];
      assert IsDigit(v[0]);
      assert Atoi(v) == Some(Value(v));
    }
  }

  lemma {:induction false} RetainReadings(lines: seq<string>)
    requires CleanLines(lines)
    ensures SedRetain(lines) == Staged.SedPrint(lines, RETAIN_KEY)
    ensures forall i | 0 <= i < |SedRetain(lines)| :: Numeral(SedRetain(lines)[i])
    ensures GoRetain(lines)
         == NumberOr(SedRetain(lines), RETAIN_DEFAULT)
  {
    if lines != [] {
      assert CleanLine(lines[0]);
      RetainLine(lines[0]);
      RetainReadings(lines[1..]);
    }
  }

  lemma {:induction false} AutoReadings(lines: seq<string>)
    requires CleanLines(lines)
    ensures GoAutoOff(lines) <==> AnyOff(Staged.SedPrint(lines, AUTO_KEY))
  {
    if lines != [] {
      AutoReadings(lines[1..]);
      assert CleanLine(lines[0]);
      AutoLine(lines[0]);
      GoAutoOffCons(lines);
      AnyOffConcat(Staged.Hit(lines[0], AUTO_KEY), Staged.SedPrint(lines[1..], AUTO_KEY));
    }
  }

  lemma AutoLine(line: string)
    requires CleanLine(line)
    ensures GoAutoOffLine(line) <==> AnyOff(Staged.Hit(line, AUTO_KEY))
  {
    if AUTO_KEY <= line {
      var v := line[|AUTO_KEY|..];
      assert forall x :: x in Staged.Hit(line, AUTO_KEY) <==> x == v;
    }
  }

  predicate AnyOff(vs: seq<string>) {
    exists v | v in vs :: OffWord(v)
  }

  lemma AnyOffConcat(a: seq<string>, b: seq<string>)
    ensures AnyOff(a + b) <==> AnyOff(a) || AnyOff(b)
  {
    assert forall v :: v in a + b <==> v in a || v in b;
  }

  lemma GoAutoOffCons(lines: seq<string>)
    requires lines != []
    ensures GoAutoOff(lines) <==> GoAutoOffLine(lines[0]) || GoAutoOff(lines[1..])
  {
    assert forall i | 0 < i < |lines| :: lines[i] == lines[1..][i - 1];
    if i :| 0 <= i < |lines[1..]| && GoAutoOffLine(lines[1..][i]) {
      assert GoAutoOffLine(lines[i + 1]);
    }
  }

  // On clean text Go takes the first number and the hook the last, so they keep the same number
  // of automatic checkpoints exactly when those two are equal.
  lemma RetainCompared(lines: seq<string>)
    requires CleanLines(lines)
    ensures var ns := Staged.SedPrint(lines, RETAIN_KEY);
            && (forall i | 0 <= i < |ns| :: Numeral(ns[i]))
            && (GoRetain(lines) == HookRetainIn(lines) <==>
                  ns == [] || Value(ns[0]) == Value(ns[|ns| - 1]))
  {
    RetainReadings(lines);
  }

  // On clean text Go turns checkpoints off when any value says so and the hook when the last one
  // does, so they agree exactly when no value before a last "on" says "off".
  lemma AutoCompared(lines: seq<string>)
    requires CleanLines(lines)
    ensures var vs := Staged.SedPrint(lines, AUTO_KEY);
            GoAutoOff(lines) == HookAutoOff(lines) <==> (AnyOff(vs) ==> OffWord(vs[|vs| - 1]))
  {
    AutoReadings(lines);
    LastIsOne(Staged.SedPrint(lines, AUTO_KEY));
  }

  lemma LastIsOne(vs: seq<string>)
    ensures OffWord(Staged.TailOne(vs)) ==> AnyOff(vs)
  {
    if vs != [] {
      assert vs[|vs| - 1] in vs;
    }
  }

  // With each key on at most one line the readers agree.
  lemma ReadersAgree(lines: seq<string>)
    requires CleanLines(lines)
    requires |Staged.SedPrint(lines, RETAIN_KEY)| <= 1
    requires |Staged.SedPrint(lines, AUTO_KEY)| <= 1
    ensures GoRetain(lines) == HookRetainIn(lines)
    ensures GoAutoOff(lines) <==> HookAutoOff(lines)
  {
    RetainAgrees(lines);
    AutoCompared(lines);
    OneValue(Staged.SedPrint(lines, AUTO_KEY));
  }

  lemma RetainAgrees(lines: seq<string>)
    requires CleanLines(lines) && |Staged.SedPrint(lines, RETAIN_KEY)| <= 1
    ensures GoRetain(lines) == HookRetainIn(lines)
  {
    RetainCompared(lines);
  }

  lemma OneValue(vs: seq<string>)
    requires |vs| <= 1
    ensures AnyOff(vs) ==> OffWord(vs[|vs| - 1])
  {
  }
}
