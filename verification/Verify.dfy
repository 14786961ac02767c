// The self-heal loop: run the checks, let the engine fix what failed, again
// and again under three stopping rules.

module Verify {
  import opened Models
  import opened Accounting
  import Numerals

  datatype Settings = Settings(checks: seq<string>, maxFixIterations: int, maxFixCostUsd: Option<real>)

  datatype Outcome = Outcome(ran: bool, passed: bool, iterations: int, usage: Usage, lastFailures: string)

  const LIMIT: nat := 4000

  function Truncate(text: string): string {
    if |text| <= LIMIT then text
    else
      text[..LIMIT / 2]
      + "\n...[truncated " + Numerals.Decimal(|text| - LIMIT) + " chars]...\n"
      + text[|text| - LIMIT / 2..]
  }

  // A short text is kept; of a long one both ends are, with a note between them
  // of how much is missing.
  lemma TruncateKeepsEnds(text: string)
    ensures |text| <= 4000 ==> Truncate(text) == text
    ensures |text| > 4000 ==>
      && |Truncate(text)| > 4000
      && Truncate(text)[..2000] == text[..2000]
      && Truncate(text)[|Truncate(text)| - 2000..] == text[|text| - 2000..]
      && Truncate(text)[2000..|Truncate(text)| - 2000] ==
         "\n...[truncated " + Numerals.Decimal(|text| - 4000) + " chars]...\n"
  {
    if |text| > 4000 {
      var head, tail := text[..2000], text[|text| - 2000..];
      var note := "\n...[truncated " + Numerals.Decimal(|text| - 4000) + " chars]...\n";
      Parts(head, note, tail);
    }
  }

  lemma Parts(a: string, b: string, c: string)
    ensures var s := a + b + c;
      s[..|a|] == a && s[|s| - |c|..] == c && s[|a|..|s| - |c|] == b && |s| == |a| + |b| + |c|
  {
  }

  function Join(parts: seq<string>): string {
    if |parts| == 0 then ""
    else if |parts| == 1 then parts[0]
    else parts[0] + "\n\n" + Join(parts[1..])
  }

  // What running check `i` of round `r` gives: exit code and output. The
  // world may answer differently every time.
  type Exec = (nat, nat) -> (int, string)

  // The failures among the first `n` checks of round `r`.
  function Failures(checks: seq<string>, exec: Exec, r: nat, n: nat): seq<string>
    requires n <= |checks|
  {
    if n == 0 then []
    else
      var (code, out) := exec(r, n - 1);
      Failures(checks, exec, r, n - 1) + (if code != 0 then ["$ " + checks[n - 1] + "\n" + out] else [])
  }

  function RoundFailures(s: Settings, exec: Exec, r: nat): seq<string> {
    Failures(s.checks, exec, r, |s.checks|)
  }

  // A round is clean exactly when every check of it exits with 0.
  lemma {:induction false} CleanMeansAllPassed(checks: seq<string>, exec: Exec, r: nat, n: nat)
    requires n <= |checks|
    ensures Failures(checks, exec, r, n) == [] <==> forall i :: 0 <= i < n ==> exec(r, i).0 == 0
  {
    if n > 0 {
      CleanMeansAllPassed(checks, exec, r, n - 1);
    }
  }

  // --- The text of a round ---------------------------------------------------

  // What a failing check contributes, and the part of the text before it: one
  // block for each failing check, a blank line after each.
  predicate FailsAt(exec: Exec, r: nat, i: nat) {
    exec(r, i).0 != 0
  }

  function Block(checks: seq<string>, exec: Exec, r: nat, i: nat): string
    requires i < |checks|
  {
    "$ " + checks[i] + "\n" + exec(r, i).1
  }

  function Offset(checks: seq<string>, exec: Exec, r: nat, n: nat): nat
    requires n <= |checks|
  {
    if n == 0 then 0
    else Offset(checks, exec, r, n - 1) + if FailsAt(exec, r, n - 1) then |Block(checks, exec, r, n - 1)| + 2 else 0
  }

  // `text` holds `part` at position `k`.
  predicate HasAt(text: string, k: int, part: string) {
    0 <= k && k + |part| <= |text| && text[k..k + |part|] == part
  }

  // A failing check's block is in the text at its offset, and a blank line
  // comes between it and the next.
  ghost predicate Shown(checks: seq<string>, exec: Exec, r: nat, n: nat, text: string, i: nat)
    requires i < n <= |checks|
  {
    && HasAt(text, Offset(checks, exec, r, i), Block(checks, exec, r, i))
    && (Offset(checks, exec, r, i + 1) < Offset(checks, exec, r, n) ==>
          HasAt(text, Offset(checks, exec, r, i + 1) - 2, "\n\n"))
  }

  // `text` is what the failures among the first `n` checks of round `r` come
  // to: each block at its place, in check order, a blank line between two, and
  // nothing else.
  ghost predicate IsText(checks: seq<string>, exec: Exec, r: nat, n: nat, text: string)
    requires n <= |checks|
  {
    && |text| == (if Offset(checks, exec, r, n) == 0 then 0 else Offset(checks, exec, r, n) - 2)
    && forall i: nat :: i < n && FailsAt(exec, r, i) ==> Shown(checks, exec, r, n, text, i)
  }

  lemma {:induction false} JoinAppends(parts: seq<string>, part: string)
    ensures Join(parts + [part]) == if parts == [] then part else Join(parts) + "\n\n" + part
    decreases |parts|
  {
    if parts == [] {
      assert parts + [part] == [part];
    } else {
      assert (parts + [part])[1..] == parts[1..] + [part];
      JoinAppends(parts[1..], part);
      if |parts| > 1 {
        var head := parts[0] + "\n\n";
        assert head + (Join(parts[1..]) + "\n\n" + part) == head + Join(parts[1..]) + "\n\n" + part;
      }
    }
  }

  lemma {:induction false} OffsetsGrow(checks: seq<string>, exec: Exec, r: nat, m: nat, n: nat)
    requires m <= n <= |checks|
    ensures Offset(checks, exec, r, m) <= Offset(checks, exec, r, n)
    ensures Offset(checks, exec, r, n) == 0 || Offset(checks, exec, r, n) >= 5
    decreases n
  {
    if n > 0 {
      OffsetsGrow(checks, exec, r, if m < n then m else n - 1, n - 1);
    }
  }

  lemma HasAtMore(text: string, more: string, k: int, part: string)
    requires HasAt(text, k, part)
    ensures HasAt(text + more, k, part)
  {
  }

  function Extended(text: string, block: string): string {
    if text == "" then block else text + "\n\n" + block
  }

  lemma EndsWith(text: string, block: string)
    ensures HasAt(Extended(text, block), |Extended(text, block)| - |block|, block)
    ensures text != "" ==> HasAt(Extended(text, block), |text|, "\n\n")
  {
  }

  lemma KeepsParts(text: string, block: string, k: int, part: string)
    requires HasAt(text, k, part) && text != ""
    ensures HasAt(Extended(text, block), k, part)
  {
    HasAtMore(text, "\n\n" + block, k, part);
    assert Extended(text, block) == text + ("\n\n" + block);
  }

  lemma StaysShown(checks: seq<string>, exec: Exec, r: nat, n: nat, text: string, i: nat)
    requires i < n < |checks| && IsText(checks, exec, r, n, text) && FailsAt(exec, r, n) && FailsAt(exec, r, i)
    ensures Shown(checks, exec, r, n + 1, Extended(text, Block(checks, exec, r, n)), i)
  {
    var block, at := Block(checks, exec, r, n), Offset(checks, exec, r, i + 1);
    OffsetsGrow(checks, exec, r, i + 1, n);
    assert Shown(checks, exec, r, n, text, i);
    KeepsParts(text, block, Offset(checks, exec, r, i), Block(checks, exec, r, i));
    if at < Offset(checks, exec, r, n) {
      KeepsParts(text, block, at - 2, "\n\n");
    } else {
      EndsWith(text, block);
    }
  }

  lemma TextGrows(checks: seq<string>, exec: Exec, r: nat, n: nat, text: string)
    requires n < |checks| && IsText(checks, exec, r, n, text) && FailsAt(exec, r, n)
    ensures IsText(checks, exec, r, n + 1, Extended(text, Block(checks, exec, r, n)))
  {
    var block := Block(checks, exec, r, n);
    OffsetsGrow(checks, exec, r, n, n);
    EndsWith(text, block);
    forall i: nat | i < n + 1 && FailsAt(exec, r, i)
      ensures Shown(checks, exec, r, n + 1, Extended(text, block), i)
    {
      if i < n {
        StaysShown(checks, exec, r, n, text, i);
      }
    }
  }

  lemma SameTextOn(checks: seq<string>, exec: Exec, r: nat, n: nat, text: string)
    requires n < |checks| && IsText(checks, exec, r, n, text) && !FailsAt(exec, r, n)
    ensures IsText(checks, exec, r, n + 1, text)
  {
    forall i: nat | i < n + 1 && FailsAt(exec, r, i)
      ensures Shown(checks, exec, r, n + 1, text, i)
    {
      assert Shown(checks, exec, r, n, text, i);
    }
  }

  // The joined failures are that text.
  lemma {:induction false} JoinIsText(checks: seq<string>, exec: Exec, r: nat, n: nat)
    requires n <= |checks|
    ensures IsText(checks, exec, r, n, Join(Failures(checks, exec, r, n)))
    decreases n
  {
    if n > 0 {
      JoinIsText(checks, exec, r, n - 1);
      var before := Failures(checks, exec, r, n - 1);
      if FailsAt(exec, r, n - 1) {
        FailureExtends(checks, exec, r, n - 1);
        TextGrows(checks, exec, r, n - 1, Join(before));
      } else {
        assert before + [] == before;
        SameTextOn(checks, exec, r, n - 1, Join(before));
      }
    }
  }

  lemma {:induction false} NoTextNoFailure(checks: seq<string>, exec: Exec, r: nat, n: nat)
    requires n <= |checks|
    ensures Join(Failures(checks, exec, r, n)) == "" <==> Failures(checks, exec, r, n) == []
    decreases n
  {
    if n > 0 {
      NoTextNoFailure(checks, exec, r, n - 1);
      var before := Failures(checks, exec, r, n - 1);
      if FailsAt(exec, r, n - 1) {
        JoinAppends(before, Block(checks, exec, r, n - 1));
      } else {
        assert before + [] == before;
      }
    }
  }

  lemma FailureExtends(checks: seq<string>, exec: Exec, r: nat, n: nat)
    requires n < |checks| && FailsAt(exec, r, n)
    ensures Join(Failures(checks, exec, r, n + 1)) ==
            Extended(Join(Failures(checks, exec, r, n)), Block(checks, exec, r, n))
  {
    NoTextNoFailure(checks, exec, r, n);
    JoinAppends(Failures(checks, exec, r, n), Block(checks, exec, r, n));
  }

  function Fixes(fix: nat -> Usage, n: nat): seq<Usage> {
    seq(n, i requires 0 <= i < n => fix(i))
  }

  function CostOf(u: Usage): real {
    if u.costUsd.Some? then u.costUsd.value else 0.0
  }

  // After the first `r` fixes the cost cap is reached.
  predicate CapReached(s: Settings, fix: nat -> Usage, r: nat) {
    s.maxFixCostUsd.Some? && CostOf(Total(NO_USAGE, Fixes(fix, r))) >= s.maxFixCostUsd.value
  }

  // Round `r` failed just as the round before it did.
  predicate NoProgress(s: Settings, exec: Exec, r: nat) {
    r > 0 && Join(RoundFailures(s, exec, r - 1)) == Join(RoundFailures(s, exec, r))
  }

  // A fix is due after round `r`.
  predicate FixDue(s: Settings, exec: Exec, fix: nat -> Usage, r: nat) {
    && RoundFailures(s, exec, r) != []
    && r < s.maxFixIterations
    && !CapReached(s, fix, r)
    && !NoProgress(s, exec, r)
  }

  // Reaching the cap is logged with the cost so far, formatted as a number; a
  // cost that is not known cannot be, and ends the loop by an exception.
  const FORMAT_ERROR := "unsupported format string passed to NoneType.__format__"

  // A cap of 0 or less is reached before anything has reported a cost.
  predicate Raises(s: Settings, exec: Exec) {
    && s.checks != [] && s.maxFixIterations > 0
    && s.maxFixCostUsd.Some? && s.maxFixCostUsd.value <= 0.0
    && RoundFailures(s, exec, 0) != []
  }

  // Once a fix was due the cap is positive, so a cost that reaches it is known.
  lemma ReachedCostIsKnown(s: Settings, exec: Exec, fix: nat -> Usage, r: nat)
    requires FixDue(s, exec, fix, 0) && CapReached(s, fix, r)
    ensures Total(NO_USAGE, Fixes(fix, r)).costUsd.Some?
  {
    assert Fixes(fix, 0) == [];
  }

  lemma CapAtOnce(s: Settings, fix: nat -> Usage)
    ensures CapReached(s, fix, 0) <==> s.maxFixCostUsd.Some? && s.maxFixCostUsd.value <= 0.0
    ensures Total(NO_USAGE, Fixes(fix, 0)).costUsd.None?
  {
    assert Fixes(fix, 0) == [];
  }

  lemma FixMeansNoRaise(s: Settings, exec: Exec, fix: nat -> Usage)
    requires FixDue(s, exec, fix, 0)
    ensures !Raises(s, exec)
  {
    CapAtOnce(s, fix);
  }

  method RunChecks(s: Settings, exec: Exec, r: nat) returns (failures: seq<string>)
    ensures failures == RoundFailures(s, exec, r)
  {
    failures := [];
    for i := 0 to |s.checks|
      invariant failures == Failures(s.checks, exec, r, i)
    {
      var (code, out) := exec(r, i);
      if code != 0 {
        failures := failures + ["$ " + s.checks[i] + "\n" + out];
      }
    }
  }

  // What the loop reports: it stops after the first round `r` after which no
  // fix is due, having made exactly the `r` fixes due before.
  ghost predicate Reports(s: Settings, exec: Exec, fix: nat -> Usage, o: Outcome) {
    && o.ran
    && 0 <= o.iterations <= s.maxFixIterations
    && (forall r :: 0 <= r < o.iterations ==> FixDue(s, exec, fix, r))
    && !FixDue(s, exec, fix, o.iterations)
    && o.usage == Total(NO_USAGE, Fixes(fix, o.iterations))
    && (o.passed <==> RoundFailures(s, exec, o.iterations) == [])
    && o.lastFailures == if o.passed then "" else Truncate(Join(RoundFailures(s, exec, o.iterations)))
  }

  // A negative iteration limit runs nothing; a cap of 0 or less raises.
  method Run(s: Settings, exec: Exec, fix: nat -> Usage) returns (result: Result<Outcome, string>)
    ensures result.Err? <==> Raises(s, exec)
    ensures result.Err? ==> result.error == FORMAT_ERROR
    ensures s.checks == [] ==> result == Ok(Outcome(false, true, 0, NO_USAGE, ""))
    ensures s.checks != [] && s.maxFixIterations < 0 ==>
              result == Ok(Outcome(true, false, s.maxFixIterations, NO_USAGE, ""))
    ensures s.checks != [] && s.maxFixIterations >= 0 && result.Ok? ==> Reports(s, exec, fix, result.value)
  {
    if s.checks == [] {
      return Ok(Outcome(false, true, 0, NO_USAGE, ""));
    }
    CapAtOnce(s, fix);
    var total := NO_USAGE;
    var previous: Option<string> := None;
    var iteration := 0;
    while iteration < s.maxFixIterations + 1
      invariant 0 <= iteration && (iteration > 0 ==> iteration <= s.maxFixIterations)
      invariant total == Total(NO_USAGE, Fixes(fix, iteration))
      invariant previous == if iteration == 0 then None else Some(Join(RoundFailures(s, exec, iteration - 1)))
      invariant forall r :: 0 <= r < iteration ==> FixDue(s, exec, fix, r)
      invariant iteration > 0 ==> !Raises(s, exec)
    {
      var failures := RunChecks(s, exec, iteration);
      if failures == [] {
        return Ok(Outcome(true, true, iteration, total, ""));
      }
      var joined := Join(failures);
      if iteration >= s.maxFixIterations {
        return Ok(Outcome(true, false, iteration, total, Truncate(joined)));
      }
      var spent := if total.costUsd.Some? then total.costUsd.value else 0.0;
      if s.maxFixCostUsd.Some? && spent >= s.maxFixCostUsd.value {
        if iteration > 0 {
          ReachedCostIsKnown(s, exec, fix, iteration);
        }
        if total.costUsd.None? {
          return Err(FORMAT_ERROR);
        }
        return Ok(Outcome(true, false, iteration, total, Truncate(joined)));
      }
      if previous == Some(joined) {
        return Ok(Outcome(true, false, iteration, total, Truncate(joined)));
      }
      previous := Some(joined);
      assert FixDue(s, exec, fix, iteration);
      if iteration == 0 {
        FixMeansNoRaise(s, exec, fix);
      }
      assert Fixes(fix, iteration + 1) == Fixes(fix, iteration) + [fix(iteration)];
      TotalAppends(NO_USAGE, Fixes(fix, iteration), fix(iteration));
      total := total.Add(fix(iteration));
      iteration := iteration + 1;
    }
    assert s.maxFixIterations < 0;
    result := Ok(Outcome(true, false, s.maxFixIterations, total, ""));
  }

  // The cap of 0: the first failing round raises instead of giving up, though
  // the iteration limit leaves room for fixes.
  lemma ZeroCapRaises(check: string, exec: Exec, limit: int)
    requires exec(0, 0).0 != 0 && limit > 0
    ensures Raises(Settings([check], limit, Some(0.0)), exec)
  {
    var s := Settings([check], limit, Some(0.0));
    CleanMeansAllPassed(s.checks, exec, 0, 1);
  }

  // The cap can be overshot by the last fix alone: what the loop spends is
  // less than the cap and the cost of that fix together.
  lemma OvershootIsOneFix(s: Settings, exec: Exec, fix: nat -> Usage, o: Outcome)
    requires Reports(s, exec, fix, o) && o.iterations > 0 && s.maxFixCostUsd.Some?
    ensures var last := fix(o.iterations - 1).costUsd;
      o.usage.costUsd.Some? ==>
        o.usage.costUsd.value < s.maxFixCostUsd.value + if last.Some? then last.value else 0.0
  {
    var n := o.iterations - 1;
    assert FixDue(s, exec, fix, n);
    assert Fixes(fix, n + 1) == Fixes(fix, n) + [fix(n)];
    TotalAppends(NO_USAGE, Fixes(fix, n), fix(n));
  }

  // So with fixes of bounded cost the whole loop stays within one of them.
  lemma SpendingIsBounded(s: Settings, exec: Exec, fix: nat -> Usage, o: Outcome, most: real)
    requires Reports(s, exec, fix, o) && s.maxFixCostUsd.Some? && s.maxFixCostUsd.value > 0.0 && most >= 0.0
    requires forall r: nat :: fix(r).costUsd.Some? ==> fix(r).costUsd.value <= most
    ensures o.usage.costUsd.Some? ==> o.usage.costUsd.value < s.maxFixCostUsd.value + most
  {
    if o.iterations > 0 {
      OvershootIsOneFix(s, exec, fix, o);
    } else {
      assert Fixes(fix, 0) == [];
    }
  }

  // --- What the loop makes of the text ------------------------------------------

  // A report that was not cut holds each failing check of the last round, with
  // its command and its whole output, at its own place.
  lemma ReportShowsFailures(s: Settings, exec: Exec, fix: nat -> Usage, o: Outcome)
    requires Reports(s, exec, fix, o) && !o.passed && |o.lastFailures| <= LIMIT
    ensures IsText(s.checks, exec, o.iterations, |s.checks|, o.lastFailures)
  {
    JoinIsText(s.checks, exec, o.iterations, |s.checks|);
  }

  predicate SomeFails(s: Settings, exec: Exec, r: nat) {
    exists i: nat :: i < |s.checks| && exec(r, i).0 != 0
  }

  // The limits leave room for a fix after round `r`.
  predicate Affordable(s: Settings, fix: nat -> Usage, r: nat) {
    && r < s.maxFixIterations
    && (s.maxFixCostUsd.Some? ==> CostOf(Total(NO_USAGE, Fixes(fix, r))) < s.maxFixCostUsd.value)
  }

  // With a single check the loop gives up for lack of progress exactly when
  // two rounds in a row have failed with equal output.
  lemma OneCheckGoesOn(s: Settings, exec: Exec, fix: nat -> Usage, o: Outcome, r: nat)
    requires |s.checks| == 1 && Reports(s, exec, fix, o) && r <= o.iterations
    ensures r < o.iterations <==>
      && exec(r, 0).0 != 0 && Affordable(s, fix, r)
      && !(r > 0 && exec(r - 1, 0).0 != 0 && exec(r - 1, 0).1 == exec(r, 0).1)
  {
    OneFailure(s, exec, r);
    if r > 0 {
      OneFailure(s, exec, r - 1);
      SameOutput("$ " + s.checks[0] + "\n", exec(r - 1, 0).1, exec(r, 0).1);
    }
    assert r < o.iterations ==> FixDue(s, exec, fix, r);
  }

  lemma OneFailure(s: Settings, exec: Exec, r: nat)
    requires |s.checks| == 1
    ensures RoundFailures(s, exec, r) == if exec(r, 0).0 != 0 then ["$ " + s.checks[0] + "\n" + exec(r, 0).1] else []
  {
    assert Failures(s.checks, exec, r, 0) == [];
  }

  lemma SameOutput(head: string, a: string, b: string)
    ensures head + a == head + b ==> a == b
  {
    assert (head + a)[|head|..] == a && (head + b)[|head|..] == b;
  }

  // What fails in round `b` fails in round `a` as well, with the same output.
  predicate Covers(s: Settings, exec: Exec, a: nat, b: nat) {
    forall i: nat :: i < |s.checks| && FailsAt(exec, b, i) ==> FailsAt(exec, a, i) && exec(a, i).1 == exec(b, i).1
  }

  predicate FailsOnlyIn(s: Settings, exec: Exec, a: nat, b: nat) {
    exists i: nat :: i < |s.checks| && FailsAt(exec, a, i) && !FailsAt(exec, b, i)
  }

  lemma {:induction false} CoveredIsShorter(s: Settings, exec: Exec, a: nat, b: nat, n: nat)
    requires n <= |s.checks| && Covers(s, exec, a, b)
    ensures Offset(s.checks, exec, b, n) <= Offset(s.checks, exec, a, n)
    ensures (exists i: nat :: i < n && FailsAt(exec, a, i) && !FailsAt(exec, b, i)) ==>
              Offset(s.checks, exec, b, n) < Offset(s.checks, exec, a, n)
    decreases n
  {
    if n > 0 {
      CoveredIsShorter(s, exec, a, b, n - 1);
      if FailsAt(exec, b, n - 1) {
        assert Block(s.checks, exec, a, n - 1) == Block(s.checks, exec, b, n - 1);
      }
    }
  }

  lemma CoveredDiffers(s: Settings, exec: Exec, a: nat, b: nat)
    requires Covers(s, exec, a, b) && FailsOnlyIn(s, exec, a, b)
    ensures Join(RoundFailures(s, exec, a)) != Join(RoundFailures(s, exec, b))
  {
    var n := |s.checks|;
    CoveredIsShorter(s, exec, a, b, n);
    JoinIsText(s.checks, exec, a, n);
    JoinIsText(s.checks, exec, b, n);
    OffsetsGrow(s.checks, exec, a, n, n);
    OffsetsGrow(s.checks, exec, b, n, n);
  }

  lemma DifferentGoesOn(s: Settings, exec: Exec, fix: nat -> Usage, o: Outcome, r: nat)
    requires Reports(s, exec, fix, o) && 0 < r <= o.iterations && SomeFails(s, exec, r) && Affordable(s, fix, r)
    requires Join(RoundFailures(s, exec, r - 1)) != Join(RoundFailures(s, exec, r))
    ensures r < o.iterations
  {
    CleanMeansAllPassed(s.checks, exec, r, |s.checks|);
    assert FixDue(s, exec, fix, r);
  }

  // A round that repairs some checks and leaves the others as they were is
  // progress, and so is one that only breaks further ones: where the limits
  // allow, the loop goes on.
  lemma RepairIsProgress(s: Settings, exec: Exec, fix: nat -> Usage, o: Outcome, r: nat)
    requires Reports(s, exec, fix, o) && 0 < r <= o.iterations && SomeFails(s, exec, r) && Affordable(s, fix, r)
    requires || (Covers(s, exec, r - 1, r) && FailsOnlyIn(s, exec, r - 1, r))
             || (Covers(s, exec, r, r - 1) && FailsOnlyIn(s, exec, r, r - 1))
    ensures r < o.iterations
  {
    if Covers(s, exec, r - 1, r) && FailsOnlyIn(s, exec, r - 1, r) {
      CoveredDiffers(s, exec, r - 1, r);
    } else {
      CoveredDiffers(s, exec, r, r - 1);
    }
    DifferentGoesOn(s, exec, fix, o, r);
  }

  // --- When a round counts as no progress ---------------------------------------

  // What separates two blocks.
  const MARK := "\n\n$ "

  // A block begins with the prompt of its command; a clean one holds no
  // separator of its own.
  ghost predicate Clean(block: string) {
    HasAt(block, 0, "$ ") && forall k :: 0 <= k < |block| ==> !HasAt(block, k, MARK)
  }

  ghost predicate AllClean(blocks: seq<string>) {
    forall i :: 0 <= i < |blocks| ==> Clean(blocks[i])
  }

  lemma MarkChars(text: string, k: int)
    ensures HasAt(text, k, MARK) <==>
            && 0 <= k && k + 4 <= |text|
            && text[k] == '\n' && text[k + 1] == '\n' && text[k + 2] == '$' && text[k + 3] == ' '
  {
    if 0 <= k && k + 4 <= |text| {
      var part := text[k..k + 4];
      assert part == [part[0], part[1], part[2], part[3]];
      assert MARK == ['\n', '\n', '$', ' '];
    }
  }

  lemma PromptChars(block: string)
    requires HasAt(block, 0, "$ ")
    ensures |block| >= 2 && block[0] == '$' && block[1] == ' '
  {
    assert block[0..2][0] == block[0] && block[0..2][1] == block[1];
  }

  // The first separator of a text is where its first block ends.
  lemma FirstMark(block: string, rest: string, k: nat)
    requires Clean(block) && HasAt(rest, 0, "$ ") && k <= |block|
    ensures HasAt(block + "\n\n" + rest, k, MARK) <==> k == |block|
  {
    PromptChars(rest);
    MarkChars(block + "\n\n" + rest, k);
    MarkChars(block, k);
    assert k < |block| ==> !HasAt(block, k, MARK);
  }

  lemma JoinStarts(blocks: seq<string>)
    requires blocks != [] && Clean(blocks[0])
    ensures HasAt(Join(blocks), 0, "$ ") && |Join(blocks)| >= |blocks[0]|
  {
    if |blocks| > 1 {
      HasAtMore(blocks[0], "\n\n" + Join(blocks[1..]), 0, "$ ");
      assert Join(blocks) == blocks[0] + ("\n\n" + Join(blocks[1..]));
    }
  }

  // So it tells how long the first block is.
  lemma FirstBlock(a: seq<string>, b: seq<string>)
    requires a != [] && b != [] && AllClean(a) && AllClean(b) && Join(a) == Join(b)
    ensures |a[0]| >= |b[0]|
  {
    JoinStarts(b);
    if |a| > 1 && |a[0]| < |b[0]| {
      JoinStarts(a[1..]);
      FirstMark(a[0], Join(a[1..]), |a[0]|);
      if |b| > 1 {
        JoinStarts(b[1..]);
        FirstMark(b[0], Join(b[1..]), |a[0]|);
      }
    }
  }

  // The text of clean blocks determines them, and how many there are.
  lemma {:induction false} TextTellsBlocks(a: seq<string>, b: seq<string>)
    requires AllClean(a) && AllClean(b) && Join(a) == Join(b)
    ensures a == b
    decreases |a|
  {
    if a != [] && b != [] {
      FirstBlock(a, b);
      FirstBlock(b, a);
      SameFirst(a, b);
      TextTellsBlocks(a[1..], b[1..]);
      assert a == [a[0]] + a[1..] && b == [b[0]] + b[1..];
    } else {
      NothingIsEmpty(a);
      NothingIsEmpty(b);
    }
  }

  lemma NothingIsEmpty(blocks: seq<string>)
    requires AllClean(blocks) && Join(blocks) == ""
    ensures blocks == []
  {
    if blocks != [] {
      JoinStarts(blocks);
    }
  }

  lemma SameFirst(a: seq<string>, b: seq<string>)
    requires a != [] && b != [] && Join(a) == Join(b) && |a[0]| == |b[0]|
    ensures a[0] == b[0] && Join(a[1..]) == Join(b[1..])
  {
    assert Join(a)[..|a[0]|] == a[0] && Join(b)[..|b[0]|] == b[0];
    assert |a| > 1 ==> Join(a)[|a[0]| + 2..] == Join(a[1..]);
    assert |b| > 1 ==> Join(b)[|b[0]| + 2..] == Join(b[1..]);
  }

  // The failing checks of round `r`, and what they contribute, in check order.
  function Failing(exec: Exec, r: nat, n: nat): seq<nat> {
    if n == 0 then [] else Failing(exec, r, n - 1) + if FailsAt(exec, r, n - 1) then [n - 1] else []
  }

  lemma {:induction false} BlocksOfFailing(checks: seq<string>, exec: Exec, r: nat, n: nat)
    requires n <= |checks|
    ensures |Failures(checks, exec, r, n)| == |Failing(exec, r, n)|
    ensures forall i :: 0 <= i < |Failing(exec, r, n)| ==>
              && Failing(exec, r, n)[i] < n && FailsAt(exec, r, Failing(exec, r, n)[i])
              && Failures(checks, exec, r, n)[i] == Block(checks, exec, r, Failing(exec, r, n)[i])
    decreases n
  {
    if n > 0 {
      BlocksOfFailing(checks, exec, r, n - 1);
    }
  }

  // No failing check's command or output holds a blank line followed by "$ ".
  ghost predicate Unmarked(checks: seq<string>, exec: Exec, r: nat) {
    forall i: nat :: i < |checks| && FailsAt(exec, r, i) ==>
      forall k :: 0 <= k < |Block(checks, exec, r, i)| ==> !HasAt(Block(checks, exec, r, i), k, MARK)
  }

  lemma UnmarkedIsClean(checks: seq<string>, exec: Exec, r: nat)
    requires Unmarked(checks, exec, r)
    ensures AllClean(Failures(checks, exec, r, |checks|))
  {
    var failing := Failing(exec, r, |checks|);
    BlocksOfFailing(checks, exec, r, |checks|);
    forall i | 0 <= i < |failing|
      ensures Clean(Failures(checks, exec, r, |checks|)[i])
    {
      var c := failing[i];
      assert Block(checks, exec, r, c) == "$ " + (checks[c] + "\n" + exec(r, c).1);
    }
  }

  // The same commands fail, one after the other, with the same outputs.
  ghost predicate FailsAlike(checks: seq<string>, exec: Exec, a: nat, b: nat) {
    var p, q := Failing(exec, a, |checks|), Failing(exec, b, |checks|);
    && |p| == |q|
    && forall i :: 0 <= i < |p| ==> p[i] < |checks| && q[i] < |checks| &&
                                    Block(checks, exec, a, p[i]) == Block(checks, exec, b, q[i])
  }

  lemma AlikeIsSameText(checks: seq<string>, exec: Exec, a: nat, b: nat)
    requires Unmarked(checks, exec, a) && Unmarked(checks, exec, b)
    ensures FailsAlike(checks, exec, a, b) <==>
            Join(Failures(checks, exec, a, |checks|)) == Join(Failures(checks, exec, b, |checks|))
  {
    var f, g := Failures(checks, exec, a, |checks|), Failures(checks, exec, b, |checks|);
    BlocksOfFailing(checks, exec, a, |checks|);
    BlocksOfFailing(checks, exec, b, |checks|);
    UnmarkedIsClean(checks, exec, a);
    UnmarkedIsClean(checks, exec, b);
    if Join(f) == Join(g) {
      TextTellsBlocks(f, g);
    }
    if FailsAlike(checks, exec, a, b) {
      assert f == g;
    }
  }

  // With such outputs the loop stops for lack of progress exactly when two
  // rounds in a row fail alike; so never after rounds in which different
  // numbers of checks fail.
  lemma GoesOnExactly(s: Settings, exec: Exec, fix: nat -> Usage, o: Outcome, r: nat)
    requires Reports(s, exec, fix, o) && 0 < r <= o.iterations && SomeFails(s, exec, r) && Affordable(s, fix, r)
    requires Unmarked(s.checks, exec, r - 1) && Unmarked(s.checks, exec, r)
    ensures r < o.iterations <==> !FailsAlike(s.checks, exec, r - 1, r)
    ensures |Failing(exec, r - 1, |s.checks|)| != |Failing(exec, r, |s.checks|)| ==> r < o.iterations
  {
    AlikeIsSameText(s.checks, exec, r - 1, r);
    if !FailsAlike(s.checks, exec, r - 1, r) {
      DifferentGoesOn(s, exec, fix, o, r);
    }
    assert r < o.iterations ==> FixDue(s, exec, fix, r);
  }

  // Otherwise the output of a single failure can read like two others, and the
  // loop stops although the numbers differ.
  function LookAlike(r: nat, i: nat): (int, string) {
    if r == 0 then (if i == 0 then (1, "x\n\n$ t\ny") else (0, ""))
    else if i == 0 then (0, "") else if i == 1 then (1, "x") else (1, "y")
  }

  lemma DifferentNumbersCanLookAlike(fix: nat -> Usage, o: Outcome)
    requires Reports(Settings(["t", "t", "t"], 2, None), LookAlike, fix, o)
    ensures Failing(LookAlike, 0, 3) == [0] && Failing(LookAlike, 1, 3) == [1, 2]
    ensures o.iterations == 1 && !o.passed
  {
    var s := Settings(["t", "t", "t"], 2, None);
    assert Failing(LookAlike, 0, 2) == [0] && Failing(LookAlike, 1, 2) == [1];
    LookAlikeTexts();
    assert FixDue(s, LookAlike, fix, 0) && !FixDue(s, LookAlike, fix, 1);
  }

  lemma LookAlikeTexts()
    ensures var s := Settings(["t", "t", "t"], 2, None);
      && RoundFailures(s, LookAlike, 0) != [] && RoundFailures(s, LookAlike, 1) != []
      && Join(RoundFailures(s, LookAlike, 0)) == Join(RoundFailures(s, LookAlike, 1))
  {
    var checks := ["t", "t", "t"];
    var long, x, y := "$ t\nx\n\n$ t\ny", "$ t\nx", "$ t\ny";
    assert "$ " + "t" + "\n" + "x\n\n$ t\ny" == long && "$ " + "t" + "\n" + "x" == x && "$ " + "t" + "\n" + "y" == y;
    assert Failures(checks, LookAlike, 0, 0) == [] && Failures(checks, LookAlike, 0, 1) == [long];
    assert Failures(checks, LookAlike, 0, 2) == [long] && Failures(checks, LookAlike, 0, 3) == [long];
    assert Failures(checks, LookAlike, 1, 0) == [] && Failures(checks, LookAlike, 1, 1) == [];
    assert Failures(checks, LookAlike, 1, 2) == [x] && Failures(checks, LookAlike, 1, 3) == [x, y];
    assert [x, y][1..] == [y];
  }
}
