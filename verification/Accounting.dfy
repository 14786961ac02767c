// Usage records as an algebra: what adding up a whole job's records means.

module Accounting {
  import opened Models

  datatype Field = InputTokens | OutputTokens | CacheRead | CacheWrite | CostUsd | NumTurns | DurationS

  function AsReal(o: Option<int>): Option<real> {
    if o.None? then None else Some(o.value as real)
  }

  function Num(u: Usage, f: Field): Option<real> {
    match f
    case InputTokens => AsReal(u.inputTokens)
    case OutputTokens => AsReal(u.outputTokens)
    case CacheRead => AsReal(u.cacheRead)
    case CacheWrite => AsReal(u.cacheWrite)
    case CostUsd => u.costUsd
    case NumTurns => AsReal(u.numTurns)
    case DurationS => u.durationS
  }

  // Records added to `start` one after the other.
  function Total(start: Usage, us: seq<Usage>): Usage
    decreases |us|
  {
    if us == [] then start else Total(start.Add(us[0]), us[1..])
  }

  // --- The algebra ---------------------------------------------------------

  lemma AddAssociates(a: Usage, b: Usage, d: Usage)
    ensures a.Add(b).Add(d) == a.Add(b.Add(d))
  {
  }

  lemma NoUsageIsLeftIdentity(u: Usage)
    ensures NO_USAGE.Add(u) == u
  {
  }

  // Adding an empty record loses nothing but a model name that is "".
  lemma NoUsageIsRightIdentityExactly(u: Usage)
    ensures u.Add(NO_USAGE) == u <==> u.model != Some("")
  {
  }

  lemma AddNumbers(a: Usage, b: Usage, f: Field)
    ensures Num(a.Add(b), f) == AddReal(Num(a, f), Num(b, f))
  {
  }

  lemma {:induction false} TotalAppends(start: Usage, us: seq<Usage>, u: Usage)
    ensures Total(start, us + [u]) == Total(start, us).Add(u)
    decreases |us|
  {
    if us == [] {
      assert ([] + [u])[1..] == [];
    } else {
      assert (us + [u])[1..] == us[1..] + [u];
      TotalAppends(start.Add(us[0]), us[1..], u);
    }
  }

  lemma {:induction false} TotalSplits(start: Usage, us: seq<Usage>, vs: seq<Usage>)
    ensures Total(start, us + vs) == Total(Total(start, us), vs)
    decreases |us|
  {
    if us == [] {
      assert us + vs == vs;
    } else {
      assert (us + vs)[1..] == us[1..] + vs;
      TotalSplits(start.Add(us[0]), us[1..], vs);
    }
  }

  // A sub-total computed from nothing and added afterwards is as good as
  // adding its records one by one; with no record it is an empty record.
  lemma {:induction false} SubTotal(start: Usage, us: seq<Usage>)
    ensures start.Add(Total(NO_USAGE, us)) == if us == [] then start.Add(NO_USAGE) else Total(start, us)
    decreases |us|
  {
    if us != [] {
      NoUsageIsLeftIdentity(us[0]);
      Shift(start, us[0], us[1..]);
    }
  }

  lemma {:induction false} Shift(start: Usage, u: Usage, us: seq<Usage>)
    ensures start.Add(Total(u, us)) == Total(start.Add(u), us)
    decreases |us|
  {
    if us != [] {
      AddAssociates(start, u, us[0]);
      Shift(start, u.Add(us[0]), us[1..]);
    }
  }

  // --- What a total says ---------------------------------------------------

  function Nums(us: seq<Usage>, f: Field): seq<Option<real>> {
    seq(|us|, i requires 0 <= i < |us| => Num(us[i], f))
  }

  predicate Reported(xs: seq<Option<real>>) {
    exists i :: 0 <= i < |xs| && xs[i].Some?
  }

  // The sum of the numbers that were reported.
  function KnownSum(xs: seq<Option<real>>): real {
    if xs == [] then 0.0 else (if xs[0].Some? then xs[0].value else 0.0) + KnownSum(xs[1..])
  }

  function OptSum(xs: seq<Option<real>>): Option<real> {
    if Reported(xs) then Some(KnownSum(xs)) else None
  }

  lemma {:induction false} NothingKnown(xs: seq<Option<real>>)
    requires !Reported(xs)
    ensures KnownSum(xs) == 0.0
    decreases |xs|
  {
    if xs != [] {
      assert xs[0].None?;
      forall i | 0 <= i < |xs[1..]|
        ensures xs[1..][i].None?
      {
        assert xs[i + 1].None?;
      }
      NothingKnown(xs[1..]);
    }
  }

  lemma OptSumCons(x: Option<real>, xs: seq<Option<real>>)
    ensures OptSum([x] + xs) == AddReal(x, OptSum(xs))
  {
    var all := [x] + xs;
    assert all[1..] == xs;
    if Reported(xs) {
      var i :| 0 <= i < |xs| && xs[i].Some?;
      assert all[i + 1].Some?;
    } else {
      NothingKnown(xs);
      if x.Some? {
        assert all[0].Some?;
      }
    }
  }

  // Every number of a total is the sum of those that were reported, and it is
  // absent exactly when none was.
  lemma {:induction false} TotalIsSum(start: Usage, us: seq<Usage>, f: Field)
    ensures Num(Total(start, us), f) == OptSum([Num(start, f)] + Nums(us, f))
    decreases |us|
  {
    var x := Num(start, f);
    OptSumCons(x, Nums(us, f));
    if us != [] {
      var y := Num(us[0], f);
      TotalIsSum(start.Add(us[0]), us[1..], f);
      AddNumbers(start, us[0], f);
      OptSumCons(AddReal(x, y), Nums(us[1..], f));
      OptSumCons(y, Nums(us[1..], f));
      NumsCons(us, f);
    }
  }

  lemma NumsCons(us: seq<Usage>, f: Field)
    requires us != []
    ensures Nums(us, f) == [Num(us[0], f)] + Nums(us[1..], f)
  {
  }

  // The model of a total is the first one named; with none named, the last
  // record decides between an absent and an empty name.
  lemma {:induction false} TotalNamesFirstModel(start: Usage, us: seq<Usage>)
    ensures Truthy(start.model) ==> Total(start, us).model == start.model
    ensures !Truthy(start.model) ==>
      forall i :: 0 <= i < |us| && Truthy(us[i].model) && (forall k :: 0 <= k < i ==> !Truthy(us[k].model))
        ==> Total(start, us).model == us[i].model
    decreases |us|
  {
    if us != [] {
      TotalNamesFirstModel(start.Add(us[0]), us[1..]);
      forall i | !Truthy(start.model) && 0 < i < |us| && Truthy(us[i].model)
               && (forall k :: 0 <= k < i ==> !Truthy(us[k].model))
        ensures Total(start, us).model == us[i].model
      {
        assert us[1..][i - 1] == us[i];
        assert forall k :: 0 <= k < i - 1 ==> us[1..][k] == us[k + 1];
        assert !Truthy(us[0].model);
      }
    }
  }
}
