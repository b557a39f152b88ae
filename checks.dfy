/** A validator written as a run of `if (!cond) throw new Error(msg)`
    statements: the checks in source order, of which the first failing one
    decides the error. */
module Checks {
  import opened Wrappers
  import opened Strings

  datatype Check = Check(ok: bool, message: string)

  /** Run the checks in order; fail with the message of the first that does
      not hold. */
  function FirstFailure(cs: seq<Check>): (r: Outcome<string>)
    ensures r == Pass <==> forall i | 0 <= i < |cs| :: cs[i].ok
    ensures r.Fail? ==> exists i | 0 <= i < |cs| ::
      !cs[i].ok && r.error == cs[i].message && forall j | 0 <= j < i :: cs[j].ok
    decreases |cs|
  {
    if cs == [] then Pass
    else if !cs[0].ok then Fail(cs[0].message)
    else
      var rest := FirstFailure(cs[1..]);
      assert forall i | 1 <= i < |cs| :: cs[i] == cs[1..][i - 1];
      rest
  }

  /** Checks that all hold do not change the outcome of what follows. */
  lemma {:induction false} FirstFailureAppend(xs: seq<Check>, ys: seq<Check>)
    ensures FirstFailure(xs + ys) == (if FirstFailure(xs).Fail? then FirstFailure(xs) else FirstFailure(ys))
    decreases |xs|
  {
    if xs != [] {
      assert (xs + ys)[0] == xs[0];
      assert (xs + ys)[1..] == xs[1..] + ys;
      FirstFailureAppend(xs[1..], ys);
    } else {
      assert xs + ys == ys;
    }
  }

  /** The message for entry `index`: `prefix + index + field`. */
  function PairMessage(prefix: string, index: nat, field: string): string {
    prefix + NatToString(index) + field
  }

  /** The checks of a `forEach` over a list of pairs, as in
      `items.forEach((item, index) => { if (!item.a) throw ...; if (!item.b) throw ...; })`:
      for entry `index`, the message names the index and `first` (or
      `second` for the second field). */
  function PairChecks(items: seq<(string, string)>, prefix: string, first: string, second: string): (cs: seq<Check>)
    ensures |cs| == 2 * |items|
    decreases |items|
  {
    if items == [] then []
    else
      var n := |items| - 1;
      PairChecks(items[..n], prefix, first, second)
      + [Check(|items[n].0| > 0, PairMessage(prefix, n, first)),
         Check(|items[n].1| > 0, PairMessage(prefix, n, second))]
  }

  /** Entry `j` contributes checks `2j` and `2j + 1`. */
  lemma {:induction false} PairChecksAt(items: seq<(string, string)>, prefix: string, first: string,
                                        second: string, j: nat)
    requires j < |items|
    ensures PairChecks(items, prefix, first, second)[2 * j]
         == Check(|items[j].0| > 0, PairMessage(prefix, j, first))
    ensures PairChecks(items, prefix, first, second)[2 * j + 1]
         == Check(|items[j].1| > 0, PairMessage(prefix, j, second))
    decreases |items|
  {
    var n := |items| - 1;
    if j < n {
      PairChecksAt(items[..n], prefix, first, second, j);
      assert items[..n][j] == items[j];
    }
  }

  /** The pair checks fail on the first entry with an empty field, naming
      that entry's index and which field is empty. */
  lemma PairChecksFirstBad(items: seq<(string, string)>, prefix: string, first: string,
                           second: string, i: nat)
    requires i < |items|
    requires forall j | 0 <= j < i :: |items[j].0| > 0 && |items[j].1| > 0
    requires |items[i].0| == 0 || |items[i].1| == 0
    ensures FirstFailure(PairChecks(items, prefix, first, second))
         == Fail(PairMessage(prefix, i, if |items[i].0| == 0 then first else second))
  {
    var cs := PairChecks(items, prefix, first, second);
    var k := if |items[i].0| == 0 then 2 * i else 2 * i + 1;
    forall m | 0 <= m < k
      ensures cs[m].ok
    {
      var j := m / 2;
      assert m == 2 * j || m == 2 * j + 1;
      assert j <= i;
      PairChecksAt(items, prefix, first, second, j);
      if j == i {
        assert m == 2 * i && |items[i].0| > 0;
      }
    }
    PairChecksAt(items, prefix, first, second, i);
    FailsAt(cs, k);
  }

  /** The pair checks pass exactly when every field of every entry is
      non-empty. */
  lemma PairChecksPass(items: seq<(string, string)>, prefix: string, first: string, second: string)
    ensures FirstFailure(PairChecks(items, prefix, first, second)) == Pass
        <==> forall j | 0 <= j < |items| :: |items[j].0| > 0 && |items[j].1| > 0
  {
    var cs := PairChecks(items, prefix, first, second);
    if forall j | 0 <= j < |items| :: |items[j].0| > 0 && |items[j].1| > 0 {
      forall m | 0 <= m < |cs|
        ensures cs[m].ok
      {
        var j := m / 2;
        assert m == 2 * j || m == 2 * j + 1;
        PairChecksAt(items, prefix, first, second, j);
      }
    }
    if FirstFailure(cs) == Pass {
      forall j | 0 <= j < |items|
        ensures |items[j].0| > 0 && |items[j].1| > 0
      {
        PairChecksAt(items, prefix, first, second, j);
        assert cs[2 * j].ok && cs[2 * j + 1].ok;
      }
    }
  }

  /** A short list of checks passes exactly when each of them holds. */
  lemma FewPass(cs: seq<Check>)
    requires |cs| <= 7
    ensures FirstFailure(cs) == Pass
        <==> (|cs| > 0 ==> cs[0].ok) && (|cs| > 1 ==> cs[1].ok) && (|cs| > 2 ==> cs[2].ok)
             && (|cs| > 3 ==> cs[3].ok) && (|cs| > 4 ==> cs[4].ok) && (|cs| > 5 ==> cs[5].ok)
             && (|cs| > 6 ==> cs[6].ok)
  {
  }

  /** Two runs of checks in a row pass exactly when each run passes. */
  lemma PassAppend(xs: seq<Check>, ys: seq<Check>)
    ensures FirstFailure(xs + ys) == Pass <==> FirstFailure(xs) == Pass && FirstFailure(ys) == Pass
  {
    FirstFailureAppend(xs, ys);
  }

  /** After a run of checks that passes, the outcome is decided by what
      follows: the first failure of the middle run, or else of the last. */
  lemma AfterPassingRun(xs: seq<Check>, ys: seq<Check>, zs: seq<Check>)
    requires FirstFailure(xs) == Pass
    ensures FirstFailure(xs + ys + zs) == (if FirstFailure(ys).Fail? then FirstFailure(ys) else FirstFailure(zs))
  {
    FirstFailureAppend(xs + ys, zs);
    FirstFailureAppend(xs, ys);
  }

  /** Once a run of checks fails, what follows it does not matter. */
  lemma FailedPrefix(xs: seq<Check>, ys: seq<Check>)
    requires FirstFailure(xs).Fail?
    ensures FirstFailure(xs + ys) == FirstFailure(xs)
  {
    FirstFailureAppend(xs, ys);
  }

  /** The check at `k` decides the outcome when it fails and every earlier
      one holds. */
  lemma FailsAt(cs: seq<Check>, k: nat)
    requires k < |cs| && !cs[k].ok
    requires forall j | 0 <= j < k :: cs[j].ok
    ensures FirstFailure(cs) == Fail(cs[k].message)
  {
    var r := FirstFailure(cs);
    var i :| 0 <= i < |cs| && !cs[i].ok && r.error == cs[i].message && forall j | 0 <= j < i :: cs[j].ok;
    assert i == k;
  }

  /** Of four runs of checks in a row, the first that fails decides them all. */
  lemma FirstOfFour(a: seq<Check>, b: seq<Check>, c: seq<Check>, d: seq<Check>)
    ensures FirstFailure(a + b + c + d)
         == if FirstFailure(a).Fail? then FirstFailure(a)
            else if FirstFailure(b).Fail? then FirstFailure(b)
            else if FirstFailure(c).Fail? then FirstFailure(c)
            else FirstFailure(d)
  {
    FirstFailureAppend(a + b + c, d);
    FirstFailureAppend(a + b, c);
    FirstFailureAppend(a, b);
  }
}
