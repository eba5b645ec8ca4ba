/**
 * What the two list widgets share: keeping the elements a predicate accepts,
 * in order, and the "Showing <k> of <n> ..." status line.
 */
module ListFilter {
  import opened Text

  /** `xs` is `ys` with some elements left out, the rest in the same order. */
  predicate Subsequence<T(==)>(xs: seq<T>, ys: seq<T>)
    decreases |ys|
  {
    if xs == [] then true
    else if ys == [] then false
    else if xs[0] == ys[0] then Subsequence(xs[1..], ys[1..])
    else Subsequence(xs, ys[1..])
  }

  lemma {:induction false} SubsequenceRefl<T>(xs: seq<T>)
    ensures Subsequence(xs, xs)
    decreases |xs|
  {
    if xs != [] {
      SubsequenceRefl(xs[1..]);
    }
  }

  /** `[x for x in xs if keep(x)]`. */
  function Keep<T(==,!new)>(xs: seq<T>, keep: T -> bool): (r: seq<T>)
    decreases |xs|
    ensures |r| <= |xs|
    ensures forall i :: 0 <= i < |r| ==> keep(r[i])
    ensures forall x :: x in r <==> x in xs && keep(x)
    ensures Subsequence(r, xs)
    ensures forall x :: multiset(r)[x] == if keep(x) then multiset(xs)[x] else 0
  {
    if xs == [] then []
    else
      assert xs == [xs[0]] + xs[1..];
      if keep(xs[0]) then
        var tail := Keep(xs[1..], keep);
        assert ([xs[0]] + tail)[1..] == tail;
        [xs[0]] + tail
      else
        Keep(xs[1..], keep)
  }

  /** When every element is accepted nothing is dropped. */
  lemma {:induction false} KeepAll<T(!new)>(xs: seq<T>, keep: T -> bool)
    requires forall i :: 0 <= i < |xs| ==> keep(xs[i])
    ensures Keep(xs, keep) == xs
    decreases |xs|
  {
    if xs != [] {
      assert keep(xs[0]);
      KeepAll(xs[1..], keep);
      assert Keep(xs, keep) == [xs[0]] + Keep(xs[1..], keep);
      assert xs == [xs[0]] + xs[1..];
    }
  }

  /** Filtering twice with the same predicate is filtering once. */
  lemma {:induction false} KeepIdempotent<T(!new)>(xs: seq<T>, keep: T -> bool)
    ensures Keep(Keep(xs, keep), keep) == Keep(xs, keep)
  {
    var r := Keep(xs, keep);
    KeepAll(r, keep);
  }

  /** "Showing <shown> of <total> <things>". */
  function StatusText(shown: nat, total: nat, things: string): string {
    JoinSpace(["Showing", NatToString(shown), "of", NatToString(total), things])
  }

  /** Both counts read back from the status line. */
  lemma {:induction false} StatusTextCounts(shown: nat, total: nat, things: string)
    requires things != [] && NoSpace(things)
    ensures var w := Words(StatusText(shown, total, things));
      w == ["Showing", NatToString(shown), "of", NatToString(total), things] &&
      DigitsValue(w[1]) == shown && DigitsValue(w[3]) == total
  {
    var ws := ["Showing", NatToString(shown), "of", NatToString(total), things];
    assert "Showing" != [] && NoSpace("Showing") && "of" != [] && NoSpace("of");
    WordsJoinSpace(ws);
    assert Words(StatusText(shown, total, things)) == ws;
    DigitsValueOfNat(shown);
    DigitsValueOfNat(total);
  }

  /** The status line of a list widget that has no device. */
  const NoDeviceText: string := "No device selected"

  /** A count status never reads as the no-device status. */
  lemma {:induction false} StatusTextNotNoDevice(shown: nat, total: nat, things: string)
    ensures StatusText(shown, total, things) != NoDeviceText
  {
    var ws := ["Showing", NatToString(shown), "of", NatToString(total), things];
    assert StatusText(shown, total, things)[0] == 'S' by {
      assert JoinSpace(ws) == "Showing" + " " + JoinSpace(ws[1..]);
    }
  }
}
