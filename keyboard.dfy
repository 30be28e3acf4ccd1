/** Reply-keyboard layout shared by the bot's handlers: buttons are laid out greedily,
    appending to the last row while it holds fewer than two buttons. */
module Keyboard {
  /** The buttons of a layout, row by row. */
  function Flatten<T>(rows: seq<seq<T>>): seq<T> {
    if rows == [] then [] else rows[0] + Flatten(rows[1..])
  }

  /** The layout the greedy two-per-row loop produces. */
  function Pairs<T>(xs: seq<T>): seq<seq<T>>
    decreases |xs|
  {
    if xs == [] then [] else if |xs| <= 2 then [xs] else [xs[..2]] + Pairs(xs[2..])
  }

  lemma {:induction false} FlattenAppend<T>(a: seq<seq<T>>, b: seq<seq<T>>)
    ensures Flatten(a + b) == Flatten(a) + Flatten(b)
  {
    if a == [] {
      assert a + b == b;
    } else {
      assert (a + b)[0] == a[0] && (a + b)[1..] == a[1..] + b;
      FlattenAppend(a[1..], b);
    }
  }

  /** Every button appears exactly once, in order. */
  lemma {:induction false} PairsFlatten<T>(xs: seq<T>)
    ensures Flatten(Pairs(xs)) == xs
    decreases |xs|
  {
    if |xs| > 2 {
      PairsFlatten(xs[2..]);
      assert Pairs(xs)[1..] == Pairs(xs[2..]);
      assert xs == xs[..2] + xs[2..];
    }
  }

  /** Rows hold one or two buttons; all rows but the last hold two, and the last
      holds one exactly when the number of buttons is odd. */
  lemma {:induction false} PairsRows<T>(xs: seq<T>)
    ensures |Pairs(xs)| == (|xs| + 1) / 2
    ensures forall r :: 0 <= r < |Pairs(xs)| ==> 1 <= |Pairs(xs)[r]| <= 2
    ensures forall r :: 0 <= r < |Pairs(xs)| - 1 ==> |Pairs(xs)[r]| == 2
    ensures xs != [] ==> |Pairs(xs)[|Pairs(xs)| - 1]| == 2 - |xs| % 2
    decreases |xs|
  {
    if |xs| > 2 {
      PairsRows(xs[2..]);
      assert forall r :: 1 <= r < |Pairs(xs)| ==> Pairs(xs)[r] == Pairs(xs[2..])[r - 1];
    }
  }

  /** After an even number of buttons, one more starts a new row. */
  lemma {:induction false} PairsSnocEven<T>(xs: seq<T>, x: T)
    requires |xs| % 2 == 0
    ensures Pairs(xs + [x]) == Pairs(xs) + [[x]]
    decreases |xs|
  {
    var ys := xs + [x];
    if xs == [] {
      assert ys == [x];
    } else {
      assert |xs| >= 2;
      if |xs| == 2 {
        assert ys[..2] == xs && ys[2..] == [x];
      } else {
        assert ys[..2] == xs[..2] && ys[2..] == xs[2..] + [x];
        PairsSnocEven(xs[2..], x);
        calc {
          Pairs(ys);
          [xs[..2]] + Pairs(xs[2..] + [x]);
          [xs[..2]] + (Pairs(xs[2..]) + [[x]]);
          ([xs[..2]] + Pairs(xs[2..])) + [[x]];
        }
      }
    }
  }

  /** After an odd number of buttons, one more joins the last row. */
  lemma {:induction false} PairsSnocOdd<T>(xs: seq<T>, x: T)
    requires |xs| % 2 == 1
    ensures Pairs(xs) != []
    ensures Pairs(xs + [x]) == Pairs(xs)[..|Pairs(xs)| - 1] + [Pairs(xs)[|Pairs(xs)| - 1] + [x]]
    decreases |xs|
  {
    var ys := xs + [x];
    if |xs| == 1 {
      assert Pairs(ys) == [ys];
    } else {
      assert ys[..2] == xs[..2] && ys[2..] == xs[2..] + [x];
      PairsSnocOdd(xs[2..], x);
      var p := Pairs(xs[2..]);
      var h := [xs[..2]];
      assert Pairs(xs) == h + p;
      assert Pairs(ys) == h + (p[..|p| - 1] + [p[|p| - 1] + [x]]);
      assert (h + p)[..|p|] == h + p[..|p| - 1];
      assert (h + p)[|p|] == p[|p| - 1];
    }
  }

  /** One step of the greedy loop over `xs`: the layout of `xs[..i+1]` from that of `xs[..i]`,
      on the loop's own test "no row yet, or the last row is full". */
  lemma PairsStep<T>(xs: seq<T>, i: nat)
    requires i < |xs|
    ensures var p := Pairs(xs[..i]);
            if p == [] || |p[|p| - 1]| == 2 then Pairs(xs[..i + 1]) == p + [[xs[i]]]
            else Pairs(xs[..i + 1]) == p[..|p| - 1] + [p[|p| - 1] + [xs[i]]]
  {
    assert xs[..i + 1] == xs[..i] + [xs[i]];
    if i % 2 == 0 { PairsSnocEven(xs[..i], xs[i]); } else { PairsSnocOdd(xs[..i], xs[i]); }
    PairsRows(xs[..i]);
  }
}
