/** The shape shared by the webhook normalisers: walk a list in order, let
    each item contribute zero or more records, append them, and stop at the
    first item whose processing raises. */
module EventLists {
  import opened PyJson

  /** The records of `xs` in order, or the exception of the first item that
      raises. Defined from the back so that a loop over a growing prefix
      extends it one item at a time. */
  function Collect<T, U>(xs: seq<T>, f: T -> Py<seq<U>>): Py<seq<U>>
    decreases |xs|
  {
    if xs == [] then Ok([])
    else
      var init :- Collect(xs[..|xs| - 1], f);
      var last :- f(xs[|xs| - 1]);
      Ok(init + last)
  }

  /** The sum of a weight over a list. */
  function Sum<T>(xs: seq<T>, w: T -> nat): nat
    decreases |xs|
  {
    if xs == [] then 0 else Sum(xs[..|xs| - 1], w) + w(xs[|xs| - 1])
  }

  /** One more item extends the collection of a prefix. */
  lemma CollectStep<T, U>(xs: seq<T>, i: nat, f: T -> Py<seq<U>>)
    requires i < |xs|
    ensures Collect(xs[..i + 1], f) ==
      match Collect(xs[..i], f)
      case Raise(e) => Raise(e)
      case Ok(init) => (match f(xs[i]) case Raise(e) => Raise(e) case Ok(last) => Ok(init + last))
  {
    assert xs[..i + 1][..i] == xs[..i];
  }

  /** The collection of a list cut in two is the collection of the first part
      followed by that of the second; records keep the order of their items. */
  lemma {:induction false} CollectAppend<T, U>(xs: seq<T>, ys: seq<T>, f: T -> Py<seq<U>>)
    ensures Collect(xs + ys, f) ==
      match Collect(xs, f)
      case Raise(e) => Raise(e)
      case Ok(a) => (match Collect(ys, f) case Raise(e) => Raise(e) case Ok(b) => Ok(a + b))
    decreases |ys|
  {
    if ys == [] {
      assert xs + ys == xs;
      match Collect(xs, f)
      case Raise(e) =>
      case Ok(a) => assert a + [] == a;
    } else {
      var ys' := ys[..|ys| - 1];
      assert (xs + ys)[..|xs + ys| - 1] == xs + ys';
      assert (xs + ys)[|xs + ys| - 1] == ys[|ys| - 1];
      CollectAppend(xs, ys', f);
      match Collect(xs, f)
      case Raise(e) =>
      case Ok(a) =>
        match Collect(ys', f)
        case Raise(e) =>
        case Ok(b) =>
          match f(ys[|ys| - 1])
          case Raise(e) =>
          case Ok(c) => assert a + (b + c) == (a + b) + c;
    }
  }

  /** Once a prefix raises, so does the whole list, with the same exception. */
  lemma CollectPrefixRaise<T, U>(xs: seq<T>, n: nat, f: T -> Py<seq<U>>)
    requires n <= |xs| && Collect(xs[..n], f).Raise?
    ensures Collect(xs, f) == Collect(xs[..n], f)
  {
    assert xs == xs[..n] + xs[n..];
    CollectAppend(xs[..n], xs[n..], f);
  }

  /** A successful collection means every item succeeded, and the record count
      is bounded by the sum of the per-item bounds. */
  lemma {:induction false} CollectBound<T, U>(xs: seq<T>, f: T -> Py<seq<U>>, w: T -> nat)
    requires forall i :: 0 <= i < |xs| && f(xs[i]).Ok? ==> |f(xs[i]).value| <= w(xs[i])
    ensures Collect(xs, f).Ok? ==>
      (forall i :: 0 <= i < |xs| ==> f(xs[i]).Ok?) && |Collect(xs, f).value| <= Sum(xs, w)
    decreases |xs|
  {
    if xs != [] {
      var init := xs[..|xs| - 1];
      assert forall i :: 0 <= i < |init| ==> init[i] == xs[i];
      CollectBound(init, f, w);
    }
  }

  /** The same with exact per-item counts: the record count is their sum. */
  lemma {:induction false} CollectExact<T, U>(xs: seq<T>, f: T -> Py<seq<U>>, w: T -> nat)
    requires forall i :: 0 <= i < |xs| && f(xs[i]).Ok? ==> |f(xs[i]).value| == w(xs[i])
    ensures Collect(xs, f).Ok? ==> |Collect(xs, f).value| == Sum(xs, w)
    decreases |xs|
  {
    if xs != [] {
      var init := xs[..|xs| - 1];
      assert forall i :: 0 <= i < |init| ==> init[i] == xs[i];
      CollectExact(init, f, w);
    }
  }

  /** A property every item's records have is had by all collected records. */
  lemma {:induction false} CollectAll<T, U>(xs: seq<T>, f: T -> Py<seq<U>>, P: U -> bool)
    requires forall i, j :: 0 <= i < |xs| && f(xs[i]).Ok? && 0 <= j < |f(xs[i]).value| ==> P(f(xs[i]).value[j])
    ensures Collect(xs, f).Ok? ==> forall k :: 0 <= k < |Collect(xs, f).value| ==> P(Collect(xs, f).value[k])
    decreases |xs|
  {
    if xs != [] && Collect(xs, f).Ok? {
      var init := xs[..|xs| - 1];
      assert forall i :: 0 <= i < |init| ==> init[i] == xs[i];
      CollectAll(init, f, P);
      var a := Collect(init, f).value;
      var b := f(xs[|xs| - 1]).value;
      assert Collect(xs, f).value == a + b;
      forall k | 0 <= k < |a + b|
        ensures P((a + b)[k])
      {
        if k >= |a| {
          assert (a + b)[k] == b[k - |a|];
        }
      }
    }
  }

  /** The first item that raises decides the outcome. */
  lemma {:induction false} CollectFirstRaise<T, U>(xs: seq<T>, f: T -> Py<seq<U>>, k: nat)
    requires k < |xs| && f(xs[k]).Raise?
    requires forall i :: 0 <= i < k ==> f(xs[i]).Ok?
    ensures Collect(xs, f) == Raise(f(xs[k]).error)
  {
    CollectBound(xs[..k], f, x => if f(x).Ok? then |f(x).value| else 0);
    assert xs == xs[..k] + [xs[k]] + xs[k + 1..];
    CollectAppend(xs[..k], [xs[k]], f);
    CollectAppend(xs[..k] + [xs[k]], xs[k + 1..], f);
    assert Collect([xs[k]], f) == Raise(f(xs[k]).error) by {
      assert [xs[k]][..0] == [];
    }
    if Collect(xs[..k], f).Raise? {
      // every item of the prefix succeeds, so the prefix cannot raise
      CollectPrefixOk(xs[..k], f);
    }
  }

  lemma {:induction false} CollectPrefixOk<T, U>(xs: seq<T>, f: T -> Py<seq<U>>)
    requires forall i :: 0 <= i < |xs| ==> f(xs[i]).Ok?
    ensures Collect(xs, f).Ok?
    decreases |xs|
  {
    if xs != [] {
      var init := xs[..|xs| - 1];
      assert forall i :: 0 <= i < |init| ==> init[i] == xs[i];
      CollectPrefixOk(init, f);
    }
  }

  /** A weight of one per item sums to the length. */
  lemma {:induction false} SumOfOnes<T>(xs: seq<T>, w: T -> nat)
    requires forall i :: 0 <= i < |xs| ==> w(xs[i]) == 1
    ensures Sum(xs, w) == |xs|
    decreases |xs|
  {
    if xs != [] {
      var init := xs[..|xs| - 1];
      assert forall i :: 0 <= i < |init| ==> init[i] == xs[i];
      SumOfOnes(init, w);
    }
  }
}
