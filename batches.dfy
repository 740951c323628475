/** The shape the three offline importers share: a loop over the records of a dump, each
 *  of which is inserted, skipped, or ends the import (a reader error returns, a failed
 *  assertion panics) before the transaction is committed. */
module Batches {
  import opened Wrappers

  /** What a bulk import inserted, record by record, and why it stopped early if it did.
   *  An import that stops early never commits its transaction. */
  datatype Batch<+T> = Batch(rows: seq<T>, aborted: Option<string>)

  /** The import of `xs`, where `f` says what one record becomes: a row to insert, nothing
   *  (a `continue`), or the error that ends the import. */
  function Collect<X, T>(xs: seq<X>, f: X -> Result<Option<T>>): Batch<T>
    decreases |xs|
  {
    if xs == [] then Batch([], None)
    else
      var b := Collect(xs[..|xs| - 1], f);
      if b.aborted.Some? then b
      else match f(xs[|xs| - 1])
        case Err(e) => Batch(b.rows, Some(e))
        case Ok(None) => b
        case Ok(Some(r)) => Batch(b.rows + [r], None)
  }

  /** One more record, for the importers' loops. */
  lemma CollectNext<X, T>(xs: seq<X>, f: X -> Result<Option<T>>, i: nat)
    requires i < |xs| && Collect(xs[..i], f).aborted.None?
    ensures Collect(xs[..i + 1], f) ==
      match f(xs[i])
      case Err(e) => Batch(Collect(xs[..i], f).rows, Some(e))
      case Ok(None) => Collect(xs[..i], f)
      case Ok(Some(r)) => Batch(Collect(xs[..i], f).rows + [r], None)
  {
    assert xs[..i + 1][..i] == xs[..i];
  }

  /** A refused record ends the import with its error. */
  lemma CollectStops<X, T>(xs: seq<X>, f: X -> Result<Option<T>>, i: nat, rows: seq<T>)
    requires i < |xs| && Collect(xs[..i], f) == Batch(rows, None) && f(xs[i]).Err?
    ensures Collect(xs, f) == Batch(rows, Some(f(xs[i]).msg))
  {
    CollectNext(xs, f, i);
    AbortedStaysAborted(xs, f, i + 1);
  }

  /** Once the import has stopped, later records change nothing. */
  lemma {:induction false} AbortedStaysAborted<X, T>(xs: seq<X>, f: X -> Result<Option<T>>, n: nat)
    requires n <= |xs| && Collect(xs[..n], f).aborted.Some?
    ensures Collect(xs, f) == Collect(xs[..n], f)
    decreases |xs| - n
  {
    if n < |xs| {
      assert xs[..n + 1][..n] == xs[..n];
      AbortedStaysAborted(xs, f, n + 1);
    } else {
      assert xs[..n] == xs;
    }
  }

  /** The import stops exactly when some record is refused, and then with the error of
   *  the first refused record, having inserted what the records before it gave. */
  lemma {:induction false} CollectStopsIff<X, T>(xs: seq<X>, f: X -> Result<Option<T>>)
    ensures Collect(xs, f).aborted.Some? <==> exists k :: 0 <= k < |xs| && f(xs[k]).Err?
    ensures Collect(xs, f).aborted.Some? ==>
      exists k :: 0 <= k < |xs| && f(xs[k]).Err? && Collect(xs, f).aborted == Some(f(xs[k]).msg)
        && Collect(xs[..k], f) == Batch(Collect(xs, f).rows, None)
  {
    if xs != [] {
      var n := |xs| - 1;
      var prefix := xs[..n];
      CollectStopsIff(prefix, f);
      assert forall k :: 0 <= k < n ==> prefix[k] == xs[k];
      if Collect(prefix, f).aborted.Some? {
        var k :| 0 <= k < n && f(prefix[k]).Err? && Collect(prefix, f).aborted == Some(f(prefix[k]).msg)
          && Collect(prefix[..k], f) == Batch(Collect(prefix, f).rows, None);
        assert prefix[..k] == xs[..k];
        assert f(xs[k]).Err?;
      } else {
        assert xs[..n] == prefix;
      }
    }
  }

  /** An import that was not stopped inserts the row of every kept record, and nothing
   *  else; the rows keep the order of their records. */
  lemma {:induction false} CollectInsertsKept<X, T>(xs: seq<X>, f: X -> Result<Option<T>>)
    requires Collect(xs, f).aborted.None?
    ensures forall k :: 0 <= k < |xs| ==>
      f(xs[k]).Ok? && (f(xs[k]).value.Some? ==> f(xs[k]).value.value in Collect(xs, f).rows)
    ensures forall r :: r in Collect(xs, f).rows ==>
      exists k :: 0 <= k < |xs| && f(xs[k]) == Ok(Some(r))
  {
    if xs != [] {
      var n := |xs| - 1;
      var prefix := xs[..n];
      CollectInsertsKept(prefix, f);
      assert forall k :: 0 <= k < n ==> prefix[k] == xs[k];
      var b := Collect(prefix, f);
      assert b.rows <= Collect(xs, f).rows;
      forall r | r in Collect(xs, f).rows
        ensures exists k :: 0 <= k < |xs| && f(xs[k]) == Ok(Some(r))
      {
        if r !in b.rows {
          assert f(xs[n]) == Ok(Some(r));
        } else {
          var k :| 0 <= k < n && f(prefix[k]) == Ok(Some(r));
          assert xs[k] == prefix[k];
        }
      }
    }
  }
}
