/**
 * The parts of Go's runtime and of github.com/pkg/errors that the tenancy
 * package leans on: a nil-able error value, errors.Wrap, and a way to say that
 * a call panics instead of returning.
 */
module GoRuntime {

  /** A Go `error`: either nil or an error whose Error() text is `message`. */
  datatype GoError = Nil | Err(message: string)

  /** A nil-able value (a Go pointer or a missing map/context entry). */
  datatype Option<+T> = None | Some(value: T)

  /** The result of a Go call that either returns normally or panics. */
  datatype Call<+T> = Returns(value: T) | Panics

  /**
   * errors.Wrap(err, message) from github.com/pkg/errors: nil when `err` is nil,
   * otherwise an error whose text is "message: " followed by err's text.
   */
  function Wrap(err: GoError, message: string): (r: GoError)
    ensures r.Nil? <==> err.Nil?
    ensures r.Err? ==> r.message == message + ": " + err.message
  {
    match err
    case Nil => Nil
    case Err(cause) => Err(message + ": " + cause)
  }

  /**
   * The accumulation the cleanup loops evidently mean: the first failure
   * starts a new error, every later one wraps the error built so far.
   */
  function Combine(err: GoError, message: string): GoError
  {
    if err.Nil? then Err(message) else Wrap(err, message)
  }

  /** How a cleanup loop folds one more failure message into its error. */
  datatype Folding = WrapEach | CombineEach

  /** One fold step: errors.Wrap as the source writes it, or Combine. */
  function Step(how: Folding, err: GoError, message: string): GoError
  {
    match how
    case WrapEach => Wrap(err, message)
    case CombineEach => Combine(err, message)
  }

  /**
   * The error a loop holding `acc` is left with after folding in each
   * failure message, in order.
   */
  function Fold(how: Folding, acc: GoError, failures: seq<string>): GoError
  {
    if failures == [] then acc
    else Step(how, Fold(how, acc, failures[..|failures| - 1]), failures[|failures| - 1])
  }

  /** The error a loop whose accumulator starts nil is left with. */
  function Accumulate(how: Folding, failures: seq<string>): GoError
  {
    Fold(how, Nil, failures)
  }

  /** Folding two runs of failures one after the other is folding their concatenation. */
  lemma {:induction false} FoldAppend(how: Folding, acc: GoError, front: seq<string>, back: seq<string>)
    ensures Fold(how, acc, front + back) == Fold(how, Fold(how, acc, front), back)
  {
    if back == [] {
      assert front + back == front;
    } else {
      var n := |back| - 1;
      FoldAppend(how, acc, front, back[..n]);
      assert (front + back)[..|front + back| - 1] == front + back[..n];
    }
  }

  /** `needle` occurs as a contiguous part of `hay`. */
  ghost predicate Contains(hay: string, needle: string)
  {
    exists i, j :: 0 <= i <= j <= |hay| && hay[i..j] == needle
  }

  /** Accumulating with errors.Wrap from a nil start never leaves nil: every failure is lost. */
  lemma {:induction false} WrapLosesEveryFailure(failures: seq<string>)
    ensures Accumulate(WrapEach, failures) == Nil
  {
    if failures != [] {
      WrapLosesEveryFailure(failures[..|failures| - 1]);
      assert Accumulate(WrapEach, failures) == Wrap(Accumulate(WrapEach, failures[..|failures| - 1]), failures[|failures| - 1]);
    }
  }

  lemma ContainsAfter(prefix: string, hay: string, needle: string)
    requires Contains(hay, needle)
    ensures Contains(prefix + hay, needle)
  {
    var i, j :| 0 <= i <= j <= |hay| && hay[i..j] == needle;
    assert (prefix + hay)[|prefix| + i..|prefix| + j] == needle;
  }

  lemma ContainsStart(head: string, tail: string)
    ensures Contains(head + tail, head)
  {
    assert (head + tail)[0..|head|] == head;
  }

  /**
   * Accumulating with Combine yields nil exactly when nothing failed, and the
   * combined error's text mentions every failure message.
   */
  lemma {:induction false} CombineKeepsEveryFailure(failures: seq<string>)
    ensures Accumulate(CombineEach, failures).Nil? <==> failures == []
    ensures forall m :: m in failures ==> Contains(Accumulate(CombineEach, failures).message, m)
  {
    if failures != [] {
      var n := |failures| - 1;
      var front := failures[..n];
      CombineKeepsEveryFailure(front);
      var prev := Accumulate(CombineEach, front);
      var last := failures[n];
      var r := Accumulate(CombineEach, failures);
      assert r == Combine(prev, last);
      forall m | m in failures
        ensures Contains(r.message, m)
      {
        if m == last {
          if prev.Nil? {
            assert r.message == last + "";
            ContainsStart(last, "");
          } else {
            ContainsStart(last, ": " + prev.message);
            assert r.message == last + (": " + prev.message);
          }
        } else {
          assert failures == front + [last];
          assert m in front;
          ContainsAfter(last + ": ", prev.message, m);
        }
      }
    }
  }
}
