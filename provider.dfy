/**
 * What the two platform back ends share: how a call into a platform ends, how one
 * track of a transfer loop ends, how a whole transfer ends, and the dictionary
 * updates both index builders perform.
 */
module Provider {
  import opened Text

  /**
   * An exception raised by a platform call. `Interrupted` is `KeyboardInterrupt`, which
   * is not an `Exception` and so escapes every `except Exception` handler; `Error` is
   * any other exception.
   */
  datatype Failure = Interrupted | Error

  /** What a platform call gave back: a value, or an exception. */
  datatype Reply<T> = Ok(value: T) | Raised(failure: Failure)

  /** How the processing of one track of a transfer loop ended. */
  datatype ItemEnd = Next | Stop(failure: Failure)

  /**
   * How a whole transfer ended: every track processed (`Finished`), an exception caught by
   * `except Exception` that returns the tracks collected so far (`Aborted`), the user's
   * interrupt turned into `sys.exit(0)` (`Cancelled`), or an exception raised before the
   * loop's handlers were entered (`Propagated`).
   */
  datatype TransferOutcome =
    | Finished(notFound: seq<string>)
    | Aborted(notFound: seq<string>)
    | Cancelled
    | Propagated(failure: Failure)

  /** The outcome of a transfer loop stopped by `f` after collecting `notFound`. */
  function Stopped(f: Failure, notFound: seq<string>): (r: TransferOutcome)
    ensures f.Interrupted? <==> r.Cancelled?
    ensures f.Error? <==> r == Aborted(notFound)
  {
    match f
    case Interrupted => Cancelled
    case Error => Aborted(notFound)
  }

  /** The dictionary after `d[k] = v` for every pair `(k, v)`, in order. */
  function PutAll(d: map<string, string>, pairs: seq<(string, string)>): (r: map<string, string>)
    ensures r.Keys == d.Keys + set k | 0 <= k < |pairs| :: pairs[k].0
  {
    if pairs == [] then d
    else
      var front := pairs[..|pairs| - 1];
      var last := pairs[|pairs| - 1];
      assert (set k | 0 <= k < |pairs| :: pairs[k].0) == (set k | 0 <= k < |front| :: front[k].0) + {last.0} by {
        assert forall k :: 0 <= k < |front| ==> front[k] == pairs[k];
      }
      PutAll(d, front)[last.0 := last.1]
  }

  /** The loop `for k, v in pairs: d[k] = v`. */
  method PutEach(d: map<string, string>, pairs: seq<(string, string)>) returns (r: map<string, string>)
    ensures r == PutAll(d, pairs)
  {
    r := d;
    for k := 0 to |pairs|
      invariant r == PutAll(d, pairs[..k])
    {
      assert pairs[..k + 1][..k] == pairs[..k];
      r := r[pairs[k].0 := pairs[k].1];
    }
    assert pairs[..|pairs|] == pairs;
  }

  /** Writing a list of pairs followed by one more writes that one last. */
  lemma {:induction false} PutAllSnoc(d: map<string, string>, pairs: seq<(string, string)>, p: (string, string))
    ensures PutAll(d, pairs + [p]) == PutAll(d, pairs)[p.0 := p.1]
  {
    assert (pairs + [p])[..|pairs|] == pairs;
  }

  /** Writing two runs of pairs is writing their concatenation. */
  lemma {:induction false} PutAllAppend(d: map<string, string>, a: seq<(string, string)>, b: seq<(string, string)>)
    ensures PutAll(d, a + b) == PutAll(PutAll(d, a), b)
    decreases |b|
  {
    if b == [] {
      assert a + b == a;
    } else {
      var front := b[..|b| - 1];
      assert (a + b)[..|a + b| - 1] == a + front;
      assert (a + b)[|a + b| - 1] == b[|b| - 1];
      PutAllAppend(d, a, front);
    }
  }

  /** The value a key ends up with is the one its last pair wrote. */
  lemma {:induction false} PutAllLastWins(d: map<string, string>, pairs: seq<(string, string)>, i: nat)
    requires i < |pairs|
    requires forall j :: i < j < |pairs| ==> pairs[j].0 != pairs[i].0
    ensures pairs[i].0 in PutAll(d, pairs) && PutAll(d, pairs)[pairs[i].0] == pairs[i].1
    decreases |pairs|
  {
    var front := pairs[..|pairs| - 1];
    if i < |pairs| - 1 {
      assert front[i] == pairs[i];
      PutAllLastWins(d, front, i);
    }
  }

  /** A key no pair writes keeps its value. */
  lemma {:induction false} PutAllUntouched(d: map<string, string>, pairs: seq<(string, string)>, key: string)
    requires key in d
    requires forall j :: 0 <= j < |pairs| ==> pairs[j].0 != key
    ensures key in PutAll(d, pairs) && PutAll(d, pairs)[key] == d[key]
    decreases |pairs|
  {
    if pairs != [] {
      var front := pairs[..|pairs| - 1];
      assert forall j :: 0 <= j < |front| ==> front[j] == pairs[j];
      PutAllUntouched(d, front, key);
    }
  }

  /** The calls one track of a transfer loop made, what it recorded as not found, and how it ended. */
  datatype ItemRun<C> = ItemRun(calls: seq<C>, recorded: seq<string>, end: ItemEnd)

  /** The calls of consecutive tracks, one after another. */
  function RunCalls<C>(runs: seq<ItemRun<C>>): seq<C> {
    if runs == [] then [] else RunCalls(runs[..|runs| - 1]) + runs[|runs| - 1].calls
  }

  /** What consecutive tracks recorded as not found, one after another. */
  function RunRecorded<C>(runs: seq<ItemRun<C>>): seq<string> {
    if runs == [] then [] else RunRecorded(runs[..|runs| - 1]) + runs[|runs| - 1].recorded
  }

  /** Appending one track's run appends its calls and what it recorded; a corollary of the definitions. */
  lemma {:induction false} RunsAppend<C>(runs: seq<ItemRun<C>>, t: ItemRun<C>)
    ensures RunCalls(runs + [t]) == RunCalls(runs) + t.calls
    ensures RunRecorded(runs + [t]) == RunRecorded(runs) + t.recorded
  {
    assert (runs + [t])[..|runs|] == runs;
  }

  /**
   * The shape of a transfer loop over `items` inside `try: … except KeyboardInterrupt:
   * sys.exit(0) except Exception: return not_found`: the tracks are processed in order,
   * each but the last one finishing normally; a track that stops on an exception ends the
   * loop, and otherwise every track was processed and the collected list is returned.
   */
  predicate LoopEnds<C>(items: seq<string>, runs: seq<ItemRun<C>>, outcome: TransferOutcome) {
    && |runs| <= |items|
    && (forall k :: 0 <= k < |runs| - 1 ==> runs[k].end == Next)
    && if |runs| > 0 && runs[|runs| - 1].end.Stop? then
         outcome == Stopped(runs[|runs| - 1].end.failure, RunRecorded(runs))
       else
         |runs| == |items| && outcome == Finished(RunRecorded(runs))
  }

  /** Tracks recording at most one entry each record at most one entry per track in total. */
  lemma {:induction false} RecordedBound<C>(runs: seq<ItemRun<C>>)
    requires forall k :: 0 <= k < |runs| ==> |runs[k].recorded| <= 1
    ensures |RunRecorded(runs)| <= |runs|
    decreases |runs|
  {
    if runs != [] {
      var front := runs[..|runs| - 1];
      assert forall k :: 0 <= k < |front| ==> front[k] == runs[k];
      RecordedBound(front);
    }
  }

  /** A transfer never reports more tracks as not found than it had to move. */
  lemma {:induction false} LoopNotFoundBound<C>(items: seq<string>, runs: seq<ItemRun<C>>, outcome: TransferOutcome)
    requires LoopEnds(items, runs, outcome)
    requires forall k :: 0 <= k < |runs| ==> |runs[k].recorded| <= 1
    ensures outcome.Finished? || outcome.Aborted? ==> |outcome.notFound| <= |items|
    ensures outcome.Cancelled? || outcome.Aborted? ==> |runs| > 0 && runs[|runs| - 1].end.Stop?
    ensures outcome.Finished? ==> |runs| == |items|
  {
    RecordedBound(runs);
  }

  /** Every entry a transfer reports as not found was recorded by one of its tracks. */
  lemma {:induction false} RecordedFrom<C>(runs: seq<ItemRun<C>>, x: string)
    requires x in RunRecorded(runs)
    ensures exists k :: 0 <= k < |runs| && x in runs[k].recorded
    decreases |runs|
  {
    var front := runs[..|runs| - 1];
    if x in RunRecorded(front) {
      RecordedFrom(front, x);
      var k :| 0 <= k < |front| && x in front[k].recorded;
      assert runs[k] == front[k];
    } else {
      assert x in runs[|runs| - 1].recorded;
    }
  }

  // The search for the first candidate a transfer loop accepts.

  /** The first position holding `true`. */
  function FirstTrue(verdicts: seq<bool>): (r: Option<nat>)
    decreases |verdicts|
  {
    if verdicts == [] then None
    else if verdicts[0] then Some(0)
    else
      var rest := FirstTrue(verdicts[1..]);
      if rest.None? then None else Some(rest.value + 1)
  }

  /** `FirstTrue` finds a `true`, the first one, and finds none exactly when there is none. */
  lemma {:induction false} FirstTrueFinds(verdicts: seq<bool>)
    ensures var r := FirstTrue(verdicts);
      && (r.Some? ==> r.value < |verdicts| && verdicts[r.value])
      && (r.Some? ==> forall j :: 0 <= j < r.value ==> !verdicts[j])
      && (r.None? <==> forall j :: 0 <= j < |verdicts| ==> !verdicts[j])
    decreases |verdicts|
  {
    if verdicts != [] && !verdicts[0] {
      FirstTrueFinds(verdicts[1..]);
      assert forall j :: 1 <= j < |verdicts| ==> verdicts[j] == verdicts[1..][j - 1];
    }
  }
}
