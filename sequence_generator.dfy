/**
 * The id allocator: one increment-and-fetch with upsert on a counter document keyed by the
 * sequence name, returning the counter's new value.
 */
module Sequences {
  import opened Wrappers

  /** A counter document: the sequence name and its current value (the `seq` field). */
  datatype DatabaseSequence = DatabaseSequence(id: string, value: int)

  /** The counter of `name` after one increment; an absent counter is created by the increment, from 0. */
  function Incremented(counters: map<string, int>, name: string): int {
    (if name in counters then counters[name] else 0) + 1
  }

  /** The value returned for the store's answer: the counter's value, or 1 when no document came back. */
  function SequenceOrDefault(counter: Option<DatabaseSequence>): (r: int)
    ensures counter.None? ==> r == 1
    ensures counter.Some? ==> r == counter.value.value
  {
    if counter.Some? then counter.value.value else 1
  }

  /** The values that `k` successive allocations for `name` return, starting from `counters`. */
  function Issue(counters: map<string, int>, name: string, k: nat): seq<int>
    decreases k
  {
    if k == 0 then []
    else
      var next := Incremented(counters, name);
      [next] + Issue(counters[name := next], name, k - 1)
  }

  /**
   * Successive allocations for one name return consecutive values, one above the counter's
   * current value (or 1, 2, ... for a fresh name).
   */
  lemma {:induction false} IssueValues(counters: map<string, int>, name: string, k: nat)
    ensures |Issue(counters, name, k)| == k
    ensures forall i | 0 <= i < k ::
      Issue(counters, name, k)[i] == (if name in counters then counters[name] else 0) + i + 1
    decreases k
  {
    if k > 0 {
      var next := Incremented(counters, name);
      IssueValues(counters[name := next], name, k - 1);
    }
  }

  /** Successive allocations for one name are strictly increasing, so never repeat. */
  lemma IssueStrictlyIncreasing(counters: map<string, int>, name: string, k: nat, i: int, j: int)
    requires 0 <= i < j < k
    ensures |Issue(counters, name, k)| == k && Issue(counters, name, k)[i] < Issue(counters, name, k)[j]
  {
    IssueValues(counters, name, k);
  }

  /** The sequence service over the counter collection, modelled as a map from name to value. */
  class SequenceGeneratorService {
    var counters: map<string, int>

    constructor (counters: map<string, int>)
      ensures this.counters == counters
    {
      this.counters := counters;
    }

    /** The store's atomic find-and-modify with `$inc`, upsert and "return the new document". */
    method FindAndModify(name: string) returns (counter: Option<DatabaseSequence>)
      modifies this
      ensures counters == old(counters)[name := Incremented(old(counters), name)]
      ensures counter == Some(DatabaseSequence(name, counters[name]))
    {
      counters := counters[name := Incremented(counters, name)];
      counter := Some(DatabaseSequence(name, counters[name]));
    }

    /**
     * Allocates the next value of `name`: one above its counter, 1 for a fresh name. Only that
     * counter changes, and it now holds the value returned.
     */
    method GenerateSequence(name: string) returns (value: int)
      modifies this
      ensures name in old(counters) ==> value == old(counters)[name] + 1
      ensures name !in old(counters) ==> value == 1
      ensures counters == old(counters)[name := value]
    {
      var counter := FindAndModify(name);
      value := SequenceOrDefault(counter);
    }
  }
}
