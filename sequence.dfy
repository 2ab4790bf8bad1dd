/**
 * The sequence allocator (`get_next_id`): a collection of named counters,
 * each an upsert-and-increment of `sequence_value` on the document whose
 * `_id` is the counter's name. A counter that does not exist yet counts as
 * 0, so its first allocation yields 1.
 */
module Sequence {

  /** The value a counter holds; a counter never used holds 0. */
  function Current(values: map<string, int>, name: string): int
  {
    if name in values then values[name] else 0
  }

  class Counters {
    /** `sequence_value` of every counter document, by `_id`. */
    var values: map<string, int>

    constructor ()
      ensures values == map[]
    {
      values := map[];
    }

    /** `get_next_id(name)`: increment the named counter, creating it when
        absent, and return its new value. */
    method NextId(name: string) returns (id: int)
      modifies this
      ensures id == Current(old(values), name) + 1
      ensures values == old(values)[name := id]
      ensures forall other :: other != name ==> Current(values, other) == Current(old(values), other)
    {
      id := Current(values, name) + 1;
      values := values[name := id];
    }

    /** `get_next_id` called on `calls[0]`, `calls[1]`, ... in turn: the
        values returned are the run `Issued` describes, and each counter has
        moved on by the number of calls naming it. */
    method NextIds(calls: seq<string>) returns (ids: seq<int>)
      modifies this
      ensures ids == Issued(old(values), calls)
      ensures forall name :: Current(values, name) == Current(old(values), name) + Occurrences(calls, name)
      decreases |calls|
    {
      if calls == [] {
        return [];
      }
      var id := NextId(calls[0]);
      var rest := NextIds(calls[1..]);
      ids := [id] + rest;
    }
  }

  // ---------------------------------------------------------------------
  // What a run of allocations returns
  // ---------------------------------------------------------------------

  /** The values a sequence of `NextId` calls, naming `calls[0]`,
      `calls[1]`, ... in turn, returns when the counters start at `start`. */
  function Issued(start: map<string, int>, calls: seq<string>): (ids: seq<int>)
    ensures |ids| == |calls|
    decreases |calls|
  {
    if calls == [] then []
    else
      var id := Current(start, calls[0]) + 1;
      [id] + Issued(start[calls[0] := id], calls[1..])
  }

  /** How many times `x` occurs in `s`. */
  function Occurrences(s: seq<string>, x: string): nat
  {
    if s == [] then 0 else (if s[0] == x then 1 else 0) + Occurrences(s[1..], x)
  }

  /** The i-th allocation of a run yields its counter's starting value plus
      one plus the number of earlier allocations from the same counter. */
  lemma {:induction false} IssuedAt(start: map<string, int>, calls: seq<string>, i: nat)
    requires i < |calls|
    ensures Issued(start, calls)[i] == Current(start, calls[i]) + 1 + Occurrences(calls[..i], calls[i])
    decreases i
  {
    if i > 0 {
      var next := start[calls[0] := Current(start, calls[0]) + 1];
      IssuedAt(next, calls[1..], i - 1);
      assert calls[1..][..i - 1] == calls[..i][1..];
      assert calls[..i][0] == calls[0];
      assert Current(next, calls[i]) == Current(start, calls[i]) + (if calls[0] == calls[i] then 1 else 0);
    } else {
      assert calls[..0] == [];
    }
  }

  lemma {:induction false} OccurrencesGrow(s: seq<string>, i: nat, j: nat, x: string)
    requires i < j <= |s| && s[i] == x
    ensures Occurrences(s[..i], x) < Occurrences(s[..j], x)
  {
    if i == 0 {
      assert s[..j][0] == x;
    } else {
      OccurrencesGrow(s[1..], i - 1, j - 1, x);
      assert s[1..][..i - 1] == s[..i][1..];
      assert s[1..][..j - 1] == s[..j][1..];
      assert s[..i][0] == s[0] && s[..j][0] == s[0];
    }
  }

  /** A counter never returns the same value twice: later allocations from
      the same counter return strictly larger values. */
  lemma IssuedIncreasing(start: map<string, int>, calls: seq<string>, i: nat, j: nat)
    requires i < j < |calls| && calls[i] == calls[j]
    ensures Issued(start, calls)[i] < Issued(start, calls)[j]
  {
    IssuedAt(start, calls, i);
    IssuedAt(start, calls, j);
    OccurrencesGrow(calls, i, j, calls[i]);
  }

  /** A counter that did not exist yields 1, 2, 3, ...: its k-th allocation
      (counting from 0) yields k + 1. */
  lemma IssuedFromFresh(start: map<string, int>, calls: seq<string>, i: nat)
    requires i < |calls| && calls[i] !in start
    ensures Issued(start, calls)[i] == Occurrences(calls[..i], calls[i]) + 1
  {
    IssuedAt(start, calls, i);
  }

  /** Consecutive allocations from one counter, with none from it between,
      differ by exactly one. */
  lemma IssuedConsecutive(start: map<string, int>, calls: seq<string>, i: nat, j: nat)
    requires i < j < |calls| && calls[i] == calls[j]
    requires forall k :: i < k < j ==> calls[k] != calls[i]
    ensures Issued(start, calls)[j] == Issued(start, calls)[i] + 1
  {
    IssuedAt(start, calls, i);
    IssuedAt(start, calls, j);
    OccurrencesBetween(calls, i, j);
  }

  lemma {:induction false} OccurrencesBetween(s: seq<string>, i: nat, j: nat)
    requires i < j <= |s|
    requires forall k :: i < k < j ==> s[k] != s[i]
    ensures Occurrences(s[..j], s[i]) == Occurrences(s[..i], s[i]) + 1
  {
    if i == 0 {
      OccurrencesAbsent(s[1..j], s[0]);
      assert s[..j][1..] == s[1..j];
      assert s[..0] == [];
    } else {
      OccurrencesBetween(s[1..], i - 1, j - 1);
      assert s[1..][..i - 1] == s[..i][1..];
      assert s[1..][..j - 1] == s[..j][1..];
      assert s[..i][0] == s[0] && s[..j][0] == s[0];
    }
  }

  lemma {:induction false} OccurrencesAbsent(s: seq<string>, x: string)
    requires forall k :: 0 <= k < |s| ==> s[k] != x
    ensures Occurrences(s, x) == 0
  {
    if s != [] {
      OccurrencesAbsent(s[1..], x);
    }
  }
}
