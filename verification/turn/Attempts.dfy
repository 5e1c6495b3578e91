/** The capped table of binding attempts, as a function of the calls made. */
module Attempts {

  const MAX_TRACKED_SOURCES := 1024

  /** The table after one call for `key`. */
  function Counted(table: map<string, nat>, key: string): map<string, nat>
  {
    if |table| >= MAX_TRACKED_SOURCES && key !in table then table
    else table[key := AttemptsFor(table, key) + 1]
  }

  /** The number that one call for `key` returns. */
  function Attempt(table: map<string, nat>, key: string): nat
  {
    if |table| >= MAX_TRACKED_SOURCES && key !in table then 1 else AttemptsFor(table, key) + 1
  }

  function AttemptsFor(table: map<string, nat>, key: string): nat
  {
    if key in table then table[key] else 0
  }

  /** The table after calls for `calls`, from an empty one. */
  function Tally(calls: seq<string>): map<string, nat>
  {
    if calls == [] then map[] else Counted(Tally(calls[..|calls| - 1]), calls[|calls| - 1])
  }

  function Sources(calls: seq<string>): set<string>
  {
    set key | key in calls
  }

  /** How often `key` was called for. */
  function Calls(calls: seq<string>, key: string): nat
  {
    multiset(calls)[key]
  }

  lemma SplitLast(calls: seq<string>)
    requires calls != []
    ensures var init, last := calls[..|calls| - 1], calls[|calls| - 1];
      && calls == init + [last]
      && multiset(calls) == multiset(init) + multiset{last}
      && Sources(calls) == Sources(init) + {last}
  {
    assert calls == calls[..|calls| - 1] + [calls[|calls| - 1]];
  }

  /** The table holds as many sources as were seen, up to the cap, each with its own number of
      calls; up to the cap it holds all of them. */
  lemma {:induction false} TallyIsExact(calls: seq<string>)
    ensures var n, table := |Sources(calls)|, Tally(calls);
      && |table| == (if n <= 1024 then n else 1024)
      && table.Keys <= Sources(calls)
      && (n <= 1024 ==> table.Keys == Sources(calls))
      && (forall key | key in table :: table[key] == Calls(calls, key) > 0)
  {
    if calls != [] {
      var init, last := calls[..|calls| - 1], calls[|calls| - 1];
      TallyIsExact(init);
      SplitLast(calls);
      TallyStep(init, last, Tally(init));
    }
  }

  lemma TallyStep(init: seq<string>, last: string, table: map<string, nat>)
    requires |table| <= |Sources(init)| && table.Keys <= Sources(init)
    requires |table| < MAX_TRACKED_SOURCES ==> table.Keys == Sources(init)
    ensures |Sources(init) + {last}| == |Sources(init)| + if last in Sources(init) then 0 else 1
    ensures last !in Sources(init) ==> last !in table && multiset(init)[last] == 0
    ensures last in Sources(init) && |table| < MAX_TRACKED_SOURCES ==> last in table
    ensures |table[last := 0]| == |table| + if last in table then 0 else 1
  {
    if last in Sources(init) {
      assert Sources(init) + {last} == Sources(init);
    }
    if last in table {
      assert table[last := 0].Keys == table.Keys;
    } else {
      assert table[last := 0].Keys == table.Keys + {last};
    }
  }

  /** A source is in the table exactly when fewer than the cap of other sources had been seen
      at one of its calls; it then stays, and no source enters a full table. */
  lemma {:induction false} TrackedIff(calls: seq<string>, key: string)
    ensures key in Tally(calls) <==> SeenInTime(calls, key)
  {
    if calls != [] {
      var n := |calls| - 1;
      var init, last := calls[..n], calls[n];
      TrackedIff(init, key);
      TallyIsExact(init);
      SeenInTimeStep(calls, key);
    }
  }

  ghost predicate SeenInTime(calls: seq<string>, key: string)
  {
    exists i | 0 <= i < |calls| :: CalledInTime(calls, i, key)
  }

  /** Call `i` is for `key`, and the other sources before it do not fill the table. */
  predicate CalledInTime(calls: seq<string>, i: nat, key: string)
    requires i < |calls|
  {
    calls[i] == key && |Sources(calls[..i]) - {key}| < 1024
  }

  lemma SeenInTimeStep(calls: seq<string>, key: string)
    requires calls != []
    ensures var n := |calls| - 1;
      SeenInTime(calls, key) <==> (SeenInTime(calls[..n], key) || CalledInTime(calls, n, key))
  {
    var n := |calls| - 1;
    var init := calls[..n];
    if SeenInTime(init, key) {
      var i :| 0 <= i < n && CalledInTime(init, i, key);
      SamePrefix(calls, n, i, key);
    }
    if SeenInTime(calls, key) {
      var i :| 0 <= i < |calls| && CalledInTime(calls, i, key);
      if i < n {
        SamePrefix(calls, n, i, key);
      }
    }
  }

  lemma SamePrefix(calls: seq<string>, n: nat, i: nat, key: string)
    requires i < n <= |calls|
    ensures CalledInTime(calls[..n], i, key) == CalledInTime(calls, i, key)
  {
    assert calls[..n][..i] == calls[..i];
  }

  /** The first call for any source returns 1; a later call returns the source's number of
      calls if it is in the table, and 1 if it is not. */
  lemma {:induction false} AttemptIsExact(calls: seq<string>, key: string)
    ensures Attempt(Tally(calls), key)
         == if key in Tally(calls + [key]) then Calls(calls, key) + 1 else 1
    ensures key !in calls ==> Attempt(Tally(calls), key) == 1
  {
    var after := calls + [key];
    assert after[..|after| - 1] == calls;
    TallyIsExact(calls);
    if key !in Tally(calls) && |Tally(calls)| < MAX_TRACKED_SOURCES {
      assert key !in Sources(calls);
      assert multiset(calls)[key] == 0;
    }
  }

  // ----- Conservation -----

  /** The calls that found the table full of other sources. */
  function Untracked(calls: seq<string>): nat
  {
    if calls == [] then 0
    else
      var init, last := calls[..|calls| - 1], calls[|calls| - 1];
      Untracked(init) + if last in Tally(calls) then 0 else 1
  }

  /** The sum of the values of a table. */
  ghost function Total(table: map<string, nat>): nat
    decreases |table|
  {
    if table == map[] then 0
    else
      var key :| key in table;
      assert |(table - {key}).Keys| == |table.Keys - {key}|;
      table[key] + Total(table - {key})
  }

  lemma {:induction false} TotalPick(table: map<string, nat>, key: string)
    requires key in table
    ensures Total(table) == table[key] + Total(table - {key})
    decreases |table|
  {
    var k :| k in table && Total(table) == table[k] + Total(table - {k});
    if k != key {
      assert |(table - {k}).Keys| == |table.Keys - {k}|;
      TotalPick(table - {k}, key);
      var rest := table - {key};
      assert |rest.Keys| == |table.Keys - {key}|;
      TotalPick(rest, k);
      assert table - {k} - {key} == rest - {k};
    }
  }

  lemma TotalCounted(table: map<string, nat>, key: string)
    ensures Total(Counted(table, key))
         == Total(table) + if key in Counted(table, key) then 1 else 0
  {
    hide Total;
    var next := Counted(table, key);
    if key in next {
      TotalPick(next, key);
      if key in table {
        TotalPick(table, key);
        assert next - {key} == table - {key};
      } else {
        assert next - {key} == table;
      }
    }
  }

  /** No call is lost or counted twice: all calls are the sum of the table and the calls it
      did not track. */
  lemma {:induction false} CallsAreConserved(calls: seq<string>)
    ensures |calls| == Total(Tally(calls)) + Untracked(calls)
  {
    if calls != [] {
      var init, last := calls[..|calls| - 1], calls[|calls| - 1];
      CallsAreConserved(init);
      TotalCounted(Tally(init), last);
    }
  }
}
