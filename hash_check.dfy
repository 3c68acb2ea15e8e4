/**
 * The hash checkpoint verifier that runs inside the tick callback, and the
 * callback's own state: the values it leaves for the driver's loop.
 */
module HashCheck {
  import opened Wrappers
  import opened Engine

  /** At most this many mismatches are kept as samples; later ones are only counted. */
  const MaxMismatchSamples: nat := 10

  datatype Mismatch = Mismatch(tick: int, expected: int, actual: int)

  function Min(a: int, b: int): int { if a <= b then a else b }

  /** The number of records whose tick has an expected hash: the comparisons made. */
  function ComparedIn(records: seq<HashRecord>, expected: map<int, int>): (n: nat)
    ensures n <= |records|
  {
    if records == [] then 0
    else
      ComparedIn(records[..|records| - 1], expected)
      + (if records[|records| - 1].tick in expected then 1 else 0)
  }

  /** The mismatch one record shows, if its tick has an expected hash that differs. */
  function MismatchOf(h: HashRecord, expected: map<int, int>): seq<Mismatch> {
    if h.tick in expected && expected[h.tick] != h.hash then [Mismatch(h.tick, expected[h.tick], h.hash)] else []
  }

  /** The mismatches found in `records`, in emission order. */
  function MismatchesIn(records: seq<HashRecord>, expected: map<int, int>): (ms: seq<Mismatch>)
    ensures |ms| <= ComparedIn(records, expected)
    ensures forall i :: 0 <= i < |ms| ==>
      ms[i].tick in expected && ms[i].expected == expected[ms[i].tick] && ms[i].actual != ms[i].expected
  {
    if records == [] then []
    else
      MismatchesIn(records[..|records| - 1], expected) + MismatchOf(records[|records| - 1], expected)
  }

  /** The first `MaxMismatchSamples` mismatches, or all of them when there are fewer. */
  function FirstSamples(ms: seq<Mismatch>): (r: seq<Mismatch>)
    ensures |r| == Min(MaxMismatchSamples, |ms|)
    ensures r == ms[..|r|]
  {
    if |ms| <= MaxMismatchSamples then ms else ms[..MaxMismatchSamples]
  }

  /** Checking one more record: what it adds to the comparisons and to the mismatches. */
  lemma CheckOneMore(records: seq<HashRecord>, h: HashRecord, expected: map<int, int>)
    ensures ComparedIn(records + [h], expected)
            == ComparedIn(records, expected) + (if h.tick in expected then 1 else 0)
    ensures MismatchesIn(records + [h], expected) == MismatchesIn(records, expected) + MismatchOf(h, expected)
  {
    assert (records + [h])[..|records|] == records;
  }

  /** A record whose tick has no expected hash is skipped: it changes neither count. */
  lemma UnexpectedTickIgnored(records: seq<HashRecord>, h: HashRecord, expected: map<int, int>)
    requires h.tick !in expected
    ensures ComparedIn(records + [h], expected) == ComparedIn(records, expected)
    ensures MismatchesIn(records + [h], expected) == MismatchesIn(records, expected)
  {
    assert (records + [h])[..|records|] == records;
  }

  /** Checking records in two batches counts the same comparisons as checking them at once. */
  lemma {:induction false} ComparedInAppend(a: seq<HashRecord>, b: seq<HashRecord>, expected: map<int, int>)
    ensures ComparedIn(a + b, expected) == ComparedIn(a, expected) + ComparedIn(b, expected)
    decreases |b|
  {
    if b == [] {
      assert a + b == a;
    } else {
      var b' := b[..|b| - 1];
      assert (a + b)[..|a + b| - 1] == a + b';
      ComparedInAppend(a, b', expected);
    }
  }

  /** Checking records in two batches finds the same mismatches, in the same order. */
  lemma {:induction false} MismatchesInAppend(a: seq<HashRecord>, b: seq<HashRecord>, expected: map<int, int>)
    ensures MismatchesIn(a + b, expected) == MismatchesIn(a, expected) + MismatchesIn(b, expected)
    decreases |b|
  {
    if b == [] {
      assert a + b == a;
    } else {
      var b' := b[..|b| - 1];
      assert (a + b)[..|a + b| - 1] == a + b';
      MismatchesInAppend(a, b', expected);
    }
  }

  /** Appending one mismatch adds it to the samples exactly when fewer than the maximum are kept. */
  lemma FirstSamplesSnoc(ms: seq<Mismatch>, m: Mismatch)
    ensures FirstSamples(ms + [m]) ==
      if |FirstSamples(ms)| < MaxMismatchSamples then FirstSamples(ms) + [m] else FirstSamples(ms)
  {
    if |ms| >= MaxMismatchSamples {
      assert (ms + [m])[..MaxMismatchSamples] == ms[..MaxMismatchSamples];
    }
  }

  /** Sampling what was already sampled, then more, keeps the first samples of the whole. */
  lemma FirstSamplesAppend(a: seq<Mismatch>, b: seq<Mismatch>)
    ensures FirstSamples(FirstSamples(a) + b) == FirstSamples(a + b)
  {
    if |a| > MaxMismatchSamples {
      assert (FirstSamples(a) + b)[..MaxMismatchSamples] == (a + b)[..MaxMismatchSamples];
    }
  }

  /** The reference {5: 111, 10: 222} against records {5: 111} and {10: 999}. */
  lemma TwoCheckpointsOneMismatch()
    ensures ComparedIn([HashRecord(5, 111), HashRecord(10, 999)], map[5 := 111, 10 := 222]) == 2
    ensures MismatchesIn([HashRecord(5, 111), HashRecord(10, 999)], map[5 := 111, 10 := 222])
            == [Mismatch(10, 222, 999)]
  {
    var rs := [HashRecord(5, 111), HashRecord(10, 999)];
    assert rs[..1] == [HashRecord(5, 111)];
    assert rs[..1][..0] == [];
  }

  /**
   * The state the tick callback writes: the last tick's duration and counter,
   * its conquest events, and the hash-check counters and samples. `checked`
   * is the stream of hash records the callback has been given so far.
   */
  class TickListener {
    const expectedHashes: map<int, int>
    var lastTickExecutionMs: real
    var lastGameTick: int
    var conquestEvents: seq<ConquestEvent>
    var hashesCompared: nat
    var hashMismatches: nat
    var hashMismatchSamples: seq<Mismatch>
    ghost var checked: seq<HashRecord>

    /** The counters and samples are those of the records checked so far. */
    ghost predicate Valid()
      reads this
    {
      && hashesCompared == ComparedIn(checked, expectedHashes)
      && hashMismatches == |MismatchesIn(checked, expectedHashes)|
      && hashMismatchSamples == FirstSamples(MismatchesIn(checked, expectedHashes))
    }

    /** Mismatches never outnumber comparisons, and at most `MaxMismatchSamples` are stored. */
    lemma CountersBounded()
      requires Valid()
      ensures hashMismatches <= hashesCompared
      ensures |hashMismatchSamples| == Min(MaxMismatchSamples, hashMismatches)
    {
    }

    constructor (expectedHashes: map<int, int>)
      ensures Valid() && this.expectedHashes == expectedHashes && checked == []
      ensures lastTickExecutionMs == 0.0 && lastGameTick == 0 && conquestEvents == []
      ensures hashesCompared == 0 && hashMismatches == 0 && hashMismatchSamples == []
    {
      this.expectedHashes := expectedHashes;
      lastTickExecutionMs, lastGameTick, conquestEvents := 0.0, 0, [];
      hashesCompared, hashMismatches, hashMismatchSamples := 0, 0, [];
      checked := [];
    }

    /**
     * The callback for one game update. An error update throws before anything
     * is written; otherwise the tick's values are recorded and each hash record
     * is checked against the expected hashes, in order.
     */
    method OnTickUpdate(gu: GameUpdate) returns (err: Option<string>)
      requires Valid()
      modifies this
      ensures Valid()
      ensures gu.ErrorUpdate? ==> err == Some(FaultMessage(gu)) && unchanged(this)
      ensures gu.TickUpdate? ==>
        && err == None
        && checked == old(checked) + gu.hashes
        && lastTickExecutionMs == DurationOrZero(gu)
        && lastGameTick == gu.tick
        && conquestEvents == gu.conquestEvents
        && hashesCompared == old(hashesCompared) + ComparedIn(gu.hashes, expectedHashes)
        && hashMismatches == old(hashMismatches) + |MismatchesIn(gu.hashes, expectedHashes)|
        && hashMismatchSamples
           == FirstSamples(old(hashMismatchSamples) + MismatchesIn(gu.hashes, expectedHashes))
    {
      if gu.ErrorUpdate? {
        return Some(FaultMessage(gu));
      }
      err := None;
      lastTickExecutionMs := DurationOrZero(gu);
      lastGameTick := gu.tick;
      conquestEvents := gu.conquestEvents;

      var records := gu.hashes;
      for k := 0 to |records|
        invariant Valid()
        invariant checked == old(checked) + records[..k]
        invariant lastTickExecutionMs == DurationOrZero(gu) && lastGameTick == gu.tick
        invariant conquestEvents == gu.conquestEvents
      {
        assert records[..k + 1] == records[..k] + [records[k]];
        CheckRecord(records[k]);
      }
      assert records[..|records|] == records;
      ComparedInAppend(old(checked), records, expectedHashes);
      MismatchesInAppend(old(checked), records, expectedHashes);
      FirstSamplesAppend(MismatchesIn(old(checked), expectedHashes), MismatchesIn(records, expectedHashes));
    }

    /**
     * One pass of the hash loop: a record whose tick has an expected hash is
     * compared; a mismatch is counted, and stored while fewer than the maximum
     * are stored.
     */
    method CheckRecord(hu: HashRecord)
      requires Valid()
      modifies this
      ensures Valid() && checked == old(checked) + [hu]
      ensures hashesCompared == old(hashesCompared) + (if hu.tick in expectedHashes then 1 else 0)
      ensures hashMismatches == old(hashMismatches) + |MismatchOf(hu, expectedHashes)|
      ensures lastTickExecutionMs == old(lastTickExecutionMs) && lastGameTick == old(lastGameTick)
      ensures conquestEvents == old(conquestEvents)
    {
      CheckOneMore(checked, hu, expectedHashes);
      ghost var seen := MismatchesIn(checked, expectedHashes);
      checked := checked + [hu];
      if hu.tick !in expectedHashes {
        assert seen + [] == seen;
        return;
      }
      var expected := expectedHashes[hu.tick];
      hashesCompared := hashesCompared + 1;
      if expected != hu.hash {
        hashMismatches := hashMismatches + 1;
        var m := Mismatch(hu.tick, expected, hu.hash);
        FirstSamplesSnoc(seen, m);
        if |hashMismatchSamples| < MaxMismatchSamples {
          hashMismatchSamples := hashMismatchSamples + [m];
        }
      } else {
        assert seen + [] == seen;
      }
    }
  }
}
