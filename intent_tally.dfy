/** The driver's intent counters: the total and the count per declared type. */
module IntentTally {
  import opened Wrappers
  import opened Engine

  /** `intent.type ?? "unknown"`: the bucket an intent is counted in. */
  function IntentKey(i: Intent): string {
    match i.intentType
    case Some(t) => t
    case None => "unknown"
  }

  /** The intents of `turns`, turn by turn, in order. */
  function AllIntents(turns: seq<Turn>): seq<Intent> {
    if turns == [] then [] else AllIntents(turns[..|turns| - 1]) + turns[|turns| - 1].intents
  }

  /** The sum of `turn.intents.length` over `turns`. */
  function TotalIntents(turns: seq<Turn>): nat {
    if turns == [] then 0 else TotalIntents(turns[..|turns| - 1]) + |turns[|turns| - 1].intents|
  }

  /** `intentsByType[t] = (intentsByType[t] ?? 0) + 1`. */
  function Bump(byType: map<string, nat>, key: string): map<string, nat> {
    byType[key := (if key in byType then byType[key] else 0) + 1]
  }

  /** The per-type counters after counting `intents` one by one from an empty record. */
  function Tally(intents: seq<Intent>): map<string, nat> {
    if intents == [] then map[] else Bump(Tally(intents[..|intents| - 1]), IntentKey(intents[|intents| - 1]))
  }

  /** How many of `intents` fall in bucket `key`. */
  function CountKey(intents: seq<Intent>, key: string): nat {
    if intents == [] then 0
    else CountKey(intents[..|intents| - 1], key) + (if IntentKey(intents[|intents| - 1]) == key then 1 else 0)
  }

  /** The sum of all counters of a per-type record. */
  ghost function SumValues(m: map<string, nat>): nat
    decreases |m|
  {
    if m == map[] then 0
    else
      var k :| k in m;
      m[k] + SumValues(m - {k})
  }

  /** Summing a record may start from any of its keys. */
  lemma {:induction false} SumValuesRemove(m: map<string, nat>, k: string)
    requires k in m
    ensures SumValues(m) == m[k] + SumValues(m - {k})
    decreases |m|
  {
    var j :| j in m && SumValues(m) == m[j] + SumValues(m - {j});
    if j != k {
      SumValuesRemove(m - {j}, k);
      SumValuesRemove(m - {k}, j);
      assert m - {j} - {k} == m - {k} - {j};
    }
  }

  /** Counting one more intent raises the sum of the counters by one. */
  lemma SumValuesBump(m: map<string, nat>, key: string)
    ensures SumValues(Bump(m, key)) == SumValues(m) + 1
  {
    var b := Bump(m, key);
    SumValuesRemove(b, key);
    if key in m {
      SumValuesRemove(m, key);
      assert b - {key} == m - {key};
    } else {
      assert b - {key} == m;
    }
  }

  /** `totalIntents` counts every intent of every turn. */
  lemma {:induction false} TotalIntentsCountsAll(turns: seq<Turn>)
    ensures TotalIntents(turns) == |AllIntents(turns)|
  {
    if turns != [] {
      TotalIntentsCountsAll(turns[..|turns| - 1]);
    }
  }

  /** The counters of `intentsByType` add up to the number of intents counted. */
  lemma {:induction false} TallySumsToTotal(intents: seq<Intent>)
    ensures SumValues(Tally(intents)) == |intents|
  {
    if intents != [] {
      TallySumsToTotal(intents[..|intents| - 1]);
      SumValuesBump(Tally(intents[..|intents| - 1]), IntentKey(intents[|intents| - 1]));
    }
  }

  /**
   * The record holds exactly the buckets that some intent fell in, each with
   * the number of intents in it; an intent without a type is counted under "unknown".
   */
  lemma {:induction false} TallyCountsEachType(intents: seq<Intent>, key: string)
    ensures key in Tally(intents) <==> CountKey(intents, key) > 0
    ensures key in Tally(intents) ==> Tally(intents)[key] == CountKey(intents, key)
  {
    if intents != [] {
      TallyCountsEachType(intents[..|intents| - 1], key);
    }
  }

  /** The `intentsByType` and `totalIntents` a whole replay ends with agree. */
  lemma TallyMatchesTotal(turns: seq<Turn>)
    ensures SumValues(Tally(AllIntents(turns))) == TotalIntents(turns)
  {
    TotalIntentsCountsAll(turns);
    TallySumsToTotal(AllIntents(turns));
  }

  /**
   * The inner loop over one turn's intents: each is counted in its bucket,
   * on top of the counters for the intents `counted` before it.
   */
  method CountTurnIntents(byType: map<string, nat>, ghost counted: seq<Intent>, intents: seq<Intent>)
    returns (byType': map<string, nat>)
    requires byType == Tally(counted)
    ensures byType' == Tally(counted + intents)
  {
    byType' := byType;
    assert counted + intents[..0] == counted;
    for j := 0 to |intents|
      invariant byType' == Tally(counted + intents[..j])
    {
      var t := IntentKey(intents[j]);
      byType' := byType'[t := (if t in byType' then byType'[t] else 0) + 1];
      assert (counted + intents[..j + 1])[..|counted| + j] == counted + intents[..j];
    }
    assert intents[..|intents|] == intents;
  }
}
