/**
 * The replay driver: feeds the turns to the engine one at a time, lets the
 * tick callback check hashes, and gathers per-tick samples, intent counters
 * and the peak-tiles map into the simulation result.
 */
module ReplayDriver {
  import opened Wrappers
  import opened Engine
  import opened HashCheck
  import opened IntentTally
  import opened PeakTiles

  /** `xs.filter(keep)`. */
  function Filter<T>(xs: seq<T>, keep: T -> bool): (r: seq<T>)
    ensures |r| <= |xs|
    ensures forall i :: 0 <= i < |r| ==> keep(r[i])
  {
    if xs == [] then []
    else Filter(xs[..|xs| - 1], keep) + (if keep(xs[|xs| - 1]) then [xs[|xs| - 1]] else [])
  }

  /** Keeping by a stronger test keeps no more elements. */
  lemma {:induction false} FilterStronger<T>(xs: seq<T>, strong: T -> bool, weak: T -> bool)
    requires forall x :: strong(x) ==> weak(x)
    ensures |Filter(xs, strong)| <= |Filter(xs, weak)|
  {
    if xs != [] {
      FilterStronger(xs[..|xs| - 1], strong, weak);
    }
  }

  predicate IsHuman(p: Player) { p.playerType == Human }

  datatype HumanCounts = HumanCounts(aliveHumans: nat, connectedAliveHumans: nat, spawnedHumans: nat)

  /** The human players among `players`. */
  function Humans(players: seq<Player>): seq<Player> {
    Filter(players, IsHuman)
  }

  /** `countHumans`: alive, connected-and-alive and spawned players among the humans. */
  function CountHumans(players: seq<Player>): (r: HumanCounts)
    ensures r.connectedAliveHumans <= r.aliveHumans <= |Humans(players)|
    ensures r.spawnedHumans <= |Humans(players)|
  {
    var humans := Humans(players);
    var alive := (p: Player) => p.isAlive;
    var connectedAlive := (p: Player) => p.isAlive && !p.isDisconnected;
    FilterStronger(humans, connectedAlive, alive);
    HumanCounts(|Filter(humans, alive)|, |Filter(humans, connectedAlive)|,
                |Filter(humans, (p: Player) => p.hasSpawned)|)
  }

  /** Only human players are counted: a player of another type changes no count. */
  lemma NonHumansNotCounted(players: seq<Player>, p: Player)
    requires !IsHuman(p)
    ensures CountHumans(players + [p]) == CountHumans(players)
  {
    assert (players + [p])[..|players|] == players;
    assert Humans(players + [p]) == Humans(players);
  }

  /** One entry of `samples`. */
  datatype TickSample = TickSample(
    turnNumber: int,
    gameTick: int,
    tickExecutionMs: real,
    intents: nat,
    aliveHumans: nat,
    connectedAliveHumans: nat,
    spawnedHumans: nat)

  /** The result of a replay that ran to the end. */
  datatype SimulationResult = SimulationResult(
    samples: seq<TickSample>,
    tickExecutionMsValues: seq<real>,
    totalIntents: nat,
    intentsByType: map<string, nat>,
    hashesCompared: nat,
    hashMismatches: nat,
    hashMismatchSamples: seq<Mismatch>,
    maxTilesBySmallID: map<int, nat>)

  /**
   * The sample the loop appends after `step` ran `turn`: the turn's number and
   * intent count, and the tick, duration (0 when absent) and human counts of the step.
   */
  function SampleAfter(turn: Turn, step: Step): TickSample
    requires step.update.TickUpdate?
  {
    var humans := CountHumans(step.game.players);
    TickSample(turn.turnNumber, step.update.tick, DurationOrZero(step.update), |turn.intents|,
               humans.aliveHumans, humans.connectedAliveHumans, humans.spawnedHumans)
  }

  /** The samples of a run of `steps` without error updates, one per turn. */
  function Samples(turns: seq<Turn>, steps: seq<Step>): seq<TickSample>
    requires |turns| == |steps| && NoFault(steps)
  {
    if turns == [] then []
    else Samples(turns[..|turns| - 1], steps[..|steps| - 1]) + [SampleAfter(turns[|turns| - 1], steps[|steps| - 1])]
  }

  /** The durations the callback recorded over a run of `steps` without error updates. */
  function Durations(steps: seq<Step>): seq<real>
    requires NoFault(steps)
  {
    if steps == [] then [] else Durations(steps[..|steps| - 1]) + [DurationOrZero(steps[|steps| - 1].update)]
  }

  /**
   * Exactly one sample per turn; sample `i` carries turn `i`'s number and
   * intent count and the tick, duration (0 when absent) and human counts of step `i`.
   */
  lemma {:induction false} SamplesMatchTurns(turns: seq<Turn>, steps: seq<Step>)
    requires |turns| == |steps| && NoFault(steps)
    ensures |Samples(turns, steps)| == |turns|
    ensures forall i :: 0 <= i < |turns| ==> steps[i].update.TickUpdate? && Samples(turns, steps)[i] == SampleAfter(turns[i], steps[i])
  {
    if turns != [] {
      var n := |turns| - 1;
      assert NoFault(steps[..n]);
      SamplesMatchTurns(turns[..n], steps[..n]);
    }
  }

  /** `tickExecutionMsValues` is as long as `samples` and holds the same durations. */
  lemma {:induction false} DurationsMatchSamples(turns: seq<Turn>, steps: seq<Step>)
    requires |turns| == |steps| && NoFault(steps)
    ensures |Samples(turns, steps)| == |steps|
    ensures |Durations(steps)| == |steps|
    ensures forall i :: 0 <= i < |steps| ==> Durations(steps)[i] == Samples(turns, steps)[i].tickExecutionMs
  {
    if turns != [] {
      var n := |turns| - 1;
      assert NoFault(steps[..n]);
      DurationsMatchSamples(turns[..n], steps[..n]);
    }
  }

  /**
   * `simulateReplay`. `steps[i]` is what the engine does when it is given
   * `turns[i]` and stepped once: the single update its callback receives and
   * the game it leaves. The run fails at the first error update; otherwise
   * every field of the result is determined by the turns, the steps and the
   * expected hashes.
   */
  method SimulateReplay(turns: seq<Turn>, steps: seq<Step>, expectedHashes: map<int, int>)
    returns (r: Result<SimulationResult, string>)
    requires |steps| == |turns|
    ensures r.Failure? <==> !NoFault(steps)
    ensures r.Failure? ==>
      exists i :: 0 <= i < |steps| && NoFault(steps[..i]) && steps[i].update.ErrorUpdate?
                  && r.error == FaultMessage(steps[i].update)
    ensures r.Success? ==>
      && r.value.samples == Samples(turns, steps)
      && r.value.tickExecutionMsValues == Durations(steps)
      && r.value.totalIntents == TotalIntents(turns)
      && r.value.intentsByType == Tally(AllIntents(turns))
      && r.value.hashesCompared == ComparedIn(EmittedHashes(steps), expectedHashes)
      && r.value.hashMismatches == |MismatchesIn(EmittedHashes(steps), expectedHashes)|
      && r.value.hashMismatchSamples == FirstSamples(MismatchesIn(EmittedHashes(steps), expectedHashes))
      && r.value.maxTilesBySmallID == PeakMap(Observed(steps))
  {
    var listener := new TickListener(expectedHashes);
    var samples: seq<TickSample> := [];
    var tickExecutionMsValues: seq<real> := [];
    var maxTilesBySmallID: map<int, nat> := map[];
    var totalIntents: nat := 0;
    var intentsByType: map<string, nat> := map[];

    var i := 0;
    while i < |turns|
      invariant 0 <= i <= |turns|
      invariant listener.Valid() && listener.expectedHashes == expectedHashes
      invariant NoFault(steps[..i])
      invariant samples == Samples(turns[..i], steps[..i])
      invariant tickExecutionMsValues == Durations(steps[..i])
      invariant totalIntents == TotalIntents(turns[..i])
      invariant intentsByType == Tally(AllIntents(turns[..i]))
      invariant listener.checked == EmittedHashes(steps[..i])
      invariant maxTilesBySmallID == PeakMap(Observed(steps[..i]))
    {
      var turn := turns[i];
      StepPrefixes(turns, steps, i);
      totalIntents, intentsByType := CountIntents(totalIntents, intentsByType, turns[..i], turn);

      // addTurn and executeNextTick: the engine fires the callback once for this step.
      var step := steps[i];
      var err := listener.OnTickUpdate(step.update);
      if err.Some? {
        r := Failure(err.value);
        FaultAt(steps, i);
        return;
      }
      EmittedOneMoreStep(steps[..i], step);

      samples, tickExecutionMsValues, maxTilesBySmallID :=
        RecordTick(samples, tickExecutionMsValues, maxTilesBySmallID, turns[..i], steps[..i],
                   turn, step, listener.lastTickExecutionMs, listener.lastGameTick);
      i := i + 1;
    }
    assert turns[..i] == turns && steps[..i] == steps;
    r := Success(SimulationResult(samples, tickExecutionMsValues, totalIntents, intentsByType,
                                  listener.hashesCompared, listener.hashMismatches,
                                  listener.hashMismatchSamples, maxTilesBySmallID));
  }

  /** The start of a loop pass: the turn's intents are counted, in total and by type. */
  method CountIntents(totalIntents: nat, intentsByType: map<string, nat>, ghost before: seq<Turn>, turn: Turn)
    returns (totalIntents': nat, intentsByType': map<string, nat>)
    requires totalIntents == TotalIntents(before) && intentsByType == Tally(AllIntents(before))
    ensures totalIntents' == TotalIntents(before + [turn])
    ensures intentsByType' == Tally(AllIntents(before + [turn]))
  {
    assert (before + [turn])[..|before|] == before;
    totalIntents' := totalIntents + |turn.intents|;
    intentsByType' := CountTurnIntents(intentsByType, AllIntents(before), turn.intents);
  }

  /**
   * The end of a loop pass, once the callback has run for `step`: the peaks
   * are raised from `allPlayers()`, and the duration and the sample are appended.
   */
  method RecordTick(samples: seq<TickSample>, tickExecutionMsValues: seq<real>, maxTilesBySmallID: map<int, nat>,
                    ghost turnsBefore: seq<Turn>, ghost stepsBefore: seq<Step>, turn: Turn, step: Step,
                    lastTickExecutionMs: real, lastGameTick: int)
    returns (samples': seq<TickSample>, tickExecutionMsValues': seq<real>, maxTilesBySmallID': map<int, nat>)
    requires |turnsBefore| == |stepsBefore| && NoFault(stepsBefore) && step.update.TickUpdate?
    requires lastTickExecutionMs == DurationOrZero(step.update) && lastGameTick == step.update.tick
    requires samples == Samples(turnsBefore, stepsBefore)
    requires tickExecutionMsValues == Durations(stepsBefore)
    requires maxTilesBySmallID == PeakMap(Observed(stepsBefore))
    ensures NoFault(stepsBefore + [step])
    ensures samples' == Samples(turnsBefore + [turn], stepsBefore + [step])
    ensures tickExecutionMsValues' == Durations(stepsBefore + [step])
    ensures maxTilesBySmallID' == PeakMap(Observed(stepsBefore + [step]))
  {
    assert (stepsBefore + [step])[..|stepsBefore|] == stepsBefore;
    assert (turnsBefore + [turn])[..|turnsBefore|] == turnsBefore;
    assert NoFault(stepsBefore + [step]);
    maxTilesBySmallID' := RaisePeaks(maxTilesBySmallID, Observed(stepsBefore), step.game.allPlayers);
    tickExecutionMsValues' := tickExecutionMsValues + [lastTickExecutionMs];
    var humans := CountHumans(step.game.players);
    samples' := samples + [TickSample(turn.turnNumber, lastGameTick, lastTickExecutionMs, |turn.intents|,
                                      humans.aliveHumans, humans.connectedAliveHumans, humans.spawnedHumans)];
  }

  /** A run whose first error update is step `i` has a fault, and `i` is where it is. */
  lemma FaultAt(steps: seq<Step>, i: nat)
    requires i < |steps| && NoFault(steps[..i]) && steps[i].update.ErrorUpdate?
    ensures !NoFault(steps)
    ensures exists j :: 0 <= j < |steps| && NoFault(steps[..j]) && steps[j].update.ErrorUpdate?
                        && FaultMessage(steps[j].update) == FaultMessage(steps[i].update)
  {
  }

  /** The first `i + 1` steps are the first `i` and one more. */
  lemma StepPrefixes(turns: seq<Turn>, steps: seq<Step>, i: nat)
    requires |turns| == |steps| && i < |steps|
    ensures turns[..i + 1] == turns[..i] + [turns[i]]
    ensures steps[..i + 1] == steps[..i] + [steps[i]]
  {
  }

  /** One more step emits its update's hash records after those already emitted. */
  lemma EmittedOneMoreStep(steps: seq<Step>, step: Step)
    requires step.update.TickUpdate?
    ensures EmittedHashes(steps + [step]) == EmittedHashes(steps) + step.update.hashes
  {
    assert (steps + [step])[..|steps|] == steps;
  }

  /** A replay of zero turns yields a well-formed, empty result. */
  method ReplayNoTurns(expectedHashes: map<int, int>) returns (r: Result<SimulationResult, string>)
    ensures r.Success?
    ensures r.value.samples == [] && r.value.tickExecutionMsValues == []
    ensures r.value.totalIntents == 0 && r.value.intentsByType == map[]
    ensures r.value.hashesCompared == 0 && r.value.hashMismatches == 0 && r.value.hashMismatchSamples == []
    ensures r.value.maxTilesBySmallID == map[]
  {
    r := SimulateReplay([], [], expectedHashes);
  }
}
