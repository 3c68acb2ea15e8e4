/** The per-player summary built from the final game state after a replay. */
module PlayerSummary {
  import opened Wrappers
  import opened Engine
  import opened PeakTiles

  /** Cumulative economy counters of one client, as arbitrary-precision integers. */
  datatype EconomyTotals = EconomyTotals(
    earnedTotal: int,
    spentTotal: int,
    lostConquest: int,
    earnedTrade: int,
    earnedConquer: int,
    earnedOther: int)

  /** The six economy columns of a summary. */
  datatype EconomyField = EarnedTotal | SpentTotal | LostConquest | EarnedTrade | EarnedConquer | EarnedOther

  /** The totals counter a column is read from. */
  function TotalsField(t: EconomyTotals, f: EconomyField): int {
    match f
    case EarnedTotal => t.earnedTotal
    case SpentTotal => t.spentTotal
    case LostConquest => t.lostConquest
    case EarnedTrade => t.earnedTrade
    case EarnedConquer => t.earnedConquer
    case EarnedOther => t.earnedOther
  }

  /** One record of the summary; `None` is the `null` of an untracked economy column. */
  datatype Summary = Summary(
    smallID: int,
    clientID: Option<string>,
    playerType: PlayerType,
    name: string,
    displayName: string,
    isAlive: bool,
    isDisconnected: bool,
    tilesOwned: nat,
    tilesOwnedMax: nat,
    troops: int,
    gold: int,
    goldEarnedTotal: Option<int>,
    goldSpentTotal: Option<int>,
    goldLostConquestTotal: Option<int>,
    goldEarnedTradeTotal: Option<int>,
    goldEarnedConquerTotal: Option<int>,
    goldEarnedOtherTotal: Option<int>,
    goldEarnedReplayTotal: Option<int>,
    unitsOwned: map<string, int>)
  {
    /** The summary column for economy field `f`. */
    function Economy(f: EconomyField): Option<int> {
      match f
      case EarnedTotal => goldEarnedTotal
      case SpentTotal => goldSpentTotal
      case LostConquest => goldLostConquestTotal
      case EarnedTrade => goldEarnedTradeTotal
      case EarnedConquer => goldEarnedConquerTotal
      case EarnedOther => goldEarnedOtherTotal
    }
  }

  /** The client id when it is truthy: absent and empty ids are both untracked. */
  function TrackedClient(p: Player): Option<string> {
    match p.clientID
    case Some(cid) => if cid != "" then Some(cid) else None
    case None => None
  }

  /**
   * One economy column: `null` without a truthy client id or without a totals
   * entry for it, otherwise the matching counter of that entry.
   */
  function EconomyColumn(p: Player, totals: map<string, EconomyTotals>, f: EconomyField): (v: Option<int>)
    ensures v.Some? <==> TrackedClient(p).Some? && TrackedClient(p).value in totals
    ensures v.Some? ==> v.value == TotalsField(totals[TrackedClient(p).value], f)
  {
    match TrackedClient(p)
    case None => None
    case Some(cid) => if cid in totals then Some(TotalsField(totals[cid], f)) else None
  }

  /** The replayed gold-earned column: present whenever a truthy client id has an entry, a stored zero included. */
  function ReplayColumn(p: Player, replay: map<string, int>): (v: Option<int>)
    ensures v.Some? <==> TrackedClient(p).Some? && TrackedClient(p).value in replay
    ensures v.Some? ==> v.value == replay[TrackedClient(p).value]
  {
    match TrackedClient(p)
    case None => None
    case Some(cid) => if cid in replay then Some(replay[cid]) else None
  }

  /** `unitsOwned`: the listed unit types the player owns at least one of, with their counts. */
  function SparseUnits(p: Player, unitTypes: seq<string>): map<string, int> {
    map t | t in unitTypes && UnitsOwned(p, t) > 0 :: UnitsOwned(p, t)
  }

  /** The loop that fills `unitsOwned`, one unit type at a time. */
  method CollectUnitsOwned(p: Player, unitTypes: seq<string>) returns (unitsOwned: map<string, int>)
    ensures forall t :: t in unitsOwned <==> t in unitTypes && UnitsOwned(p, t) > 0
    ensures forall t :: t in unitsOwned ==> unitsOwned[t] == UnitsOwned(p, t)
    ensures unitsOwned == SparseUnits(p, unitTypes)
  {
    unitsOwned := map[];
    for j := 0 to |unitTypes|
      invariant forall t :: t in unitsOwned <==> t in unitTypes[..j] && UnitsOwned(p, t) > 0
      invariant forall t :: t in unitsOwned ==> unitsOwned[t] == UnitsOwned(p, t)
    {
      var t := unitTypes[j];
      var count := UnitsOwned(p, t);
      if count > 0 {
        unitsOwned := unitsOwned[t := count];
      }
      assert unitTypes[..j + 1] == unitTypes[..j] + [t];
    }
    assert unitTypes[..|unitTypes|] == unitTypes;
  }

  /** The summary record of one player. */
  function SummarizePlayer(p: Player, unitTypes: seq<string>, maxTilesBySmallID: map<int, nat>,
                           economyTotals: map<string, EconomyTotals>, goldEarnedReplay: map<string, int>)
    : (s: Summary)
    ensures s.smallID == p.smallID && s.clientID == p.clientID && s.playerType == p.playerType
    ensures s.name == p.name && s.displayName == p.displayName
    ensures s.isAlive == p.isAlive && s.isDisconnected == p.isDisconnected
    ensures s.tilesOwned == p.numTilesOwned && s.troops == p.troops && s.gold == p.gold
    ensures s.tilesOwnedMax == if p.smallID in maxTilesBySmallID then maxTilesBySmallID[p.smallID] else p.numTilesOwned
    ensures forall f :: s.Economy(f).Some? <==> TrackedClient(p).Some? && TrackedClient(p).value in economyTotals
    ensures forall f :: s.Economy(f).Some? ==> s.Economy(f).value == TotalsField(economyTotals[TrackedClient(p).value], f)
    ensures s.goldEarnedReplayTotal.Some? <==> TrackedClient(p).Some? && TrackedClient(p).value in goldEarnedReplay
    ensures s.goldEarnedReplayTotal.Some? ==> s.goldEarnedReplayTotal.value == goldEarnedReplay[TrackedClient(p).value]
    ensures forall t :: t in s.unitsOwned <==> t in unitTypes && UnitsOwned(p, t) > 0
    ensures forall t :: t in s.unitsOwned ==> s.unitsOwned[t] == UnitsOwned(p, t)
  {
    Summary(
      p.smallID, p.clientID, p.playerType, p.name, p.displayName, p.isAlive, p.isDisconnected,
      p.numTilesOwned,
      if p.smallID in maxTilesBySmallID then maxTilesBySmallID[p.smallID] else p.numTilesOwned,
      p.troops, p.gold,
      EconomyColumn(p, economyTotals, EarnedTotal),
      EconomyColumn(p, economyTotals, SpentTotal),
      EconomyColumn(p, economyTotals, LostConquest),
      EconomyColumn(p, economyTotals, EarnedTrade),
      EconomyColumn(p, economyTotals, EarnedConquer),
      EconomyColumn(p, economyTotals, EarnedOther),
      ReplayColumn(p, goldEarnedReplay),
      SparseUnits(p, unitTypes))
  }

  /**
   * `summarizePlayers`: one record per player of `allPlayers()`, in that order;
   * no records when the game has no `allPlayers`.
   */
  function SummarizePlayers(allPlayers: Option<seq<Player>>, unitTypes: seq<string>,
                            maxTilesBySmallID: map<int, nat>, economyTotals: map<string, EconomyTotals>,
                            goldEarnedReplay: map<string, int>): (r: seq<Summary>)
    ensures allPlayers.None? ==> r == []
    ensures allPlayers.Some? ==> |r| == |allPlayers.value|
    ensures allPlayers.Some? ==> forall i :: 0 <= i < |r| ==>
      r[i] == SummarizePlayer(allPlayers.value[i], unitTypes, maxTilesBySmallID, economyTotals, goldEarnedReplay)
  {
    match allPlayers
    case None => []
    case Some(players) =>
      seq(|players|, i requires 0 <= i < |players| =>
        SummarizePlayer(players[i], unitTypes, maxTilesBySmallID, economyTotals, goldEarnedReplay))
  }

  /**
   * With the peaks the driver gathered over snapshots that include the
   * player's final one, the peak column is never below the final tile count.
   */
  lemma PeakNotBelowFinal(observed: seq<Player>, i: nat, unitTypes: seq<string>,
                          economyTotals: map<string, EconomyTotals>, goldEarnedReplay: map<string, int>)
    requires i < |observed|
    ensures SummarizePlayer(observed[i], unitTypes, PeakMap(observed), economyTotals, goldEarnedReplay).tilesOwnedMax
            >= observed[i].numTilesOwned
  {
    PeakCoversObserved(observed, i);
  }
}
