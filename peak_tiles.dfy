/** The peak-tiles map: the largest territory seen for each player, keyed by small id. */
module PeakTiles {
  import opened Engine

  /** `maxTilesBySmallID.get(id) ?? 0`. */
  function PeakOf(peaks: map<int, nat>, id: int): nat {
    if id in peaks then peaks[id] else 0
  }

  /** One pass of the loop over `allPlayers()`: the entry is set only when the player's tiles exceed it. */
  function RaisePeak(peaks: map<int, nat>, p: Player): map<int, nat> {
    if p.numTilesOwned > PeakOf(peaks, p.smallID) then peaks[p.smallID := p.numTilesOwned] else peaks
  }

  /** The map after visiting the snapshots `observed` in order, starting empty. */
  function PeakMap(observed: seq<Player>): map<int, nat> {
    if observed == [] then map[]
    else RaisePeak(PeakMap(observed[..|observed| - 1]), observed[|observed| - 1])
  }

  /** The largest tile count any snapshot of player `id` showed, 0 when none did. */
  function MaxSeen(observed: seq<Player>, id: int): nat {
    if observed == [] then 0
    else
      var last := observed[|observed| - 1];
      var before := MaxSeen(observed[..|observed| - 1], id);
      if last.smallID == id && last.numTilesOwned > before then last.numTilesOwned else before
  }

  /**
   * The map holds, for each player, the maximum tile count seen so far; a
   * player whose tiles were never above zero has no entry.
   */
  lemma {:induction false} PeakMapIsMaxSeen(observed: seq<Player>, id: int)
    ensures PeakOf(PeakMap(observed), id) == MaxSeen(observed, id)
    ensures id in PeakMap(observed) <==> MaxSeen(observed, id) > 0
  {
    if observed != [] {
      PeakMapIsMaxSeen(observed[..|observed| - 1], id);
    }
  }

  /** No snapshot's tile count exceeds its player's entry. */
  lemma {:induction false} MaxSeenCovers(observed: seq<Player>, i: nat)
    requires i < |observed|
    ensures MaxSeen(observed, observed[i].smallID) >= observed[i].numTilesOwned
  {
    if i < |observed| - 1 {
      MaxSeenCovers(observed[..|observed| - 1], i);
    }
  }

  /** After any tick, each player's entry is at least its current tile count. */
  lemma PeakCoversObserved(observed: seq<Player>, i: nat)
    requires i < |observed|
    ensures PeakOf(PeakMap(observed), observed[i].smallID) >= observed[i].numTilesOwned
  {
    MaxSeenCovers(observed, i);
    PeakMapIsMaxSeen(observed, observed[i].smallID);
  }

  /** Seeing more snapshots never lowers the maximum. */
  lemma {:induction false} MaxSeenGrows(observed: seq<Player>, more: seq<Player>, id: int)
    ensures MaxSeen(observed, id) <= MaxSeen(observed + more, id)
    decreases |more|
  {
    if more == [] {
      assert observed + more == observed;
    } else {
      assert (observed + more)[..|observed + more| - 1] == observed + more[..|more| - 1];
      MaxSeenGrows(observed, more[..|more| - 1], id);
    }
  }

  /** Entries are never removed and never decrease. */
  lemma PeakMapNeverDecreases(observed: seq<Player>, more: seq<Player>, id: int)
    requires id in PeakMap(observed)
    ensures id in PeakMap(observed + more)
    ensures PeakMap(observed)[id] <= PeakMap(observed + more)[id]
  {
    PeakMapIsMaxSeen(observed, id);
    PeakMapIsMaxSeen(observed + more, id);
    MaxSeenGrows(observed, more, id);
  }

  /** Visiting one more snapshot is one more pass of the loop. */
  lemma PeakMapSnoc(observed: seq<Player>, p: Player)
    ensures PeakMap(observed + [p]) == RaisePeak(PeakMap(observed), p)
  {
    assert (observed + [p])[..|observed|] == observed;
  }

  /** The loop over `allPlayers()` after a step, on top of the snapshots `seen` before it. */
  method RaisePeaks(peaks: map<int, nat>, ghost seen: seq<Player>, players: seq<Player>)
    returns (peaks': map<int, nat>)
    requires peaks == PeakMap(seen)
    ensures peaks' == PeakMap(seen + players)
  {
    peaks' := peaks;
    assert seen + players[..0] == seen;
    for j := 0 to |players|
      invariant peaks' == PeakMap(seen + players[..j])
    {
      var p := players[j];
      assert seen + players[..j + 1] == (seen + players[..j]) + [p];
      PeakMapSnoc(seen + players[..j], p);
      var tiles := p.numTilesOwned;
      var prev := if p.smallID in peaks' then peaks'[p.smallID] else 0;
      if tiles > prev {
        peaks' := peaks'[p.smallID := tiles];
      }
    }
    assert players[..|players|] == players;
  }
}
