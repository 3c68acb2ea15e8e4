/**
 * The simulation engine as the replay analyzer sees it. The engine is not
 * modelled: what it does for each submitted turn is given as data, one `Step`
 * per turn, holding the update its tick callback receives and the game state
 * it leaves behind.
 */
module Engine {
  import opened Wrappers

  /** A participant-issued action; the analyzer only reads its declared type. */
  datatype Intent = Intent(intentType: Option<string>)

  /** One recorded turn of the replay: its ordinal and its intents. */
  datatype Turn = Turn(turnNumber: int, intents: seq<Intent>)

  /** An integrity hash the engine reports for a tick. */
  datatype HashRecord = HashRecord(tick: int, hash: int)

  /** A territory-ownership transition; its payload is never interpreted by the driver. */
  datatype ConquestEvent = ConquestEvent(payload: string)

  /**
   * What the tick callback receives. The error variant is the update without
   * an `updates` field: it carries the engine's message and, optionally, a trace.
   */
  datatype GameUpdate =
    | ErrorUpdate(errMsg: string, stack: Option<string>)
    | TickUpdate(tick: int, tickExecutionDuration: Option<real>,
                 hashes: seq<HashRecord>, conquestEvents: seq<ConquestEvent>)

  datatype PlayerType = Human | Bot | FakeHuman

  /** A snapshot of one player's accessors after a step. */
  datatype Player = Player(
    smallID: int,
    clientID: Option<string>,
    playerType: PlayerType,
    name: string,
    displayName: string,
    isAlive: bool,
    isDisconnected: bool,
    hasSpawned: bool,
    numTilesOwned: nat,
    troops: int,
    gold: int,
    units: map<string, int>)

  /** `p.unitsOwned(t)`: a unit type the snapshot does not list is owned zero times. */
  function UnitsOwned(p: Player, unitType: string): int {
    if unitType in p.units then p.units[unitType] else 0
  }

  /** The game as read after a step: `players()` and `allPlayers()`, as the engine returns them. */
  datatype Game = Game(players: seq<Player>, allPlayers: seq<Player>)

  /** What the engine does for one submitted turn: the single update it emits and the state it leaves. */
  datatype Step = Step(update: GameUpdate, game: Game)

  /** `gu.tickExecutionDuration ?? 0`. */
  function DurationOrZero(u: GameUpdate): real
    requires u.TickUpdate?
  {
    match u.tickExecutionDuration
    case Some(d) => d
    case None => 0.0
  }

  /** The message of the error thrown for an error update. */
  function FaultMessage(u: GameUpdate): string
    requires u.ErrorUpdate?
  {
    "Game error: " + u.errMsg + "\n" + (match u.stack case Some(s) => s case None => "")
  }

  /** No step of `steps` is an error update. */
  predicate NoFault(steps: seq<Step>) {
    forall i :: 0 <= i < |steps| ==> steps[i].update.TickUpdate?
  }

  /** The hash records emitted by `steps`, in emission order. */
  function EmittedHashes(steps: seq<Step>): seq<HashRecord> {
    if steps == [] then []
    else
      var last := steps[|steps| - 1].update;
      EmittedHashes(steps[..|steps| - 1]) + (if last.TickUpdate? then last.hashes else [])
  }

  /** Every `allPlayers()` snapshot taken after `steps`, step by step, in order. */
  function Observed(steps: seq<Step>): seq<Player> {
    if steps == [] then [] else Observed(steps[..|steps| - 1]) + steps[|steps| - 1].game.allPlayers
  }
}
