/** The documents exchanged between the simulation server and the dashboard:
    the server builds them from its shared state, the dashboard keeps them in
    its local model. Positions (x, y) of miners are not modelled. */
module Wire {

  datatype Option<+T> = None | Some(value: T)

  /** Resource levels (C ints in shared memory on the server). */
  datatype Resources = Resources(minerals: int, energy: int, crystals: int)

  /** The four counters of the server's stats dictionary. */
  datatype Stats = Stats(totalMined: int, conflicts: int, synchronized: int, energyDepleted: int)

  const ZeroStats := Stats(0, 0, 0, 0)

  /** What a miner goes after. */
  datatype Target = Minerals | Crystals

  /** Every status the server writes; the dashboard's type names only four of them. */
  datatype Status = Idle | Waiting | NoEnergy | Blocked | Mining | Terminated

  datatype Miner = Miner(
    id: int,
    name: string,
    color: string,
    status: Status,
    mined: int,
    locked: bool,
    target: Option<Target>)

  datatype Level = Info | Success | Warning | Error

  /** The log lines the server writes, by kind; the server renders each as
      its fixed text with the numbers filled in. `Other` stands for lines
      outside this model (a worker's fatal error, the regenerator starting). */
  datatype Note =
    | MinerRegistered(id: int, pid: int)
    | EnergyLacking(id: int)
    | EnergyRanOut(id: int)
    | Mined(id: int, target: Target, delta: int)
    | MinerFinished(id: int)
    | EnergyLow(energy: int)
    | RunStarted
    | RunPaused
    | SystemReset
    | MinersAtMax
    | MinerCreated(id: int, pid: int)
    | MinerKilled(id: int)
    | Other(text: string)

  datatype LogEntry = LogEntry(time: string, level: Level, message: Note)

  /** The state document: what `make_state_from_handles` builds and a `state` event carries. */
  datatype StateDoc = StateDoc(
    resources: Resources,
    stats: Stats,
    miners: map<int, Miner>,
    isRunning: bool)

  /** The full snapshot served by `/api/state`: a state document plus recent logs. */
  datatype Snap = Snap(doc: StateDoc, logs: seq<LogEntry>)
}
