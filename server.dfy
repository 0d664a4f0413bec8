/** The simulation server (backend/app.py) with its processes and locks taken
    away: the parent's `State` record and the shared values its workers update,
    and each request handler and worker step as one sequential update of them.
    Timestamps, process ids, process liveness, the semaphore's outcome and the
    workers' random choices are parameters. */
module Server {
  import opened Wire
  import opened Rules
  import Bounded
  import Text

  /** The server's log list is trimmed to this many entries. */
  const LogCapacity := 200

  /** A snapshot carries this many of the most recent log entries. */
  const SnapshotLogs := 50

  /** The error replies of the miner endpoints. */
  datatype ApiError = MaxMinersReached | NotFound(id: int)
  {
    function StatusCode(): int
    {
      match this
      case MaxMinersReached => 400
      case NotFound(_) => 404
    }

    function Code(): string
    {
      match this
      case MaxMinersReached => "max_miners"
      case NotFound(_) => "not_found"
    }
  }

  datatype Reply<T> = Ok(value: T) | Err(error: ApiError)

  /** A line of text with one number in it. */
  function WithNumber(p: string, n: int, q: string): string
  {
    p + (Text.IntToString(n) + q)
  }

  /** A line of text with two numbers in it. */
  function WithNumbers(p: string, n: int, q: string, m: int, r: string): string
  {
    WithNumber(p, n, WithNumber(q, m, r))
  }

  /** The text `push_log` is given for each kind of log line. A miner is
      named as in `MinerName`, "Minerador-" followed by its id. */
  function NoteText(n: Note): string
  {
    match n
    case MinerRegistered(id, pid) => WithNumbers("✅ Minerador-", id, " iniciado (PID: ", pid, ")")
    case EnergyLacking(id) => WithNumber("⚠️ Minerador-", id, " sem energia suficiente")
    case EnergyRanOut(id) => WithNumber("⚠️ Minerador-", id, " ficou sem energia durante mineração")
    case Mined(id, Minerals, delta) => WithNumbers("⛏️ Minerador-", id, " minerou ", delta, " minerais (-5 energia)")
    case Mined(id, Crystals, delta) => WithNumbers("💎 Minerador-", id, " coletou ", delta, " cristais (-8 energia)")
    case MinerFinished(id) => WithNumber("🛑 Minerador-", id, " finalizado")
    case EnergyLow(energy) => WithNumber("⚡ Energia baixa: ", energy, "%")
    case RunStarted => "▶️ Execução iniciada"
    case RunPaused => "⏸️ Execução pausada"
    case SystemReset => "🔄 Sistema reiniciado"
    case MinersAtMax => "⚠️ Máximo de 6 mineradores atingido"
    case MinerCreated(id, pid) => WithNumbers("➕ Minerador-", id, " criado (PID: ", pid, ")")
    case MinerKilled(id) => WithNumber("❌ Minerador-", id, " terminado")
    case Other(text) => text
  }

  /** The message of an error reply. */
  function ErrorMessage(e: ApiError): string
  {
    match e
    case MaxMinersReached => "Máximo de 6 mineradores"
    case NotFound(id) => WithNumber("Minerador ", id, " não existe")
  }

  /** The number in a line can be read back when the text after it does not
      start with a digit. */
  lemma {:induction false} WithNumberInjective(p: string, a: int, b: int, q: string)
    requires q == [] || !('0' <= q[0] <= '9')
    ensures WithNumber(p, a, q) == WithNumber(p, b, q) <==> a == b
  {
    if WithNumber(p, a, q) == WithNumber(p, b, q) {
      Text.Framed(p, a, b, q, q);
    }
  }

  /** Both numbers in a line can be read back when the text after each does
      not start with a digit. */
  lemma {:induction false} WithNumbersInjective(p: string, a: int, b: int, q: string, c: int, d: int, r: string)
    requires q != [] && !('0' <= q[0] <= '9')
    requires r == [] || !('0' <= r[0] <= '9')
    ensures WithNumbers(p, a, q, c, r) == WithNumbers(p, b, q, d, r) <==> a == b && c == d
  {
    if WithNumbers(p, a, q, c, r) == WithNumbers(p, b, q, d, r) {
      var x, y := WithNumber(q, c, r), WithNumber(q, d, r);
      assert x[0] == q[0] && y[0] == q[0];
      Text.Framed(p, a, b, x, y);
      WithNumberInjective(q, c, d, r);
    }
  }

  /** The two error replies differ in status code, code and message, and a
      `not_found` message names the id that was asked for. */
  lemma ErrorRepliesDistinct(e1: ApiError, e2: ApiError)
    ensures e1.StatusCode() == e2.StatusCode() <==> e1.Code() == e2.Code()
    ensures ErrorMessage(e1) == ErrorMessage(e2) <==> e1 == e2
  {
    match (e1, e2) {
      case (NotFound(a), NotFound(b)) => WithNumberInjective("Minerador ", a, b, " não existe");
      case (MaxMinersReached, NotFound(b)) => MessagesDiffer(b);
      case (NotFound(a), MaxMinersReached) => MessagesDiffer(a);
      case (MaxMinersReached, MaxMinersReached) =>
    }
  }

  lemma MessagesDiffer(id: int)
    ensures ErrorMessage(MaxMinersReached) != ErrorMessage(NotFound(id))
  {
    assert ErrorMessage(MaxMinersReached)[1] == 'á';
    assert ErrorMessage(NotFound(id))[1] == 'i';
  }

  /** The text of a log line determines the numbers it reports: two lines of
      the same kind read the same exactly when they are about the same miner,
      process, amount or energy level. */
  lemma NoteTextKeepsNumbers(a: int, b: int, c: int, d: int, t: Target)
    ensures NoteText(MinerRegistered(a, c)) == NoteText(MinerRegistered(b, d)) <==> a == b && c == d
    ensures NoteText(EnergyLacking(a)) == NoteText(EnergyLacking(b)) <==> a == b
    ensures NoteText(EnergyRanOut(a)) == NoteText(EnergyRanOut(b)) <==> a == b
    ensures NoteText(Mined(a, t, c)) == NoteText(Mined(b, t, d)) <==> a == b && c == d
    ensures NoteText(MinerFinished(a)) == NoteText(MinerFinished(b)) <==> a == b
    ensures NoteText(EnergyLow(a)) == NoteText(EnergyLow(b)) <==> a == b
    ensures NoteText(MinerCreated(a, c)) == NoteText(MinerCreated(b, d)) <==> a == b && c == d
    ensures NoteText(MinerKilled(a)) == NoteText(MinerKilled(b)) <==> a == b
  {
    WithNumbersInjective("✅ Minerador-", a, b, " iniciado (PID: ", c, d, ")");
    WithNumberInjective("⚠️ Minerador-", a, b, " sem energia suficiente");
    WithNumberInjective("⚠️ Minerador-", a, b, " ficou sem energia durante mineração");
    match t {
      case Minerals => WithNumbersInjective("⛏️ Minerador-", a, b, " minerou ", c, d, " minerais (-5 energia)");
      case Crystals => WithNumbersInjective("💎 Minerador-", a, b, " coletou ", c, d, " cristais (-8 energia)");
    }
    WithNumberInjective("🛑 Minerador-", a, b, " finalizado");
    WithNumberInjective("⚡ Energia baixa: ", a, b, "%");
    WithNumbersInjective("➕ Minerador-", a, b, " criado (PID: ", c, d, ")");
    WithNumberInjective("❌ Minerador-", a, b, " terminado");
  }

  /** The log list after `push_log`: the new entry is last and at most 200
      entries remain. */
  function Pushed(logs: seq<LogEntry>, e: LogEntry): (r: seq<LogEntry>)
    ensures |r| == if |logs| < LogCapacity then |logs| + 1 else LogCapacity
    ensures r[|r| - 1] == e
  {
    Bounded.Last(logs + [e], LogCapacity)
  }

  /** `push_log` drops only the oldest entries, keeps the rest in order, and
      drops nothing while the log is below capacity. */
  lemma PushedDropsOldest(logs: seq<LogEntry>, e: LogEntry)
    ensures var r := Pushed(logs, e);
      && r == (logs + [e])[|logs| + 1 - |r|..]
      && (|logs| < LogCapacity ==> r == logs + [e])
  {
    var all, r := logs + [e], Pushed(logs, e);
    assert r == all[|all| - |r|..];
  }

  /** The log list after `push_log` has been called for each of `es` in turn. */
  function PushedAll(logs: seq<LogEntry>, es: seq<LogEntry>): seq<LogEntry>
  {
    if es == [] then logs else Pushed(PushedAll(logs, es[..|es| - 1]), es[|es| - 1])
  }

  /** However many entries are pushed, the log list is the last 200 entries of
      everything logged, in order. */
  lemma {:induction false} PushedAllWindow(logs: seq<LogEntry>, es: seq<LogEntry>)
    requires |logs| <= LogCapacity
    ensures PushedAll(logs, es) == Bounded.Last(logs + es, LogCapacity)
  {
    if es == [] {
      assert logs + es == logs;
    } else {
      var init, e := es[..|es| - 1], es[|es| - 1];
      PushedAllWindow(logs, init);
      Bounded.LastOfLast(logs + init, [e], LogCapacity);
      assert logs + init + [e] == logs + es;
    }
  }

  lemma RemoveKeyShrinks<V>(m: map<int, V>, k: int)
    ensures (m - {k}).Keys == m.Keys - {k}
    ensures |m - {k}| <= |m|
  {
    assert (m - {k}).Keys == m.Keys - {k};
    assert |m.Keys - {k}| <= |m.Keys|;
  }

  lemma RemoveKeysShrinks<V>(m: map<int, V>, dead: set<int>)
    ensures (m - dead).Keys == m.Keys - dead
    ensures |m - dead| <= |m|
  {
    assert (m - dead).Keys == m.Keys - dead;
    assert |m.Keys - dead| <= |m.Keys|;
  }

  lemma AddKeyGrows<V>(m: map<int, V>, k: int, v: V)
    requires k !in m
    ensures |m[k := v]| == |m| + 1
  {
    assert m[k := v].Keys == m.Keys + {k};
  }

  /** A miner record once it leaves the critical section. */
  function Released(m: Miner): Miner
  {
    m.(locked := false, status := Idle, target := None)
  }

  /** Counters never go below zero. */
  predicate CountersOk(s: Stats)
  {
    s.totalMined >= 0 && s.conflicts >= 0 && s.synchronized >= 0 && s.energyDepleted >= 0
  }

  /** At most six miner processes, with ids 0 to 5, and a miner record only
      for a known process. */
  predicate RosterOk(processes: map<int, int>, miners: map<int, Miner>)
  {
    && |processes| <= MaxMiners
    && (forall id :: id in processes ==> 0 <= id < MaxMiners)
    && (forall id :: id in miners ==> id in processes)
  }

  class SimState {
    var minerals: int
    var energy: int
    var crystals: int
    var running: bool
    var stats: Stats
    var logs: seq<LogEntry>
    var miners: map<int, Miner>
    /** Live miner processes: miner id to process id. */
    var processes: map<int, int>

    function Res(): Resources
      reads this`minerals, this`energy, this`crystals
    {
      Resources(minerals, energy, crystals)
    }

    /** What every handler and worker step keeps: resources inside their caps,
        counters non-negative, the log trimmed, and the roster consistent.
        Each method below gives its exact new state and requires the conjuncts
        it relies on. */
    ghost predicate Valid()
      reads this
    {
      InCaps(Res()) && CountersOk(stats) && |logs| <= LogCapacity && RosterOk(processes, miners)
    }

    /** `init_state`: full resources, paused, no miners, no logs. */
    constructor ()
      ensures Valid()
      ensures Res() == Resources(100, 100, 50) && !running && stats == ZeroStats
      ensures logs == [] && miners == map[] && processes == map[]
    {
      minerals, energy, crystals := 100, 100, 50;
      running := false;
      stats := ZeroStats;
      logs := [];
      miners := map[];
      processes := map[];
    }

    /** `push_log`: append, then drop from the front while over capacity. */
    method PushLog(ts: string, message: Note, level: Level)
      modifies this`logs
      ensures logs == Pushed(old(logs), LogEntry(ts, level, message))
    {
      ghost var all := old(logs) + [LogEntry(ts, level, message)];
      ghost var dropped := 0;
      logs := logs + [LogEntry(ts, level, message)];
      while |logs| > LogCapacity
        invariant dropped <= |all| && logs == all[dropped..]
        invariant dropped == 0 || |logs| >= LogCapacity
        decreases |logs|
      {
        logs := logs[1..];
        dropped := dropped + 1;
      }
      assert logs == Bounded.Last(all, LogCapacity);
    }

    /** `make_state_from_handles`: the current state document, or an all-zero,
        paused, miner-less document when reading the shared state fails. */
    function MakeState(readOk: bool): (d: StateDoc)
      reads this
      ensures readOk ==> d.resources == Res() && d.stats == stats
      ensures readOk ==> d.miners == miners && d.isRunning == running
      ensures !readOk ==> d.resources == Resources(0, 0, 0) && d.stats == ZeroStats
      ensures !readOk ==> d.miners == map[] && !d.isRunning
    {
      if readOk then Wire.StateDoc(Res(), stats, miners, running)
      else Wire.StateDoc(Resources(0, 0, 0), ZeroStats, map[], false)
    }

    /** `snapshot`: the state document plus the last 50 log entries in order
        (none when the log list cannot be read). */
    function Snapshot(readOk: bool, logsOk: bool): (s: Snap)
      reads this
      ensures s.doc == MakeState(readOk)
      ensures |s.logs| <= SnapshotLogs
      ensures logsOk ==> |s.logs| == Min(SnapshotLogs, |logs|)
      ensures logsOk ==> s.logs == logs[|logs| - |s.logs|..]
      ensures !logsOk ==> s.logs == []
    {
      Snap(MakeState(readOk), if logsOk then Bounded.Last(logs, SnapshotLogs) else [])
    }

    /** `POST /api/start`. */
    method Start(ts: string) returns (isRunning: bool)
      modifies this`running, this`logs
      ensures isRunning && running
      ensures logs == Pushed(old(logs), LogEntry(ts, Success, RunStarted))
    {
      running := true;
      PushLog(ts, RunStarted, Success);
      isRunning := true;
    }

    /** `POST /api/pause`. */
    method Pause(ts: string) returns (isRunning: bool)
      modifies this`running, this`logs
      ensures !isRunning && !running
      ensures logs == Pushed(old(logs), LogEntry(ts, Warning, RunPaused))
    {
      running := false;
      PushLog(ts, RunPaused, Warning);
      isRunning := false;
    }

    /** `POST /api/reset`: pause, end every miner process, and restore the
        initial resources and counters; the log holds only the reset line.
        The loop that terminates and forgets the processes one by one is
        represented by its net effect. */
    method Reset(ts: string)
      modifies this
      ensures Valid()
      ensures !running && processes == map[] && miners == map[]
      ensures Res() == Resources(100, 100, 50) && stats == ZeroStats
      ensures logs == [LogEntry(ts, Info, SystemReset)]
    {
      running := false;
      processes := map[];
      miners := map[];
      logs := [];
      stats := ZeroStats;
      minerals, energy, crystals := 100, 100, 50;
      assert RosterOk(processes, miners) && InCaps(Res()) && CountersOk(stats);
      PushLog(ts, SystemReset, Info);
    }

    /** The first loop of `create_miner`: forget every process that is no
        longer alive (`dead`), and its miner record, as one update. */
    method PurgeDead(dead: set<int>)
      requires RosterOk(processes, miners)
      modifies this`processes, this`miners
      ensures RosterOk(processes, miners)
      ensures processes == old(processes) - dead
      ensures miners == old(miners) - (dead * old(processes).Keys)
    {
      RemoveKeysShrinks(processes, dead);
      miners := miners - (dead * processes.Keys);
      processes := processes - dead;
    }

    /** `POST /api/miners`: after purging dead processes, refuse a seventh
        miner; otherwise register the least unused id with process `pid`. */
    method CreateMiner(dead: set<int>, pid: int, ts: string) returns (r: Reply<int>)
      requires RosterOk(processes, miners)
      modifies this`processes, this`miners, this`logs
      ensures RosterOk(processes, miners)
      ensures miners == old(miners) - (dead * old(processes).Keys)
      ensures r.Err? <==> |old(processes) - dead| >= MaxMiners
      ensures r.Err? ==> r.error == MaxMinersReached && processes == old(processes) - dead
      ensures r.Err? ==> logs == Pushed(old(logs), LogEntry(ts, Warning, MinersAtMax))
      ensures r.Ok? ==> r.value !in old(processes) - dead
      ensures r.Ok? ==> forall j :: 0 <= j < r.value ==> j in old(processes) - dead
      ensures r.Ok? ==> processes == (old(processes) - dead)[r.value := pid]
      ensures r.Ok? ==> logs == Pushed(old(logs), LogEntry(ts, Info, MinerCreated(r.value, pid)))
    {
      PurgeDead(dead);
      if |processes| >= MaxMiners {
        PushLog(ts, MinersAtMax, Warning);
        return Err(MaxMinersReached);
      }
      var newId := FreeId(processes.Keys);
      AddKeyGrows(processes, newId, pid);
      processes := processes[newId := pid];
      assert RosterOk(processes, miners);
      PushLog(ts, MinerCreated(newId, pid), Info);
      r := Ok(newId);
    }

    /** `DELETE /api/miners/{id}`: an unknown id is refused and nothing
        changes; a known one loses its process and its miner record. */
    method KillMiner(id: int, ts: string) returns (err: Option<ApiError>)
      requires RosterOk(processes, miners)
      modifies this`processes, this`miners, this`logs
      ensures RosterOk(processes, miners)
      ensures err.Some? <==> id !in old(processes)
      ensures err.Some? ==> err.value == NotFound(id)
      ensures err.Some? ==> processes == old(processes) && miners == old(miners) && logs == old(logs)
      ensures err.None? ==> processes == old(processes) - {id} && miners == old(miners) - {id}
      ensures err.None? ==> logs == Pushed(old(logs), LogEntry(ts, Error, MinerKilled(id)))
    {
      if id !in processes {
        return Some(NotFound(id));
      }
      RemoveKeyShrinks(processes, id);
      processes := processes - {id};
      if id in miners {
        miners := miners[id := miners[id].(status := Terminated)];
        miners := miners - {id};
      }
      PushLog(ts, MinerKilled(id), Error);
      err := None;
    }

    /** The registration a new miner process does before its loop. */
    method RegisterMiner(id: int, pid: int, ts: string)
      requires RosterOk(processes, miners) && id in processes
      modifies this`miners, this`logs
      ensures RosterOk(processes, miners)
      ensures miners == old(miners)[id := Miner(id, MinerName(id), ColorOf(id), Idle, 0, false, None)]
      ensures logs == Pushed(old(logs), LogEntry(ts, Success, MinerRegistered(id, pid)))
    {
      miners := miners[id := Miner(id, MinerName(id), ColorOf(id), Idle, 0, false, None)];
      PushLog(ts, MinerRegistered(id, pid), Success);
    }

    /** The critical section of a miner holding the semaphore: check energy
        again, mine the target if there is energy (and nothing if the target is
        empty), then release the miner. */
    method MineHoldingLock(id: int, t: Target, ts: string)
      requires InCaps(Res()) && CountersOk(stats) && id in miners
      modifies this`minerals, this`energy, this`crystals, this`stats, this`miners, this`logs
      ensures InCaps(Res()) && CountersOk(stats) && miners.Keys == old(miners).Keys
      ensures old(energy) < EnergyCost(t) ==>
        && Res() == old(Res())
        && stats == old(stats).(energyDepleted := old(stats).energyDepleted + 1)
        && miners == old(miners)[id := Released(old(miners)[id])]
        && logs == Pushed(old(logs), LogEntry(ts, Warning, EnergyRanOut(id)))
      ensures old(energy) >= EnergyCost(t) ==>
        var h := Take(old(Res()), t);
        && Res() == h.res
        && miners == old(miners)[id := Released(old(miners)[id]).(mined := old(miners)[id].mined + h.delta)]
        && stats == (if h.delta > 0
                     then old(stats).(totalMined := old(stats).totalMined + h.delta,
                                      synchronized := old(stats).synchronized + 1)
                     else old(stats))
        && logs == (if h.delta > 0 then Pushed(old(logs), LogEntry(ts, Success, Mined(id, t, h.delta)))
                    else old(logs))
    {
      miners := miners[id := miners[id].(locked := true, status := Mining)];
      if energy < EnergyCost(t) {
        PushLog(ts, EnergyRanOut(id), Warning);
        stats := stats.(energyDepleted := stats.energyDepleted + 1);
      } else {
        assert Res() == old(Res());
        Collect(id, t, ts);
      }
      miners := miners[id := Released(miners[id])];
    }

    /** Mining proper, once the second energy check has passed: take from the
        target, count the haul for the miner and in the statistics, and log it;
        an empty target changes nothing. */
    method Collect(id: int, t: Target, ts: string)
      requires InCaps(Res()) && CountersOk(stats) && id in miners && energy >= EnergyCost(t)
      modifies this`minerals, this`energy, this`crystals, this`stats, this`miners, this`logs
      ensures InCaps(Res()) && CountersOk(stats)
      ensures var h := Take(old(Res()), t);
        && Res() == h.res
        && miners == (if h.delta > 0 then old(miners)[id := old(miners)[id].(mined := old(miners)[id].mined + h.delta)]
                      else old(miners))
        && stats == (if h.delta > 0
                     then old(stats).(totalMined := old(stats).totalMined + h.delta,
                                      synchronized := old(stats).synchronized + 1)
                     else old(stats))
        && logs == (if h.delta > 0 then Pushed(old(logs), LogEntry(ts, Success, Mined(id, t, h.delta)))
                    else old(logs))
    {
      var h := Take(Res(), t);
      if h.delta > 0 {
        minerals, energy, crystals := h.res.minerals, h.res.energy, h.res.crystals;
        stats := stats.(totalMined := stats.totalMined + h.delta,
                        synchronized := stats.synchronized + 1);
        miners := miners[id := miners[id].(mined := miners[id].mined + h.delta)];
        PushLog(ts, Mined(id, t, h.delta), Success);
      }
    }

    /** One pass of a miner's loop. Paused: maybe wander (status idle).
        Running: announce the target and wait; then either wander, or find too
        little energy, or lose the semaphore (a conflict), or mine. */
    method WorkerStep(id: int, wander: bool, attempt: bool, t: Target,
                      warn: bool, acquired: bool, ts: string)
      requires InCaps(Res()) && CountersOk(stats) && id in miners
      modifies this`minerals, this`energy, this`crystals, this`stats, this`miners, this`logs
      ensures InCaps(Res()) && CountersOk(stats) && miners.Keys == old(miners).Keys
      ensures !old(running) ==>
        && Res() == old(Res()) && stats == old(stats) && logs == old(logs)
        && miners == if wander then old(miners)[id := old(miners)[id].(status := Idle)] else old(miners)
      ensures old(running) && !attempt ==>
        && Res() == old(Res()) && stats == old(stats) && logs == old(logs)
        && miners == old(miners)[id := Released(old(miners)[id])]
      ensures old(running) && attempt && old(energy) < EnergyCost(t) ==>
        && Res() == old(Res())
        && miners == old(miners)[id := old(miners)[id].(status := NoEnergy, target := None, locked := false)]
        && stats == (if warn then old(stats).(energyDepleted := old(stats).energyDepleted + 1) else old(stats))
        && logs == (if warn then Pushed(old(logs), LogEntry(ts, Warning, EnergyLacking(id))) else old(logs))
      ensures old(running) && attempt && old(energy) >= EnergyCost(t) && !acquired ==>
        && Res() == old(Res()) && logs == old(logs)
        && stats == old(stats).(conflicts := old(stats).conflicts + 1)
        && miners == old(miners)[id := old(miners)[id].(target := Some(t), status := Blocked, locked := false)]
      ensures old(running) && attempt && old(energy) >= EnergyCost(t) && acquired ==>
        var h := Take(old(Res()), t);
        && Res() == h.res
        && miners == old(miners)[id := Released(old(miners)[id]).(mined := old(miners)[id].mined + h.delta)]
        && stats == (if h.delta > 0
                     then old(stats).(totalMined := old(stats).totalMined + h.delta,
                                      synchronized := old(stats).synchronized + 1)
                     else old(stats))
        && logs == (if h.delta > 0 then Pushed(old(logs), LogEntry(ts, Success, Mined(id, t, h.delta)))
                    else old(logs))
    {
      if !running {
        if wander {
          miners := miners[id := miners[id].(status := Idle)];
        }
        return;
      }
      miners := miners[id := miners[id].(target := Some(t), status := Waiting, locked := false)];
      if attempt {
        if energy < EnergyCost(t) {
          miners := miners[id := miners[id].(status := NoEnergy, target := None)];
          if warn {
            PushLog(ts, EnergyLacking(id), Warning);
            stats := stats.(energyDepleted := stats.energyDepleted + 1);
          }
        } else if !acquired {
          stats := stats.(conflicts := stats.conflicts + 1);
          miners := miners[id := miners[id].(status := Blocked)];
        } else {
          MineHoldingLock(id, t, ts);
        }
      } else {
        miners := miners[id := miners[id].(status := Idle, target := None)];
      }
    }

    /** The `finally` of a miner's loop: mark it terminated if still listed. */
    method FinishMiner(id: int, ts: string)
      modifies this`miners, this`logs
      ensures miners.Keys == old(miners).Keys
      ensures miners == if id in old(miners) then old(miners)[id := old(miners)[id].(status := Terminated)]
                        else old(miners)
      ensures logs == Pushed(old(logs), LogEntry(ts, Warning, MinerFinished(id)))
    {
      if id in miners {
        miners := miners[id := miners[id].(status := Terminated)];
      }
      PushLog(ts, MinerFinished(id), Warning);
    }

    /** One pass of the regenerator's loop, `tick` counting from 1, with its
        occasional low-energy warning. */
    method RegenTick(tick: nat, ts: string)
      requires InCaps(Res())
      modifies this`minerals, this`energy, this`crystals, this`logs
      ensures InCaps(Res())
      ensures Res() == Regen(old(Res()), tick)
      ensures logs == if energy < 20 && tick % 8 == 0
                      then Pushed(old(logs), LogEntry(ts, Warning, EnergyLow(energy)))
                      else old(logs)
    {
      minerals := Min(MineralsCap, minerals + 1);
      energy := Min(EnergyCap, energy + 2);
      if tick % 5 == 0 {
        crystals := Min(CrystalsCap, crystals + 1);
      }
      if energy < 20 && tick % 8 == 0 {
        PushLog(ts, EnergyLow(energy), Warning);
      }
    }
  }
}
