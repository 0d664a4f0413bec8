/** The dashboard's side (frontend/src/jogo_backend.tsx): the five state cells
    it keeps, the reducer its event-stream handler applies to each message, the
    wholesale replacement done at start-up and after a reset, and the choice
    `toggleRun` makes. */
module Client {
  import opened Wire
  import Bounded

  /** The dashboard keeps at most this many log entries. */
  const LogWindow := 50

  /** The five state cells of the dashboard. */
  datatype Model = Model(
    resources: Resources,
    miners: map<int, Miner>,
    stats: Stats,
    isRunning: bool,
    logs: seq<LogEntry>)

  /** One message on the event stream, once parsed: a state document, a log
      entry, a well-formed message of another type, or text that does not
      parse. */
  datatype Msg = State(doc: StateDoc) | Log(entry: LogEntry) | Unknown | Malformed

  /** The initial values of the state cells. */
  function Initial(): (m: Model)
    ensures m.resources == Resources(100, 100, 50) && m.stats == ZeroStats
    ensures m.miners == map[] && !m.isRunning && m.logs == []
  {
    Model(Resources(100, 100, 50), map[], ZeroStats, false, [])
  }

  /** The part of the model a state message carries. */
  function Doc(m: Model): StateDoc
  {
    StateDoc(m.resources, m.stats, m.miners, m.isRunning)
  }

  /** The log cell after a log message: the last 49 entries kept, then the
      new one. */
  function Appended(logs: seq<LogEntry>, e: LogEntry): (r: seq<LogEntry>)
    ensures |r| == if |logs| < LogWindow then |logs| + 1 else LogWindow
    ensures r[|r| - 1] == e
    ensures r == (logs + [e])[|logs| + 1 - |r|..]
  {
    var r := Bounded.Last(logs, LogWindow - 1) + [e];
    assert r == (logs + [e])[|logs| + 1 - |r|..];
    r
  }

  /** The event-stream handler: a state message replaces the four state
      fields and leaves the log alone, a log message appends to the bounded
      log and touches nothing else, and any other message is ignored. */
  function Receive(m: Model, msg: Msg): (r: Model)
    ensures msg.State? ==> Doc(r) == msg.doc && r.logs == m.logs
    ensures msg.Log? ==> Doc(r) == Doc(m) && r.logs == Appended(m.logs, msg.entry)
    ensures msg.Unknown? || msg.Malformed? ==> r == m
  {
    match msg
    case State(d) => m.(resources := d.resources, miners := d.miners, stats := d.stats, isRunning := d.isRunning)
    case Log(e) => m.(logs := Appended(m.logs, e))
    case Unknown => m
    case Malformed => m
  }

  /** Start-up and the re-fetch after a reset: every cell, the log included,
      takes the snapshot's value. */
  function FromSnapshot(snap: Snap): (r: Model)
    ensures Doc(r) == snap.doc && r.logs == snap.logs
  {
    Model(snap.doc.resources, snap.doc.miners, snap.doc.stats, snap.doc.isRunning, snap.logs)
  }

  /** The endpoint `toggleRun` posts to. */
  function TogglePath(isRunning: bool): (path: string)
    ensures path == "/api/pause" <==> isRunning
    ensures path == "/api/start" <==> !isRunning
  {
    if isRunning then "/api/pause" else "/api/start"
  }

  /** `toggleRun` after the reply: only the run flag changes, to the reply's. */
  function AfterToggle(m: Model, replyRunning: bool): (r: Model)
    ensures r.isRunning == replyRunning
    ensures r.(isRunning := m.isRunning) == m
  {
    m.(isRunning := replyRunning)
  }

  /** The model after a sequence of messages, in order. */
  function Replay(m: Model, msgs: seq<Msg>): Model
  {
    if msgs == [] then m else Receive(Replay(m, msgs[..|msgs| - 1]), msgs[|msgs| - 1])
  }

  /** The log entries a sequence of messages carries, in order. */
  function Entries(msgs: seq<Msg>): seq<LogEntry>
  {
    if msgs == [] then []
    else
      var last := msgs[|msgs| - 1];
      Entries(msgs[..|msgs| - 1]) + (if last.Log? then [last.entry] else [])
  }

  /** The document of the last state message, if any. */
  function LastDoc(msgs: seq<Msg>): Option<StateDoc>
  {
    if msgs == [] then None
    else if msgs[|msgs| - 1].State? then Some(msgs[|msgs| - 1].doc)
    else LastDoc(msgs[..|msgs| - 1])
  }

  /** A state message applied twice is the same as applied once. */
  lemma StateIdempotent(m: Model, d: StateDoc)
    ensures Receive(Receive(m, State(d)), State(d)) == Receive(m, State(d))
  {
  }

  /** After any messages, the log is the last 50 of the old log followed by
      every entry received, and untouched if none was received. */
  lemma {:induction false} ReplayLogs(m: Model, msgs: seq<Msg>)
    ensures Replay(m, msgs).logs ==
      if Entries(msgs) == [] then m.logs else Bounded.Last(m.logs + Entries(msgs), LogWindow)
  {
    if msgs != [] {
      var init, last := msgs[..|msgs| - 1], msgs[|msgs| - 1];
      ReplayLogs(m, init);
      var before := Replay(m, init).logs;
      if last.Log? {
        var e := last.entry;
        assert Entries(msgs) == Entries(init) + [e];
        Bounded.LastThenAppend(before, e, LogWindow - 1);
        if Entries(init) == [] {
          assert m.logs + Entries(msgs) == m.logs + [e];
        } else {
          var all := m.logs + Entries(init);
          Bounded.LastOfLast(all, [e], LogWindow);
          assert m.logs + Entries(msgs) == all + [e];
        }
      } else {
        assert Entries(msgs) == Entries(init);
      }
    }
  }

  /** From a log of at most 50 entries, no sequence of messages makes it
      longer than 50. */
  lemma {:induction false} ReplayBounded(m: Model, msgs: seq<Msg>)
    requires |m.logs| <= LogWindow
    ensures |Replay(m, msgs).logs| <= LogWindow
  {
    if msgs != [] {
      ReplayBounded(m, msgs[..|msgs| - 1]);
    }
  }

  /** The four state fields come from the last state message, or stay as they
      were if there was none. */
  lemma {:induction false} ReplayState(m: Model, msgs: seq<Msg>)
    ensures Doc(Replay(m, msgs)) == if LastDoc(msgs).Some? then LastDoc(msgs).value else Doc(m)
  {
    if msgs != [] {
      ReplayState(m, msgs[..|msgs| - 1]);
    }
  }

  /** Dropping the ignored messages from a stream changes nothing. */
  function Meaningful(msgs: seq<Msg>): (r: seq<Msg>)
    ensures |r| <= |msgs|
    ensures forall i :: 0 <= i < |r| ==> r[i].State? || r[i].Log?
  {
    if msgs == [] then []
    else
      var last := msgs[|msgs| - 1];
      Meaningful(msgs[..|msgs| - 1]) + (if last.State? || last.Log? then [last] else [])
  }

  lemma {:induction false} ReplayIgnoresNoise(m: Model, msgs: seq<Msg>)
    ensures Replay(m, Meaningful(msgs)) == Replay(m, msgs)
  {
    if msgs != [] {
      var init, last := msgs[..|msgs| - 1], msgs[|msgs| - 1];
      ReplayIgnoresNoise(m, init);
      var r := Meaningful(msgs);
      if last.State? || last.Log? {
        assert r == Meaningful(init) + [last];
        assert r[..|r| - 1] == Meaningful(init);
        assert Replay(m, r) == Receive(Replay(m, Meaningful(init)), last);
      } else {
        assert r == Meaningful(init);
        assert Replay(m, msgs) == Replay(m, init);
      }
    }
  }

  /** A start-up from the initial snapshot, then a state message with one
      miner, then a log message: the model matches the snapshot, then holds
      exactly that miner, then ends its log with that entry. */
  lemma BootstrapThenUpdates(miner: Miner, e: LogEntry)
    ensures var m0 := FromSnapshot(Snap(StateDoc(Resources(100, 100, 50), ZeroStats, map[], false), []));
      var d := StateDoc(Resources(100, 100, 50), ZeroStats, map[1 := miner], true);
      var m1 := Receive(m0, State(d));
      var m2 := Receive(m1, Log(e));
      && m0 == Initial()
      && m1.miners == map[1 := miner] && m1.logs == []
      && m2.miners == map[1 := miner] && m2.logs == [e]
  {
  }
}
