/** The dashboard and the server side by side: the two commands whose reply
    the dashboard reads back (`toggleRun` and `reset`), start-up from a
    snapshot, and how the dashboard's 50-entry log follows the server's
    200-entry log through the stream of log messages. */
module Sync {
  import opened Wire
  import Bounded
  import Server
  import Client

  /** `toggleRun`: post to the endpoint the dashboard's own flag selects, then
      adopt the flag of the reply. The server ends up in the opposite of the
      state the dashboard showed, even when that display was stale, and both
      agree afterwards. */
  method ToggleRun(s: Server.SimState, m: Client.Model, ts: string) returns (r: Client.Model)
    modifies s`running, s`logs
    ensures r == m.(isRunning := !m.isRunning)
    ensures s.running == r.isRunning
    ensures m.isRunning ==> s.logs == Server.Pushed(old(s.logs), LogEntry(ts, Warning, RunPaused))
    ensures !m.isRunning ==> s.logs == Server.Pushed(old(s.logs), LogEntry(ts, Success, RunStarted))
  {
    var path := Client.TogglePath(m.isRunning);
    var replyRunning: bool;
    if path == "/api/pause" {
      replyRunning := s.Pause(ts);
    } else {
      replyRunning := s.Start(ts);
    }
    r := Client.AfterToggle(m, replyRunning);
  }

  /** Start-up: the dashboard takes every cell from the server's snapshot. */
  function Bootstrap(s: Server.SimState, readOk: bool, logsOk: bool): (m: Client.Model)
    reads s
    ensures readOk ==> Client.Doc(m) == s.MakeState(true)
    ensures logsOk ==> m.logs == Bounded.Last(s.logs, Client.LogWindow)
    ensures !logsOk ==> m.logs == []
  {
    Client.FromSnapshot(s.Snapshot(readOk, logsOk))
  }

  /** `reset` on the dashboard: post the reset, fetch a snapshot and take all
      of it. The dashboard then shows exactly the server's initial state with
      the one reset line in its log. */
  method ResetAndResync(s: Server.SimState, ts: string) returns (r: Client.Model)
    modifies s
    ensures s.Valid()
    ensures r == Client.Model(Resources(100, 100, 50), map[], ZeroStats, false,
                              [LogEntry(ts, Info, SystemReset)])
    ensures Client.Doc(r) == s.MakeState(true) && r.logs == s.logs
  {
    s.Reset(ts);
    var snap := s.Snapshot(true, true);
    r := Client.FromSnapshot(snap);
  }

  /** One step of the log mirror: if the dashboard holds the last 50 server
      entries, then after the server pushes an entry and the dashboard
      receives it as a log message, the dashboard again holds the last 50. */
  lemma {:induction false} MirrorAfterPush(serverLogs: seq<LogEntry>, m: Client.Model, e: LogEntry)
    requires m.logs == Bounded.Last(serverLogs, Client.LogWindow)
    ensures Client.Receive(m, Client.Log(e)).logs
         == Bounded.Last(Server.Pushed(serverLogs, e), Client.LogWindow)
  {
    Bounded.LastOfWider(serverLogs, Client.LogWindow, Client.LogWindow - 1);
    Bounded.LastThenAppend(serverLogs, e, Client.LogWindow - 1);
    Bounded.LastOfWider(serverLogs + [e], Server.LogCapacity, Client.LogWindow);
  }

  /** The stream of log messages the server emits for `es`, in order. */
  function LogMsgs(es: seq<LogEntry>): (msgs: seq<Client.Msg>)
    ensures |msgs| == |es|
    ensures forall i :: 0 <= i < |es| ==> msgs[i] == Client.Log(es[i])
  {
    if es == [] then [] else LogMsgs(es[..|es| - 1]) + [Client.Log(es[|es| - 1])]
  }

  /** The mirror holds along any run of pushes: starting from a snapshot's
      window, the dashboard that receives every log message holds the last
      50 entries of the server's log. */
  lemma {:induction false} MirrorAfterPushes(serverLogs: seq<LogEntry>, m: Client.Model, es: seq<LogEntry>)
    requires m.logs == Bounded.Last(serverLogs, Client.LogWindow)
    ensures Client.Replay(m, LogMsgs(es)).logs
         == Bounded.Last(Server.PushedAll(serverLogs, es), Client.LogWindow)
  {
    if es != [] {
      var init, e := es[..|es| - 1], es[|es| - 1];
      MirrorAfterPushes(serverLogs, m, init);
      var msgs := LogMsgs(es);
      assert msgs[..|msgs| - 1] == LogMsgs(init);
      MirrorAfterPush(Server.PushedAll(serverLogs, init), Client.Replay(m, LogMsgs(init)), e);
    }
  }
}
