/**
 * The HTTP entry point: the bounded in-memory log, the registry of MCP sessions opened over SSE,
 * the guards of `POST /messages`, and the catch-all route. Express, the SSE headers and the MCP
 * protocol itself are not modelled. Transports and MCP servers are opaque handles. The clock
 * (`new Date().toISOString()`) is the `timestamp` argument of `LogToMemory`.
 */
module Server {
  import opened Wrappers
  import opened Text

  const MAX_LOGS: nat := 500

  // ---------------------------------------------------------------------------------------------
  // The in-memory log.

  /** The line stored for a message. */
  function LogLine(timestamp: string, message: string): string {
    "[" + timestamp + "] " + message
  }

  /** The log after one `logToMemory`: the line is pushed, and the oldest line shifted out on overflow. */
  function Appended(log: seq<string>, line: string): seq<string> {
    var grown := log + [line];
    if |grown| > MAX_LOGS then grown[1..] else grown
  }

  /** The last `n` elements of `s`, or all of them when there are fewer. */
  function LastN(s: seq<string>, n: nat): (r: seq<string>)
    ensures |r| == if |s| < n then |s| else n
  {
    if |s| <= n then s else s[|s| - n..]
  }

  /** One append keeps a log of at most 500 lines at most 500 lines, with the new line last. */
  lemma AppendedBounded(log: seq<string>, line: string)
    requires |log| <= MAX_LOGS
    ensures var r := Appended(log, line);
      && |r| <= MAX_LOGS && |r| > 0 && r[|r| - 1] == line
      && (|log| < MAX_LOGS ==> r == log + [line])
      && (|log| == MAX_LOGS ==> r == log[1..] + [line])
  {
    if |log| == MAX_LOGS {
      assert (log + [line])[1..] == log[1..] + [line];
    }
  }

  /** The log after a run of messages, one `logToMemory` each. */
  function AppendedAll(log: seq<string>, lines: seq<string>): seq<string>
    decreases |lines|
  {
    if |lines| == 0 then log else AppendedAll(Appended(log, lines[0]), lines[1..])
  }

  /**
   * Whatever was logged, the log holds exactly the most recent 500 lines, oldest first: lines
   * are dropped only from the front and never reordered.
   */
  lemma {:induction false} AppendedAllKeepsNewest(log: seq<string>, lines: seq<string>)
    requires |log| <= MAX_LOGS
    ensures AppendedAll(log, lines) == LastN(log + lines, MAX_LOGS)
    decreases |lines|
  {
    if |lines| == 0 {
      assert log + lines == log;
    } else {
      var next := Appended(log, lines[0]);
      AppendedBounded(log, lines[0]);
      AppendedAllKeepsNewest(next, lines[1..]);
      var all := log + lines;
      assert next + lines[1..] == LastN(log + [lines[0]], MAX_LOGS) + lines[1..];
      assert (log + [lines[0]]) + lines[1..] == all;
      LastNAppend(log + [lines[0]], lines[1..]);
    }
  }

  /** Trimming before appending more, and trimming again, is trimming once. */
  lemma LastNAppend(a: seq<string>, b: seq<string>)
    ensures LastN(LastN(a, MAX_LOGS) + b, MAX_LOGS) == LastN(a + b, MAX_LOGS)
  {
    if |a| > MAX_LOGS {
      var k := |a| - MAX_LOGS;
      assert LastN(a, MAX_LOGS) + b == (a + b)[k..];
      var c := a + b;
      if |c[k..]| > MAX_LOGS {
        assert c[k..][|c[k..]| - MAX_LOGS..] == c[|c| - MAX_LOGS..];
      }
    }
  }

  class MemoryLog {
    var lines: seq<string>

    predicate Valid()
      reads this
    {
      |lines| <= MAX_LOGS
    }

    constructor ()
      ensures lines == [] && Valid()
    {
      lines := [];
    }

    /** `logToMemory(message)` at the instant `timestamp`. */
    method LogToMemory(timestamp: string, message: string)
      requires Valid()
      modifies this
      ensures Valid()
      ensures lines == Appended(old(lines), LogLine(timestamp, message))
    {
      lines := lines + [LogLine(timestamp, message)];
      if |lines| > MAX_LOGS {
        lines := lines[1..];
      }
    }
  }

  // ---------------------------------------------------------------------------------------------
  // MCP sessions.

  datatype Transport = Transport(handle: nat)

  datatype McpServer = McpServer(handle: nat)

  /** The `transports` and `mcpServers` maps. */
  datatype Sessions = Sessions(transports: map<string, Transport>, servers: map<string, McpServer>)

  /** Both maps always know the same sessions. */
  predicate Paired(s: Sessions) {
    s.transports.Keys == s.servers.Keys
  }

  /** A connection whose transport got a session id stores it in both maps; otherwise nothing changes. */
  function Connected(s: Sessions, sessionId: Option<string>, t: Transport, m: McpServer): Sessions {
    if Given(sessionId) then
      Sessions(s.transports[sessionId.value := t], s.servers[sessionId.value := m])
    else s
  }

  /**
   * Closing a connection removes its session from both maps; the server is removed whether or
   * not closing it fails.
   */
  function Closed(s: Sessions, sessionId: Option<string>): Sessions {
    if Given(sessionId) then
      Sessions(s.transports - {sessionId.value},
               if sessionId.value in s.servers then s.servers - {sessionId.value} else s.servers)
    else s
  }

  lemma ConnectCloseKeepPaired(s: Sessions, sessionId: Option<string>, t: Transport, m: McpServer)
    requires Paired(s)
    ensures Paired(Connected(s, sessionId, t, m)) && Paired(Closed(s, sessionId))
  {
  }

  /** A session opened and closed again leaves the registry as it found it. */
  lemma CloseUndoesConnect(s: Sessions, sessionId: string, t: Transport, m: McpServer)
    requires sessionId != "" && sessionId !in s.transports && sessionId !in s.servers
    ensures Closed(Connected(s, Some(sessionId), t, m), Some(sessionId)) == s
  {
    var c := Connected(s, Some(sessionId), t, m);
    assert c.transports - {sessionId} == s.transports;
    assert c.servers - {sessionId} == s.servers;
  }

  /** An open session is reachable by `POST /messages`; a closed one is not. */
  lemma ConnectedReachable(s: Sessions, sessionId: string, t: Transport, m: McpServer)
    requires sessionId != ""
    ensures Connected(s, Some(sessionId), t, m).transports[sessionId] == t
    ensures sessionId !in Closed(Connected(s, Some(sessionId), t, m), Some(sessionId)).transports
  {
  }

  class SessionRegistry {
    var transports: map<string, Transport>
    var mcpServers: map<string, McpServer>

    function State(): Sessions
      reads this
    {
      Sessions(transports, mcpServers)
    }

    constructor ()
      ensures State() == Sessions(map[], map[]) && Paired(State())
    {
      transports := map[];
      mcpServers := map[];
    }

    /** The end of `GET /sse`, once the server is connected to the transport. */
    method OnConnect(sessionId: Option<string>, t: Transport, m: McpServer)
      modifies this
      ensures State() == Connected(old(State()), sessionId, t, m)
    {
      if Given(sessionId) {
        transports := transports[sessionId.value := t];
        mcpServers := mcpServers[sessionId.value := m];
      }
    }

    /** The `close` handler of the SSE response. */
    method OnClose(sessionId: Option<string>)
      modifies this
      ensures State() == Closed(old(State()), sessionId)
    {
      if Given(sessionId) {
        transports := transports - {sessionId.value};
        if sessionId.value in mcpServers {
          mcpServers := mcpServers - {sessionId.value};
        }
      }
    }
  }

  // ---------------------------------------------------------------------------------------------
  // Routes.

  datatype Response =
    | Status(code: nat, body: string)
    | HandledByTransport
    | SendIndexHtml

  const MISSING_SESSION: string := "Missing sessionId parameter"
  const UNKNOWN_SESSION: string := "Session not found or expired"
  const NOT_FOUND: string := "Not Found"
  const NO_FRONTEND: string := "EmyFlow API Running. (Frontend build not found in dist)"

  /**
   * `POST /messages?sessionId=…`; `handle` is the transport's `handlePostMessage`, returning the
   * message of the error it threw, if any.
   */
  function Messages(transports: map<string, Transport>, sessionId: Option<string>,
                    handle: Transport -> Option<string>): (r: Response)
    ensures !Given(sessionId) <==> r == Status(400, MISSING_SESSION)
    ensures Given(sessionId) && sessionId.value !in transports <==> r == Status(404, UNKNOWN_SESSION)
    ensures Given(sessionId) && sessionId.value in transports ==>
      (r == HandledByTransport <==> handle(transports[sessionId.value]).None?)
    ensures Given(sessionId) && sessionId.value in transports && handle(transports[sessionId.value]).Some? ==>
      r == Status(500, handle(transports[sessionId.value]).value)
  {
    if !Given(sessionId) then Status(400, MISSING_SESSION)
    else if sessionId.value !in transports then Status(404, UNKNOWN_SESSION)
    else
      match handle(transports[sessionId.value])
      case None => HandledByTransport
      case Some(message) => Status(500, message)
  }

  /** A path owned by the API, whose unknown sub-paths must not fall through to the SPA. */
  predicate ApiPath(path: string) {
    StartsWith(path, "/api") || StartsWith(path, "/sse") || StartsWith(path, "/webhooks")
  }

  /** `app.get('*')`: 404 under the API prefixes, else the SPA's `index.html` when it was built. */
  function CatchAll(path: string, indexExists: bool): (r: Response)
    ensures r == Status(404, NOT_FOUND) <==> ApiPath(path)
    ensures !ApiPath(path) ==> (r == SendIndexHtml <==> indexExists)
    ensures !ApiPath(path) && !indexExists ==> r == Status(200, NO_FRONTEND)
  {
    if ApiPath(path) then Status(404, NOT_FOUND)
    else if indexExists then SendIndexHtml
    else Status(200, NO_FRONTEND)
  }

  /** Every path below an API prefix is refused, including paths that merely extend the prefix. */
  lemma ApiPrefixRefused(prefix: string, rest: string, indexExists: bool)
    requires prefix in {"/api", "/sse", "/webhooks"}
    ensures CatchAll(prefix + rest, indexExists) == Status(404, NOT_FOUND)
  {
    assert (prefix + rest)[..|prefix|] == prefix;
  }
}
