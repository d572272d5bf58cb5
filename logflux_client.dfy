/**
 * The client: its constructors, the connection state machine
 * (connect / is_connected / close) and the send operations.
 *
 * The operating system is not modelled. What `socket`, `setsockopt`,
 * `inet_pton`, `connect` and `send` answer is passed in, and the client keeps
 * ghost logs of what it handed to the operating system: the payloads given to
 * `send` (Sent), the descriptors it obtained (Opened) and closed (Released),
 * and the timeouts it asked `setsockopt` to install (Timeouts).
 */
module LogfluxClient {
  import opened Wrappers
  import opened Types
  import opened Wire
  import opened LogEntries
  import opened SharedSecret

  const DefaultTimeoutMs: u32 := 10000
  const DefaultRetryCount: u32 := 3
  const DefaultRetryDelayMs: u32 := 1000

  /** `sizeof(((struct sockaddr_un *)0)->sun_path)` on Linux. */
  const SunPathSize: nat := 108

  /** `logflux_config_t`. The connection type is the raw enum value. */
  datatype Config = Config(
    connectionType: int,
    socketPath: string,
    host: string,
    port: u16,
    sharedSecret: string,
    timeoutMs: u32,
    retryCount: u32,
    retryDelayMs: u32)

  /** `struct timeval`. */
  datatype TimeVal = TimeVal(sec: int, usec: int)

  /**
   * The timeout `set_socket_timeout` installs for both directions: whole
   * seconds and the remaining microseconds, which together are exactly the
   * configured milliseconds.
   */
  function SocketTimeout(timeoutMs: u32): (tv: TimeVal)
    ensures 0 <= tv.sec && 0 <= tv.usec < 1000000
    ensures tv.sec * 1000000 + tv.usec == timeoutMs as int * 1000
  {
    TimeVal(timeoutMs as int / 1000, (timeoutMs as int % 1000) * 1000)
  }

  /** What the operating system answers to the calls a connect attempt makes. */
  datatype SocketCalls = SocketCalls(
    socketFd: Option<nat>,   // socket(): a descriptor, or None for its -1
    timeoutSet: bool,        // both setsockopt calls succeeded
    addressParsed: bool,     // inet_pton accepted the host (asked for TCP only)
    connectAccepted: bool)   // connect() succeeded

  /**
   * The result of a connect attempt on a client that is not connected:
   * socket, timeout, address, connect, checked in that order. Any type other
   * than UNIX is connected over TCP.
   */
  function ConnectOutcome(config: Config, calls: SocketCalls): (err: Error)
    ensures err == Ok <==>
      && calls.socketFd.Some?
      && calls.timeoutSet
      && (config.connectionType == ConnUnix ==> |config.socketPath| < SunPathSize)
      && (config.connectionType != ConnUnix ==> calls.addressParsed)
      && calls.connectAccepted
    ensures err == Timeout <==> calls.socketFd.Some? && !calls.timeoutSet
    ensures err == InvalidParam <==>
      calls.socketFd.Some? && calls.timeoutSet && config.connectionType == ConnUnix
      && |config.socketPath| >= SunPathSize
    ensures err in {Ok, Timeout, InvalidParam, Connection}
  {
    if calls.socketFd.None? then Connection
    else if !calls.timeoutSet then Timeout
    else if config.connectionType == ConnUnix && |config.socketPath| >= SunPathSize then InvalidParam
    else if config.connectionType != ConnUnix && !calls.addressParsed then Connection
    else if !calls.connectAccepted then Connection
    else Ok
  }

  /** The secret `send_entry` hands to the encoder: the configured one for TCP, NULL otherwise. */
  function SecretFor(config: Config): (secret: Option<string>)
    ensures secret.Some? <==> config.connectionType == ConnTcp
    ensures secret.Some? ==> secret.value == config.sharedSecret
  {
    if config.connectionType == ConnTcp then Some(config.sharedSecret) else None
  }

  /** The views of a run of entries, in order. */
  ghost function Views(entries: seq<LogEntry>): (views: seq<EntryView>)
    reads set e | e in entries, set e | e in entries :: e.keys, set e | e in entries :: e.values
    requires forall i :: 0 <= i < |entries| ==> entries[i].Valid()
    ensures |views| == |entries|
    ensures forall i :: 0 <= i < |entries| ==> views[i] == entries[i].View()
    decreases |entries|
  {
    if |entries| == 0 then []
    else Views(entries[..|entries| - 1]) + [entries[|entries| - 1].View()]
  }

  /** The lines sent for a run of entries, one per entry, under one secret. */
  function Lines(views: seq<EntryView>, secret: Option<string>): (lines: seq<string>)
    ensures |lines| == |views|
    decreases |views|
  {
    if |views| == 0 then []
    else Lines(views[..|views| - 1], secret) + [Frame(Encode(views[|views| - 1], secret))]
  }

  /** Line `i` of a run is the framed encoding of entry `i`. */
  lemma {:induction false} LinesAt(views: seq<EntryView>, secret: Option<string>, i: nat)
    requires i < |views|
    ensures Lines(views, secret)[i] == Frame(Encode(views[i], secret))
    decreases |views|
  {
    if i < |views| - 1 {
      LinesAt(views[..|views| - 1], secret, i);
    }
  }

  /**
   * How many of `lines`, counting from `i`, go out whole before the first
   * one whose `send` returns anything but its length.
   */
  function Accepted(lines: seq<string>, sent: nat -> int, i: nat): (k: nat)
    requires i <= |lines|
    ensures i <= k <= |lines|
    ensures forall j :: i <= j < k ==> sent(j) == |lines[j]|
    ensures k < |lines| ==> sent(k) != |lines[k]|
    decreases |lines| - i
  {
    if i == |lines| || sent(i) != |lines[i]| then i else Accepted(lines, sent, i + 1)
  }

  /** Each of `lines` carries the entry at its position. */
  ghost predicate AllCarry(lines: seq<string>, entries: seq<LogEntry>, secret: Option<string>)
    reads set e | e in entries, set e | e in entries :: e.keys, set e | e in entries :: e.values
    requires forall i :: 0 <= i < |entries| ==> entries[i].Valid()
  {
    && |lines| == |entries|
    && forall i {:trigger Carries(lines[i], entries[i], secret)} ::
         0 <= i < |entries| ==> Carries(lines[i], entries[i], secret)
  }

  /** The lines of a run of entries carry those entries, position by position. */
  lemma LinesCarry(entries: seq<LogEntry>, secret: Option<string>)
    requires forall i :: 0 <= i < |entries| ==> entries[i].Valid()
    ensures AllCarry(Lines(Views(entries), secret), entries, secret)
  {
    var views := Views(entries);
    forall i | 0 <= i < |entries|
      ensures Carries(Lines(views, secret)[i], entries[i], secret)
    {
      LinesAt(views, secret, i);
    }
  }

  /** Appending line `i` to a log that ends with the first `i` lines gives the first `i + 1`. */
  lemma SentStep(start: seq<string>, lines: seq<string>, i: nat, before: seq<string>, after: seq<string>)
    requires i < |lines|
    requires before == start + lines[..i] && after == before + [lines[i]]
    ensures after == start + lines[..i + 1]
  {
    assert lines[..i + 1] == lines[..i] + [lines[i]];
  }

  /** `line` is what `send_entry` puts on the wire for `entry` under `secret`. */
  ghost predicate Carries(line: string, entry: LogEntry, secret: Option<string>)
    reads entry, entry.keys, entry.values
    requires entry.Valid()
  {
    line == Frame(Encode(entry.View(), secret))
  }

  class Client {
    const config: Config
    var socketFd: int
    var connected: bool
    ghost var Sent: seq<string>
    ghost var Opened: seq<nat>
    ghost var Released: seq<nat>
    ghost var Timeouts: seq<TimeVal>

    /**
     * A connected client holds a descriptor, a disconnected one holds -1, and
     * every descriptor obtained has been closed except the one in use.
     */
    ghost predicate Valid()
      reads this
    {
      && (connected ==> socketFd >= 0)
      && (!connected ==> socketFd == -1)
      && Opened == Released + (if connected then [socketFd as nat] else [])
    }

    /** The common part of the three constructors: no socket, not connected. */
    constructor Init(config: Config)
      ensures Valid() && this.config == config
      ensures socketFd == -1 && !connected
      ensures Sent == [] && Opened == [] && Released == [] && Timeouts == []
    {
      this.config := config;
      this.socketFd := -1;
      this.connected := false;
      this.Sent := [];
      this.Opened := [];
      this.Released := [];
      this.Timeouts := [];
    }

    /** `logflux_client_new_unix`: NULL for an absent path. */
    static method NewUnix(socketPath: Option<string>) returns (c: Client?)
      ensures socketPath.None? <==> c == null
      ensures c != null ==> fresh(c) && c.Valid() && c.socketFd == -1 && !c.connected
      ensures c != null ==> c.config == Config(ConnUnix, socketPath.value, "", 0, "",
                                               DefaultTimeoutMs, DefaultRetryCount, DefaultRetryDelayMs)
      ensures c != null ==> c.Sent == [] && c.Opened == [] && c.Timeouts == []
    {
      if socketPath.None? {
        return null;
      }
      c := new Client.Init(Config(ConnUnix, socketPath.value, "", 0, "",
                                  DefaultTimeoutMs, DefaultRetryCount, DefaultRetryDelayMs));
    }

    /**
     * `logflux_client_new_tcp`: NULL for an absent host or port 0. The secret
     * buffer starts zeroed and `logflux_load_shared_secret` fills it with the
     * line read from the secret file, without its newline. `secretLine` is that
     * line, or None when the file could not be opened or read; the secret then
     * stays "".
     */
    static method NewTcp(host: Option<string>, port: u16, secretLine: Option<string>) returns (c: Client?)
      ensures host.None? || port == 0 <==> c == null
      ensures c != null ==> fresh(c) && c.Valid() && c.socketFd == -1 && !c.connected
      ensures c != null ==>
        var secret := if secretLine.Some? then StripTrailingNewline(secretLine.value) else "";
        c.config == Config(ConnTcp, "", host.value, port, secret,
                           DefaultTimeoutMs, DefaultRetryCount, DefaultRetryDelayMs)
      ensures c != null ==> c.Sent == [] && c.Opened == [] && c.Timeouts == []
    {
      if host.None? || port == 0 {
        return null;
      }
      var secret := "";
      if secretLine.Some? {
        secret := StripTrailingNewline(secretLine.value);
      }
      c := new Client.Init(Config(ConnTcp, "", host.value, port, secret,
                                  DefaultTimeoutMs, DefaultRetryCount, DefaultRetryDelayMs));
    }

    /** `logflux_client_new_config`: NULL for an absent configuration, else a copy of it. */
    static method NewConfig(config: Option<Config>) returns (c: Client?)
      ensures config.None? <==> c == null
      ensures c != null ==> fresh(c) && c.Valid() && c.socketFd == -1 && !c.connected
      ensures c != null ==> c.config == config.value
      ensures c != null ==> c.Sent == [] && c.Opened == [] && c.Timeouts == []
    {
      if config.None? {
        return null;
      }
      c := new Client.Init(config.value);
    }

    /** `logflux_client_is_connected`. */
    function IsConnected(): (r: bool)
      reads this
      requires Valid()
      ensures r == connected
      ensures r ==> socketFd >= 0
    {
      connected && socketFd >= 0
    }

    /** `close(socket_fd); socket_fd = -1;` on the failure paths of a connect attempt. */
    method ReleaseSocket()
      requires socketFd >= 0
      modifies this`socketFd, this`Released
      ensures socketFd == -1 && Released == old(Released) + [old(socketFd) as nat]
    {
      Released := Released + [socketFd as nat];
      socketFd := -1;
    }

    /**
     * `socket`, then `set_socket_timeout`, then the check of the path against
     * `sun_path`, then `connect`: on any failure after the socket exists, the
     * socket is closed and `socket_fd` is reset to -1.
     */
    method ConnectUnixSocket(calls: SocketCalls) returns (err: Error)
      requires Valid() && !connected && config.connectionType == ConnUnix
      modifies this`socketFd, this`Opened, this`Released, this`Timeouts
      ensures err == ConnectOutcome(config, calls)
      ensures socketFd == if err == Ok then calls.socketFd.value else -1
      ensures Opened == old(Opened) + (if calls.socketFd.Some? then [calls.socketFd.value] else [])
      ensures Released == if err == Ok then old(Released) else Opened
      ensures Timeouts == old(Timeouts) + (if calls.socketFd.Some? then [SocketTimeout(config.timeoutMs)] else [])
    {
      if calls.socketFd.None? {
        socketFd := -1;
        return Connection;
      }
      socketFd := calls.socketFd.value;
      Opened := Opened + [calls.socketFd.value];
      Timeouts := Timeouts + [SocketTimeout(config.timeoutMs)];
      if !calls.timeoutSet {
        ReleaseSocket();
        return Timeout;
      }
      if |config.socketPath| >= SunPathSize {
        ReleaseSocket();
        return InvalidParam;
      }
      if !calls.connectAccepted {
        ReleaseSocket();
        return Connection;
      }
      return Ok;
    }

    /**
     * `socket`, then `set_socket_timeout`, then `inet_pton` on the host (a
     * numeric IPv4 address; no name lookup), then `connect`.
     */
    method ConnectTcpSocket(calls: SocketCalls) returns (err: Error)
      requires Valid() && !connected && config.connectionType != ConnUnix
      modifies this`socketFd, this`Opened, this`Released, this`Timeouts
      ensures err == ConnectOutcome(config, calls)
      ensures socketFd == if err == Ok then calls.socketFd.value else -1
      ensures Opened == old(Opened) + (if calls.socketFd.Some? then [calls.socketFd.value] else [])
      ensures Released == if err == Ok then old(Released) else Opened
      ensures Timeouts == old(Timeouts) + (if calls.socketFd.Some? then [SocketTimeout(config.timeoutMs)] else [])
    {
      if calls.socketFd.None? {
        socketFd := -1;
        return Connection;
      }
      socketFd := calls.socketFd.value;
      Opened := Opened + [calls.socketFd.value];
      Timeouts := Timeouts + [SocketTimeout(config.timeoutMs)];
      if !calls.timeoutSet {
        ReleaseSocket();
        return Timeout;
      }
      if !calls.addressParsed {
        ReleaseSocket();
        return Connection;
      }
      if !calls.connectAccepted {
        ReleaseSocket();
        return Connection;
      }
      return Ok;
    }

    /**
     * `logflux_client_connect`: nothing happens on a connected client; else
     * one attempt over the configured transport, and the client is connected
     * exactly when it succeeded. No retry is made.
     */
    method Connect(calls: SocketCalls) returns (err: Error)
      requires Valid()
      modifies this
      ensures Valid() && Sent == old(Sent)
      ensures old(connected) ==> err == Ok && connected && socketFd == old(socketFd)
      ensures old(connected) ==> Opened == old(Opened) && Released == old(Released) && Timeouts == old(Timeouts)
      ensures !old(connected) ==> err == ConnectOutcome(config, calls) && connected == (err == Ok)
      ensures !old(connected) && err == Ok ==> socketFd == calls.socketFd.value
      ensures !old(connected) && err != Ok ==> socketFd == -1
      ensures !old(connected) ==>
        && Opened == old(Opened) + (if calls.socketFd.Some? then [calls.socketFd.value] else [])
        && Released == (if err == Ok then old(Released) else Opened)
        && Timeouts == old(Timeouts) + (if calls.socketFd.Some? then [SocketTimeout(config.timeoutMs)] else [])
    {
      if connected {
        return Ok;
      }
      if config.connectionType == ConnUnix {
        err := ConnectUnixSocket(calls);
      } else {
        err := ConnectTcpSocket(calls);
      }
      if err == Ok {
        connected := true;
      }
    }

    /** `logflux_client_close`: always succeeds; closes the descriptor if there is one. */
    method Close() returns (err: Error)
      requires Valid()
      modifies this
      ensures Valid() && err == Ok
      ensures socketFd == -1 && !connected
      ensures Released == old(Released) + (if old(connected) then [old(socketFd) as nat] else [])
      ensures Opened == old(Opened) && Released == Opened
      ensures Sent == old(Sent) && Timeouts == old(Timeouts)
    {
      if socketFd >= 0 {
        ReleaseSocket();
      }
      connected := false;
      return Ok;
    }

    /**
     * `send_json_data`: one `send` of the payload followed by one newline;
     * only a send that takes the whole line succeeds. `sent` is what `send`
     * returned.
     */
    method SendJsonData(json: string, sent: int) returns (err: Error)
      requires Valid() && connected
      modifies this`Sent
      ensures Sent == old(Sent) + [Frame(json)]
      ensures err == (if sent == |json| + 1 then Ok else Connection)
    {
      var totalLen := |json| + 1;
      var data := json + "\n";
      Sent := Sent + [data];
      if sent < 0 || sent != totalLen {
        return Connection;
      }
      return Ok;
    }

    /**
     * `logflux_client_send_entry`: refused unless connected; otherwise the
     * entry is encoded, with the secret for TCP and without it otherwise, and
     * sent as one line.
     */
    method SendEntry(entry: LogEntry, sent: int) returns (err: Error)
      requires Valid() && entry.Valid()
      modifies this`Sent
      ensures !connected ==> err == NotConnected && Sent == old(Sent)
      ensures connected ==>
        var line := Frame(Encode(old(entry.View()), SecretFor(config)));
        Sent == old(Sent) + [line] && err == (if sent == |line| then Ok else Connection)
    {
      if !connected {
        return NotConnected;
      }
      var json := EntryToJson(entry, SecretFor(config));
      err := SendJsonData(json, sent);
    }

    /**
     * `logflux_client_send_batch`: refused for an empty batch, then unless
     * connected; otherwise the entries are sent one by one in order and the
     * first failure ends the batch. `sent(i)` is what `send` returns for the
     * i-th entry.
     */
    method SendBatch(entries: seq<LogEntry>, sent: nat -> int) returns (err: Error)
      requires Valid()
      requires forall i :: 0 <= i < |entries| ==> entries[i].Valid()
      modifies this`Sent
      ensures |entries| == 0 ==> err == InvalidParam && Sent == old(Sent)
      ensures |entries| > 0 && !connected ==> err == NotConnected && Sent == old(Sent)
      ensures |entries| > 0 && connected ==>
        var lines := Lines(old(Views(entries)), SecretFor(config));
        var k := Accepted(lines, sent, 0);
        && Sent == old(Sent) + lines[..if k < |lines| then k + 1 else k]
        && err == (if k == |lines| then Ok else Connection)
    {
      if |entries| == 0 {
        err := InvalidParam;
      } else if !connected {
        err := NotConnected;
      } else {
        LinesCarry(entries, SecretFor(config));
        err := SendInOrder(entries, Lines(Views(entries), SecretFor(config)), sent);
      }
    }

    /** The loop of `logflux_client_send_batch`, over the lines the entries encode to. */
    method SendInOrder(entries: seq<LogEntry>, ghost lines: seq<string>, sent: nat -> int) returns (err: Error)
      requires Valid() && connected
      requires forall i :: 0 <= i < |entries| ==> entries[i].Valid()
      requires AllCarry(lines, entries, SecretFor(config))
      modifies this`Sent
      ensures
        var k := Accepted(lines, sent, 0);
        && Sent == old(Sent) + lines[..if k < |lines| then k + 1 else k]
        && err == (if k == |lines| then Ok else Connection)
    {
      var i := 0;
      while i < |entries|
        invariant 0 <= i <= |entries|
        invariant Sent == old(Sent) + lines[..i]
        invariant Accepted(lines, sent, 0) == Accepted(lines, sent, i)
      {
        assert Carries(lines[i], entries[i], SecretFor(config));
        ghost var before := Sent;
        var result := SendEntry(entries[i], sent(i));
        SentStep(old(Sent), lines, i, before, Sent);
        if result != Ok {
          return result;
        }
        i := i + 1;
      }
      assert lines[..i] == lines;
      return Ok;
    }

    /**
     * `logflux_client_send_log`: refused for an absent message; otherwise a
     * fresh entry with the default fields is sent and dropped. The identifier
     * and the creation time are inputs.
     */
    method SendLog(message: Option<string>, id: string, now: int, sent: int) returns (err: Error)
      requires Valid()
      modifies this`Sent
      ensures message.None? ==> err == InvalidParam && Sent == old(Sent)
      ensures message.Some? && !connected ==> err == NotConnected && Sent == old(Sent)
      ensures message.Some? && connected ==>
        var line := Frame(Encode(EntryView(id, message.value, DefaultSource, TypeLog, LevelInfo, now, []),
                                 SecretFor(config)));
        Sent == old(Sent) + [line] && err == (if sent == |line| then Ok else Connection)
    {
      if message.None? {
        return InvalidParam;
      }
      var entry := LogEntry.New(message, id, now);
      err := SendEntry(entry, sent);
    }
  }
}
