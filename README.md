# LogFlux C SDK — a Dafny model of the client core

This project models the core of the LogFlux C SDK (`logflux_client.c`). An
application uses the SDK to hand log entries to a local LogFlux agent over a
Unix socket or TCP. The model covers:

- **Log entries** (`LogEntries.LogEntry`). This is a class with the C
  structure's fields. Labels are kept in two parallel arrays of keys and values
  with a count and a capacity. Capacity starts at 0, becomes 4 on the first
  label and doubles after that. The class has the creation defaults (source
  `c-sdk`, level INFO, type LOG) and the four setters with their range checks.
  `AddLabel` grows the arrays, copies the old contents, stores the pair and
  appends it to the entry's labels in insertion order.
- **The wire encoder** (`Wire`). `Encode` is the pure specification of the
  text `entry_to_json` produces. The six fixed members come in the C order,
  then the optional `shared_secret` member, then the optional `labels` object.
  Strings are inserted without escaping. `Frame` is the newline framing that
  `send_json_data` adds. `LogEntries.EntryToJson` is the imperative builder with
  the label loop, proved equal to `Encode`.
- **A reader for the wire format** (`WireDecode`). It is the partner of the
  encoder. Reading back the payload of an entry whose strings contain no double
  quote gives back the entry and the secret (the secret only when it was
  written). Because nothing is escaped, entries that do contain quotes can
  collide (`Wire.UnescapedCollision`). This reader is the encoder's own inverse,
  not a JSON parser: it takes a backslash or a control character literally,
  so a quote-free message such as `C:\dir` reads back here although it is not
  valid JSON on the wire.
- **One object per line.** A payload whose fields, labels and secret hold no
  newline holds none itself, so its framing newline is the only one on the line
  (`Wire.EncodeSingleLine`). A newline in the message is copied through and
  splits the line (`Wire.NewlineSplitsLine`).
- **The client** (`LogfluxClient.Client`). It has the three constructors and a
  connection state machine (connect, is_connected, close). It also has the
  send operations: send_entry, send_batch (entries go one by one and the first
  failure stops the batch) and send_log. The operating system's answers to
  `socket`, `setsockopt`, `inet_pton`, `connect` and `send` are parameters.
  Ghost logs record:
  - every line handed to `send`;
  - every descriptor obtained;
  - every descriptor closed;
  - every timeout asked of `setsockopt`.

  `Valid()` states that every descriptor obtained has been closed except the
  one in use.
- **The error codes and `logflux_error_string`** (`Types`).
- **The timeout arithmetic of `set_socket_timeout`** (`LogfluxClient.SocketTimeout`).
- **The trailing-newline strip of `logflux_load_shared_secret`** (`SharedSecret`).

C strings are `string`. A NULL string argument is `None` of an `Option`. The
`uint16_t`/`uint32_t` configuration fields are the newtypes `u16`/`u32`.
`time_t` and the enum fields are unbounded `int`. The connection type stays an
`int`, as in C: `connect` treats every value other than UNIX as TCP, while
`send_entry` attaches the secret only when the value is exactly TCP.

One Dafny `char` stands for one C byte: text outside ASCII is held as its UTF-8
bytes, so `|s|` is what `strlen` returns. This matters for the `sun_path`
length test and for the byte count compared with what `send` returns. Strings
hold no NUL character, as C strings cannot.

## Model

| member | source | states |
|---|---|---|
| Types.FromCode | logflux_client.h:51-59 | an error kind exists exactly for the codes -6..0, and its numeric value is that code |
| Types.CodeRoundTrip | logflux_client.h:51-59 | the numeric codes of the error enum identify the error kinds: code then lookup gives the kind back |
| Types.ErrorString | logflux_client.c:230-241 | total over every integer; the text is "Unknown error" exactly for values outside the seven codes, and never empty |
| Types.ErrorStringsDistinct | logflux_client.c:230-241 | two different error kinds are described by two different texts |
| SharedSecret.StripTrailingNewline | logflux_client.c:403-407 | the result is the line without its one final newline, or the line itself when it does not end in a newline |
| SharedSecret.StripNewlineRoundTrip | logflux_client.c:403-407 | stripping undoes one appended newline and only one |
| Wire.Frame | logflux_client.c:512-521 | the line sent is the payload followed by exactly one newline |
| Wire.PairListSnoc | logflux_client.c:565-571 | appending a label appends one `"key":"value"` pair, preceded by a comma unless it is the first |
| Wire.EncodeShape | logflux_client.c:541-575 | the payload opens with the fixed header starting `{"id":"`, ends with `}`, and is header plus `}` when there is no secret and no label |
| Wire.EncodeSingleLine | logflux_client.c:541-575 | with no newline in id, message, source, secret or any label, the payload holds no newline and the framed line has its one newline at the end |
| Wire.NewlineSplitsLine | logflux_client.c:541-555 | a newline at position k of the message appears in the framed line before its final character, at offset 20 + length of the id + k |
| Wire.UnescapedCollision | logflux_client.c:541-555 | without escaping, two entries with different messages and sources encode to the same payload |
| WireDecode.ReadIntRoundTrip | logflux_client.c:546-554 | the `%d`/`%ld` rendering of any integer, negative ones included, is read back to that integer |
| WireDecode.ReadPairsRoundTrip | logflux_client.c:563-573 | a non-empty quote-free label list is read back from its pairs in order, duplicates included |
| WireDecode.SecretMemberRoundTrip | logflux_client.c:557-560 | the secret member is read back exactly when a non-empty secret was given |
| WireDecode.DecodeEncode | logflux_client.c:533-578 | reading back the payload of a quote-free entry gives its fields, its labels in insertion order and the secret exactly when it was written |
| LogEntries.Zip | logflux_client.c:43-48 | the labels of an entry are the key/value slots paired position by position |
| LogEntries.ZipSnoc | logflux_client.c:345-347 | storing a key and a value in the next slots appends exactly that label |
| LogEntries.GrownCapacity | logflux_client.c:320 | the new capacity is always larger than the old one |
| LogEntries.Realloc | logflux_client.c:322-323 | the new array has the new length and keeps the old contents at the front |
| LogEntries.LogEntry.Init | logflux_client.c:250-260 | a fresh entry holds the message, the given id and time, source `c-sdk`, type LOG, level INFO and no labels |
| LogEntries.LogEntry.New | logflux_client.c:245-268 | NULL exactly for an absent message, else an entry with the creation defaults |
| LogEntries.LogEntry.SetLevel | logflux_client.c:270-277 | accepted exactly for levels 0..7; the level changes only when accepted |
| LogEntries.LogEntry.SetType | logflux_client.c:279-286 | accepted exactly for types 1..5; the type changes only when accepted |
| LogEntries.LogEntry.SetSource | logflux_client.c:288-302 | refused for an absent source; otherwise the source is replaced |
| LogEntries.LogEntry.SetTimestamp | logflux_client.c:304-311 | always succeeds and sets the timestamp |
| LogEntries.LogEntry.Grow | logflux_client.c:319-334 | the capacity grows to 4 or doubles, the arrays are fresh, and the labels are unchanged |
| LogEntries.LogEntry.Store | logflux_client.c:336-347 | with room left, the label is appended at the end and the count goes up by one |
| LogEntries.LogEntry.AddLabel | logflux_client.c:313-350 | refused for an absent key or value with the entry unchanged; otherwise the label is appended in insertion order, and the capacity grows exactly when the arrays were full |
| LogEntries.LabelPairs | logflux_client.c:565-571 | the loop builds exactly the comma-separated pair list of the entry's labels |
| LogEntries.EntryToJson | logflux_client.c:533-578 | the text built is exactly the encoding of the entry's fields, the secret and the labels |
| LogfluxClient.SocketTimeout | logflux_client.c:593-597 | seconds and microseconds, the latter below one million, that together make exactly the configured milliseconds |
| LogfluxClient.ConnectOutcome | logflux_client.c:446-510 | a connect attempt succeeds exactly when every call succeeds and a Unix path fits `sun_path`; a timeout failure gives Timeout, an over-long path gives InvalidParam, anything else gives Connection |
| LogfluxClient.SecretFor | logflux_client.c:174-175 | the secret is passed exactly for a TCP client, and is the configured one |
| LogfluxClient.LinesAt | logflux_client.c:199-204 | line i of a batch is the framed encoding of entry i |
| LogfluxClient.Accepted | logflux_client.c:199-204 | the lines before the returned position were sent whole, and the line at it (if any) was not |
| LogfluxClient.LinesCarry | logflux_client.c:199-204 | every line of a batch carries the entry at its position |
| LogfluxClient.Client.Init | logflux_client.c:66-76 | a new client holds the configuration, no descriptor and is not connected |
| LogfluxClient.Client.NewUnix | logflux_client.c:61-79 | NULL for an absent path; otherwise a disconnected Unix client with the path and the default timeout and retry settings |
| LogfluxClient.Client.NewTcp | logflux_client.c:81-103 | NULL for an absent host or port 0; otherwise a disconnected TCP client with host, port and the defaults, whose secret is the line read from the secret file without its trailing newline, or empty when none could be read |
| LogfluxClient.Client.NewConfig | logflux_client.c:105-119 | NULL for an absent configuration; otherwise a disconnected client with a copy of it |
| LogfluxClient.Client.IsConnected | logflux_client.c:145-147 | true exactly when connected, and then the descriptor is valid |
| LogfluxClient.Client.ReleaseSocket | logflux_client.c:452-455 | the descriptor is closed and reset to -1 |
| LogfluxClient.Client.ConnectUnixSocket | logflux_client.c:446-478 | the result is the connect outcome; once a socket exists, the timeout of `set_socket_timeout` for the configured milliseconds is requested on it; on failure any socket obtained is closed and the descriptor is -1 |
| LogfluxClient.Client.ConnectTcpSocket | logflux_client.c:480-510 | the result is the connect outcome; once a socket exists, the timeout of `set_socket_timeout` for the configured milliseconds is requested on it; on failure any socket obtained is closed and the descriptor is -1 |
| LogfluxClient.Client.Connect | logflux_client.c:121-143 | a connected client stays as it is and reports Ok; otherwise one attempt is made, the client is connected exactly when it succeeded, the socket obtained (if any) is logged as opened with the configured timeout logged as requested for it, and on failure the socket is logged as closed |
| LogfluxClient.Client.Close | logflux_client.c:209-221 | always Ok; afterwards the client is disconnected and every descriptor it obtained has been closed |
| LogfluxClient.Client.SendJsonData | logflux_client.c:512-531 | the payload and a newline go to `send` once; success only when the whole line was taken |
| LogfluxClient.Client.SendEntry | logflux_client.c:165-186 | NotConnected without sending when disconnected; otherwise the entry's framed encoding is sent, with the secret only over TCP |
| LogfluxClient.Client.SendBatch | logflux_client.c:188-207 | InvalidParam for an empty batch, NotConnected when disconnected; otherwise the entries' lines are sent in order up to and including the first one not taken whole, and the result is Ok exactly when all were taken |
| LogfluxClient.Client.SendInOrder | logflux_client.c:199-206 | the loop sends the lines in order and stops after the first one not taken whole |
| LogfluxClient.Client.SendLog | logflux_client.c:149-163 | InvalidParam for an absent message; otherwise a default entry for the message is sent as by send_entry |

## Left out

- Operating system calls (`socket`, `setsockopt`, `inet_pton`, `connect`, `send`, `close`) are not modelled. Their answers are parameters and their effects are ghost logs.
- `generate_uuid` and `time(NULL)` are not modelled. The identifier and the creation time are inputs to entry creation.
- `logflux_load_shared_secret` is modelled only by its newline strip. Reading the environment, building the path and `fgets` are file I/O; `NewTcp` takes the line read as an input (None when the file cannot be opened or read).
- The limit of `fgets` into the 128-byte secret buffer is not modelled: it keeps at most 127 characters of the line, and here the line is unbounded.
- `logflux_is_agent_running` is left out: it reads a PID file and calls `kill`, both I/O.
- Allocation failures (`calloc`, `malloc`, `strdup`, `realloc` returning NULL) and their `LOGFLUX_ERROR_MEMORY` paths are left out. Dafny allocation does not fail.
- NULL `client` and `entry` handles and a NULL `entries` pointer are not modelled. Dafny references are never null. NULL strings and a NULL configuration are modelled as `None`.
- `logflux_entry_free` and `logflux_client_free` are not modelled. Dafny has no deallocation. The observable step of `logflux_client_free` is `Close`.
- The fixed 4096-byte buffer of `entry_to_json` is not modelled. A longer payload is truncated and then overruns the buffer there; here the encoding is unbounded.
- `strncpy` truncation of the socket path and host into their fixed-size arrays is not modelled. The configuration strings are unbounded. `sun_path` is taken as 108 bytes (Linux).
- `retry_count` and `retry_delay_ms` are stored but never used by the core, and no retry is modelled.
- `size_t` overflow of the capacity doubling and the widths of `time_t` and the enums are not modelled. They are unbounded integers.
- LogfluxClient.Client.SendBatch: the lines are stated in terms of the entries' fields at the call. The entries are not changed by sending, but the contract does not restate that.
- One JSON object per line holds only for entries whose fields, labels and secret contain no newline: nothing is escaped, so a newline in any of them splits the entry across lines (`Wire.NewlineSplitsLine`).
- WireDecode.DecodeEncode: the round trip is stated only for strings without a double quote. The encoder escapes nothing, so no reader can invert it in general (see `Wire.UnescapedCollision`).
