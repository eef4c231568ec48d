# Chat relay core, modelled in Dafny

This project models the TCP chat relay in `cmd/main.go`. The server admits at
most `maxClients` (2) connections at a time and turns the others away with
"The Chat is Maximum". It greets each admitted connection with a welcome
message and takes the connection's display name from its first read: every
byte of that read except the last. It announces `<name> joined the Chat \n`
and relays every later chunk as `[<name>]<chunk>` to every connection that
has a name. When a later read fails it announces `<name> left the Chat`
and gives the slot back. When the first read fails, or yields an empty name,
it announces nothing and gives the slot back.

The model has four modules:

- `ChatWire` (`wire.dfy`) holds the bytes on the wire: the fixed texts, how
  a name is derived, the join and leave notices, and the tag put in front
  of a chunk. `Untag` is a reference reader of tagged messages. It is used
  to state what the tag format lets a recipient recover.
- `ChatState` (`state.dfy`) treats the server's shared state as a value:
  - the admission counter `length`;
  - the registry `clients`;
  - for the proofs, each connection's session phase and its `outbox`, the
    list of everything written to it.

  Each atomic step of `acceptLoop`, `readLoop` and `broadcast` is a
  function on this state. Lemmas state each step's effect and prove that it
  keeps the invariant `Inv`. `Inv` says the counter never exceeds the
  capacity, the counter equals the number of registered connections, and a
  connection is registered exactly while its session is open. `Step` and
  `Run` interleave the steps, one event at a time.
- `ChatServer` (`server.dfy`) is the `Server` object, whose fields the
  methods update in place. `Broadcast` is a loop over the registry. Each
  method is proved to change the fields exactly as the matching `ChatState`
  step does.
- `ChatScenario` (`scenario.dfy`) works through one conversation end to
  end: a and b join, a third connection is refused, a speaks, b drops, and
  c takes the freed slot.

Where the code and its description differ, the model follows the code:

- Join notices, leave notices and relayed chunks also go back to their
  sender, because `broadcast` writes to every named client.
- The name drops the last byte of the first read, whatever that byte is.
  A client that ends its name with "\r\n" keeps the "\r".
- A zero-byte successful read is still tagged and broadcast as `[<name>]`.
- The leave notice has no trailing newline. The join notice does.
- The welcome is written inside `readLoop`. The model writes it as part of
  admission, since nothing can reach the connection in between.

## Model

| member | source | states |
|---|---|---|
| ChatWire.DeriveName | cmd/main.go:104 | the name is the first read minus exactly its last byte, whatever that byte is; length is one less |
| ChatWire.DeriveNameOfLine | cmd/main.go:104 | a name sent with any one terminator byte is recovered exactly |
| ChatWire.JoinIsNeverLeave | cmd/main.go:115 | both notices start with the name; the join notice ends in a newline, the leave notice (line 123) does not, so the two are never equal |
| ChatWire.TagLayout | cmd/main.go:128 | a relayed chunk is '[' name ']' followed by the chunk unchanged, |name| + 2 + |chunk| bytes long |
| ChatWire.TagRoundTrip | cmd/main.go:128 | for a name without ']', reading a tagged message back gives the sender's name and the exact chunk |
| ChatWire.TagAmbiguousForBracketNames | cmd/main.go:128 | names are not checked, so two different (name, chunk) pairs can produce the same bytes on the wire |
| ChatState.InitSatisfiesInv | cmd/main.go:28-36 | a new server (capacity 2, counter 0, empty registry) satisfies the invariant |
| ChatState.DeliverExactlyOnce | cmd/main.go:132-141 | a broadcast appends the message exactly once to each registered connection with a non-empty name, appends nothing to any other connection, and keeps everything already written |
| ChatState.BroadcastKeepsInv | cmd/main.go:132-141 | a broadcast preserves the invariant |
| ChatState.AcceptAdmits | cmd/main.go:63-79 | below capacity the counter goes up by one, the connection is registered with an empty name and is sent only the welcome, and other connections are untouched |
| ChatState.AcceptRejects | cmd/main.go:63-69 | at capacity the connection is sent only "The Chat is Maximum" and closed; the counter and registry are unchanged |
| ChatState.CleanupReleases | cmd/main.go:85-93 | the deferred cleanup decrements the counter, removes exactly that registry entry, and closes the session |
| ChatState.NameReadFails | cmd/main.go:97-102 | a failed first read writes nothing, broadcasts nothing, and releases the slot and the registry entry; every other registered connection keeps its name |
| ChatState.NameEmptyRefused | cmd/main.go:104-108 | an empty name gets "No name provided" on that connection only; nothing is broadcast, the slot and the registry entry are released, and every other registered connection keeps its name |
| ChatState.NameJoins | cmd/main.go:104-115 | a non-empty name is registered and its join notice goes to every named client, the newcomer included |
| ChatState.SendRelaysTagged | cmd/main.go:117-129 | a successful read is tagged with the sender's name and goes to every named client, the sender included; the registry is unchanged |
| ChatState.LeaveAnnouncesThenReleases | cmd/main.go:120-124 | a failed read in the message loop broadcasts the leave notice while the leaver is still registered (so the leaver receives it too), then releases the slot |
| ChatState.FailedNamingFreesSlot | cmd/main.go:85-108 | on a full server, a session whose naming fails frees its slot, and the next connection is admitted |
| ChatState.FillToCapacity | cmd/main.go:63-76 | as many fresh connections as there are free slots are all admitted and sent the welcome; the next one is rejected and left unregistered |
| ChatState.AcceptAllKeeps | cmd/main.go:63-76 | admitting further connections writes nothing to an already admitted one |
| ChatState.Step | cmd/main.go:55-131 | every event the server can handle keeps the invariant; no connection is forgotten, a closed session stays closed and is never written to again (only registered connections are broadcast to, lines 136-139), and nothing written is taken back |
| ChatState.StepConnect | cmd/main.go:55-79 | a connect with a fresh handle is handled by the admission step |
| ChatState.StepName | cmd/main.go:95-115 | a fitting read on a session waiting for its name is handled by the naming step |
| ChatState.StepChunk | cmd/main.go:117-129 | a successful fitting read on a named session is handled by the relay step |
| ChatState.StepFailure | cmd/main.go:120-124 | a failed read on a named session is handled by the leave step |
| ChatState.StepRefuses | cmd/main.go:55-131 | an event is turned away exactly when it cannot happen: a reused handle, a read on an unknown or closed connection, or a read larger than its phase's buffer (or an empty first read) |
| ChatState.Run | cmd/main.go:55-131 | any run of events keeps the invariant and only extends what was written to each connection; a connection that was turned away or whose session ended receives nothing more |
| ChatServer.Server.constructor | cmd/main.go:28-36 | the new server has capacity 2, counter 0 and an empty registry |
| ChatServer.Server.Broadcast | cmd/main.go:132-141 | the registry loop leaves the outboxes exactly as one broadcast delivers them |
| ChatServer.Server.Cleanup | cmd/main.go:85-93 | the fields change exactly as the cleanup step says |
| ChatServer.Server.Accept | cmd/main.go:63-79 | reports admission exactly when the counter was below capacity; the fields change as the admission step says and stay valid |
| ChatServer.Server.Name | cmd/main.go:95-115 | the fields change as the naming step says and stay valid |
| ChatServer.Server.Join | cmd/main.go:111-115 | registers the name, marks the session active, then broadcasts the join notice |
| ChatServer.Server.Send | cmd/main.go:117-129 | the fields change as the relay step says and stay valid |
| ChatServer.Server.Disconnect | cmd/main.go:120-124 | the fields change as the leave step says and stay valid |
| ChatServer.Server.Handle | cmd/main.go:55-131 | an event that can happen is handled exactly as Step says; any other event changes nothing |
| ChatServer.Server.Serve | cmd/main.go:55-131 | the server after a sequence of events is exactly the state Run computes |
| ChatScenario.ConversationOutcome | cmd/main.go:55-141 | in the a/b/third/c conversation, each named client receives every notice and message (its own included), the third connection receives only the rejection, and c is admitted into b's freed slot |

## Left out

- Sockets, `net.Listen` and `Start`/`main` are not modelled. Connections
  are numbered handles, reads are given as events, and writes are appends
  to an outbox.
- Concurrency is not modelled. Each step is atomic, as if it held both
  `mu` and `clientMu`. The interleavings inside a step are not modelled,
  for example between `length++` and the registry insert.
- `quitch`, `msgch`, `Message` and the commented-out consumer are not
  modelled, because nothing in the running code uses them.
- `chat.WelcomeMessage` is not part of this model. Its bytes are a
  parameter of the server.
- Logging with `fmt.Println` and `log.Fatal` is left out.
- `conn.Close` appears only as the session phase `Closed`.
- Accept errors are not modelled. The loop only logs them and continues.
- ChatState.NameStep: the code panics on a zero-byte first read
  (`nameBuf[:n-1]` with n = 0). The model requires at least one byte instead
  of modelling the panic, and Step treats such a read as an event that
  cannot happen.
- ChatState.Step: reads longer than the 256- and 2048-byte buffers cannot
  happen, so they are excluded in the same way. The transport delivers the
  rest in later reads.
- Converting bytes to a Go string and back is the identity here. No
  UTF-8 validation is modelled.
- ChatServer.Server.Broadcast: Go visits the map in random order. The
  model's loop picks any pending connection, so its contract holds for
  every order.
