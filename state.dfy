/** The relay's shared state as a value, and each atomic step of the server
    (admission, naming, a chunk, a failed read) as a function on it.  Every
    write to a connection is an append to that connection's outbox. */
module ChatState {
  import opened ChatWire

  /** A connection handle; the transport never hands out the same one twice. */
  type ConnId = nat

  /** Where a connection's session is: admitted and waiting for its name,
      named and relaying, or finished (also for connections turned away). */
  datatype Phase = Connected | Active(name: Bytes) | Closed

  /** What one read on a connection produced: some bytes, or an error. */
  datatype ReadResult = Data(bytes: Bytes) | Failed

  /** length and maxClients form the admission gate, clients the registry
      (an empty name means "not named yet"); sessions and outbox record every
      connection the server has ever seen and what was written to it. */
  datatype State = State(
    welcome: Bytes,
    maxClients: int,
    length: int,
    clients: map<ConnId, Bytes>,
    sessions: map<ConnId, Phase>,
    outbox: map<ConnId, seq<Bytes>>)

  const DefaultMaxClients := 2

  function Init(welcome: Bytes): State
  {
    State(welcome, DefaultMaxClients, 0, map[], map[], map[])
  }

  /** The phase a registered connection is in, judged from its registry name. */
  function PhaseOf(name: Bytes): Phase
  {
    if name == [] then Connected else Active(name)
  }

  /** The gate never lets more than maxClients in, the counter is exactly the
      number of registered connections, and a connection is registered exactly
      while its session is not closed, under the name its phase carries. */
  ghost predicate Inv(s: State)
  {
    && 0 <= s.length <= s.maxClients
    && s.length == |s.clients|
    && s.sessions.Keys == s.outbox.Keys
    && (forall c :: c in s.clients ==> c in s.sessions && s.sessions[c] == PhaseOf(s.clients[c]))
    && (forall c :: c in s.sessions && s.sessions[c] != Closed ==> c in s.clients)
  }

  /** The shape the step functions need: every registered connection has a
      session and an outbox. */
  ghost predicate WellFormed(s: State)
  {
    s.clients.Keys <= s.sessions.Keys && s.sessions.Keys == s.outbox.Keys
  }

  lemma InitSatisfiesInv(welcome: Bytes)
    ensures Inv(Init(welcome))
  {
  }

  // ---------------------------------------------------------------------
  // Broadcast

  /** The connections a broadcast writes to: every registered connection with
      a non-empty name, the sender's own included. */
  function Recipients(clients: map<ConnId, Bytes>): set<ConnId>
  {
    set c | c in clients && clients[c] != []
  }

  /** The outboxes after one broadcast of msg. */
  function Deliver(outbox: map<ConnId, seq<Bytes>>, clients: map<ConnId, Bytes>, msg: Bytes): map<ConnId, seq<Bytes>>
    requires clients.Keys <= outbox.Keys
  {
    map c | c in outbox :: if c in clients && clients[c] != [] then outbox[c] + [msg] else outbox[c]
  }

  /** A broadcast keeps what was already written, adds msg exactly once for a
      named registered connection and nothing for any other connection. */
  lemma DeliverExactlyOnce(outbox: map<ConnId, seq<Bytes>>, clients: map<ConnId, Bytes>, msg: Bytes, c: ConnId)
    requires clients.Keys <= outbox.Keys
    requires c in outbox
    ensures c in Deliver(outbox, clients, msg)
    ensures Deliver(outbox, clients, msg)[c][..|outbox[c]|] == outbox[c]
    ensures |Deliver(outbox, clients, msg)[c]| == |outbox[c]| + (if c in clients && clients[c] != [] then 1 else 0)
    ensures c in clients && clients[c] != [] ==> Deliver(outbox, clients, msg)[c][|outbox[c]|] == msg
  {
  }

  function BroadcastStep(s: State, msg: Bytes): State
    requires s.clients.Keys <= s.outbox.Keys
  {
    s.(outbox := Deliver(s.outbox, s.clients, msg))
  }

  lemma BroadcastKeepsInv(s: State, msg: Bytes)
    requires Inv(s)
    ensures Inv(BroadcastStep(s, msg))
  {
  }

  // ---------------------------------------------------------------------
  // Admission

  /** acceptLoop for one accepted connection c: turned away with the rejection
      text when the gate is full, otherwise counted, registered without a name
      and sent the welcome. */
  function AcceptStep(s: State, c: ConnId): State
    requires c !in s.sessions
  {
    if s.length >= s.maxClients then
      s.(sessions := s.sessions[c := Closed], outbox := s.outbox[c := [Rejection]])
    else
      s.(length := s.length + 1,
         clients := s.clients[c := []],
         sessions := s.sessions[c := Connected],
         outbox := s.outbox[c := [s.welcome]])
  }

  lemma AcceptAdmits(s: State, c: ConnId)
    requires Inv(s) && c !in s.sessions
    requires s.length < s.maxClients
    ensures var t := AcceptStep(s, c);
      && t.length == s.length + 1
      && c !in s.clients && t.clients == s.clients[c := []]
      && t.sessions[c] == Connected
      && t.outbox[c] == [s.welcome]
      && (forall d :: d in s.outbox ==> d in t.outbox && t.outbox[d] == s.outbox[d])
      && Inv(t) && Grows(s, t)
  {
  }

  lemma AcceptRejects(s: State, c: ConnId)
    requires Inv(s) && c !in s.sessions
    requires s.length >= s.maxClients
    ensures var t := AcceptStep(s, c);
      && t.length == s.length
      && t.clients == s.clients
      && c !in s.outbox && t.outbox == s.outbox[c := [Rejection]]
      && t.sessions[c] == Closed
      && Inv(t) && Grows(s, t)
  {
  }

  // ---------------------------------------------------------------------
  // Session teardown

  /** The deferred cleanup of readLoop: release the slot and deregister. */
  function CleanupStep(s: State, c: ConnId): State
    requires c in s.clients
  {
    s.(length := s.length - 1,
       clients := s.clients - {c},
       sessions := s.sessions[c := Closed])
  }

  lemma CleanupReleases(s: State, c: ConnId)
    requires Inv(s) && c in s.clients
    ensures var t := CleanupStep(s, c);
      && t.length == s.length - 1
      && c !in t.clients
      && (forall d :: d != c ==> (d in t.clients <==> d in s.clients))
      && (forall d :: d in t.clients ==> t.clients[d] == s.clients[d])
      && t.sessions[c] == Closed
      && t.outbox == s.outbox
      && Inv(t) && Grows(s, t)
  {
    var t := CleanupStep(s, c);
    assert t.clients.Keys == s.clients.Keys - {c};
  }

  // ---------------------------------------------------------------------
  // Naming

  /** The first read of readLoop.  A failed read, or a name that comes out
      empty (after "No name provided"), ends the session through the cleanup;
      otherwise the name is registered and its join notice broadcast. */
  function NameStep(s: State, c: ConnId, read: ReadResult): State
    requires WellFormed(s) && c in s.clients && s.sessions[c] == Connected
    requires read.Data? ==> |read.bytes| >= 1
  {
    match read
    case Failed => CleanupStep(s, c)
    case Data(bytes) =>
      var name := DeriveName(bytes);
      if name == [] then
        CleanupStep(s.(outbox := s.outbox[c := s.outbox[c] + [NoNameReply]]), c)
      else
        BroadcastStep(s.(clients := s.clients[c := name], sessions := s.sessions[c := Active(name)]),
                      JoinMessage(name))
  }

  /** A failed first read broadcasts nothing and writes nothing: the slot
      and the registry entry are released. */
  lemma NameReadFails(s: State, c: ConnId)
    requires Inv(s) && c in s.sessions && s.sessions[c] == Connected
    ensures var t := NameStep(s, c, Failed);
      && t.length == s.length - 1
      && c in s.clients && c !in t.clients
      && (forall d :: d != c ==> (d in t.clients <==> d in s.clients))
      && (forall d :: d in t.clients ==> t.clients[d] == s.clients[d])
      && t.sessions[c] == Closed
      && t.outbox == s.outbox
      && Inv(t) && Grows(s, t)
  {
    CleanupReleases(s, c);
  }

  /** A first read whose name comes out empty: only that connection receives
      "No name provided", nothing is broadcast, and the slot and the registry
      entry are released. */
  lemma NameEmptyRefused(s: State, c: ConnId, bytes: Bytes)
    requires Inv(s) && c in s.sessions && s.sessions[c] == Connected
    requires |bytes| >= 1 && DeriveName(bytes) == []
    ensures var t := NameStep(s, c, Data(bytes));
      && t.length == s.length - 1
      && c in s.clients && c !in t.clients
      && (forall d :: d != c ==> (d in t.clients <==> d in s.clients))
      && (forall d :: d in t.clients ==> t.clients[d] == s.clients[d])
      && t.sessions[c] == Closed
      && t.outbox[c] == s.outbox[c] + [NoNameReply]
      && (forall d :: d in s.outbox && d != c ==> t.outbox[d] == s.outbox[d])
      && Inv(t) && Grows(s, t)
  {
    var s1 := s.(outbox := s.outbox[c := s.outbox[c] + [NoNameReply]]);
    assert s1.outbox.Keys == s.outbox.Keys;
    assert Inv(s1);
    assert NameStep(s, c, Data(bytes)) == CleanupStep(s1, c);
    CleanupReleases(s1, c);
  }

  /** Naming that yields a non-empty name sets exactly that registry entry and
      announces the join to every named client, the newcomer included. */
  lemma NameJoins(s: State, c: ConnId, bytes: Bytes)
    requires Inv(s) && c in s.sessions && s.sessions[c] == Connected
    requires |bytes| >= 1 && DeriveName(bytes) != []
    ensures var name, t := DeriveName(bytes), NameStep(s, c, Data(bytes));
      && t.length == s.length
      && c in s.clients && s.clients[c] == [] && t.clients == s.clients[c := name]
      && t.sessions[c] == Active(name)
      && c in Recipients(t.clients)
      && t.outbox.Keys == s.outbox.Keys
      && (forall d :: d in s.outbox ==>
            t.outbox[d] == if d in Recipients(t.clients) then s.outbox[d] + [JoinMessage(name)] else s.outbox[d])
      && Inv(t) && Grows(s, t)
  {
    var name := DeriveName(bytes);
    var s1 := s.(clients := s.clients[c := name], sessions := s.sessions[c := Active(name)]);
    assert s1.clients.Keys == s.clients.Keys;
    assert Inv(s1);
    BroadcastKeepsInv(s1, JoinMessage(name));
  }

  // ---------------------------------------------------------------------
  // Relaying

  /** One successful read in the message loop: the chunk, tagged with the
      sender's name, goes to every named client. */
  function SendStep(s: State, c: ConnId, chunk: Bytes): State
    requires WellFormed(s) && c in s.sessions && s.sessions[c].Active?
  {
    BroadcastStep(s, Tag(s.sessions[c].name, chunk))
  }

  lemma SendRelaysTagged(s: State, c: ConnId, chunk: Bytes)
    requires Inv(s) && c in s.sessions && s.sessions[c].Active?
    ensures var name, t := s.sessions[c].name, SendStep(s, c, chunk);
      && t.length == s.length && t.clients == s.clients && t.sessions == s.sessions
      && c in Recipients(s.clients)
      && t.outbox.Keys == s.outbox.Keys
      && (forall d :: d in s.outbox ==>
            t.outbox[d] == if d in Recipients(s.clients) then s.outbox[d] + [Tag(name, chunk)] else s.outbox[d])
      && Inv(t) && Grows(s, t)
  {
    BroadcastKeepsInv(s, Tag(s.sessions[c].name, chunk));
  }

  /** A failed read in the message loop: the leave notice is broadcast while
      the leaver is still registered, then the deferred cleanup runs. */
  function LeaveStep(s: State, c: ConnId): State
    requires WellFormed(s) && c in s.clients && s.sessions[c].Active?
  {
    CleanupStep(BroadcastStep(s, LeaveMessage(s.sessions[c].name)), c)
  }

  lemma LeaveAnnouncesThenReleases(s: State, c: ConnId)
    requires Inv(s) && c in s.sessions && s.sessions[c].Active?
    ensures var name, t := s.sessions[c].name, LeaveStep(s, c);
      && t.length == s.length - 1
      && c in Recipients(s.clients) && c !in t.clients
      && (forall d :: d != c ==> (d in t.clients <==> d in s.clients))
      && (forall d :: d in t.clients ==> t.clients[d] == s.clients[d])
      && t.sessions[c] == Closed
      && t.outbox.Keys == s.outbox.Keys
      && (forall d :: d in s.outbox ==>
            t.outbox[d] == if d in Recipients(s.clients) then s.outbox[d] + [LeaveMessage(name)] else s.outbox[d])
      && Inv(t) && Grows(s, t)
  {
    var s1 := BroadcastStep(s, LeaveMessage(s.sessions[c].name));
    BroadcastKeepsInv(s, LeaveMessage(s.sessions[c].name));
    CleanupReleases(s1, c);
  }

  /** A session whose naming fails gives its slot back: on a full server the
      next fresh connection is admitted. */
  lemma FailedNamingFreesSlot(s: State, c: ConnId, read: ReadResult, d: ConnId)
    requires Inv(s) && c in s.sessions && s.sessions[c] == Connected
    requires s.length == s.maxClients
    requires read.Data? ==> |read.bytes| >= 1
    requires read.Failed? || DeriveName(read.bytes) == []
    requires d !in s.sessions
    ensures var t := NameStep(s, c, read);
      && t.length == s.maxClients - 1
      && d !in t.sessions
      && d in AcceptStep(t, d).clients
      && AcceptStep(t, d).length == s.maxClients
  {
    if read.Failed? {
      NameReadFails(s, c);
    } else {
      NameEmptyRefused(s, c, read.bytes);
    }
  }

  // ---------------------------------------------------------------------
  // Filling the gate

  /** Accepting the connections cs one after the other. */
  function AcceptAll(s: State, cs: seq<ConnId>): State
    requires forall i :: 0 <= i < |cs| ==> cs[i] !in s.sessions
    requires forall i, j :: 0 <= i < j < |cs| ==> cs[i] != cs[j]
    decreases |cs|
  {
    if cs == [] then s
    else
      var t := AcceptStep(s, cs[0]);
      assert forall i :: 0 <= i < |cs[1..]| ==> cs[1..][i] !in t.sessions by {
        forall i | 0 <= i < |cs[1..]| ensures cs[1..][i] !in t.sessions {
          assert cs[1..][i] == cs[i + 1] != cs[0];
        }
      }
      AcceptAll(t, cs[1..])
  }

  /** As many fresh connections as there are free slots are all admitted, each
      sent only the welcome; the next one is turned away with the rejection
      text and left unregistered. */
  lemma {:induction false} FillToCapacity(s: State, cs: seq<ConnId>, d: ConnId)
    requires Inv(s)
    requires forall i :: 0 <= i < |cs| ==> cs[i] !in s.sessions
    requires forall i, j :: 0 <= i < j < |cs| ==> cs[i] != cs[j]
    requires |cs| == s.maxClients - s.length
    requires d !in s.sessions && d !in cs
    ensures var t := AcceptAll(s, cs);
      && Inv(t)
      && t.length == t.maxClients
      && (forall i :: 0 <= i < |cs| ==> cs[i] in t.clients && t.outbox[cs[i]] == [s.welcome])
      && d !in t.sessions
      && d !in AcceptStep(t, d).clients
      && AcceptStep(t, d).outbox[d] == [Rejection]
    decreases |cs|
  {
    if cs != [] {
      var t := AcceptStep(s, cs[0]);
      AcceptAdmits(s, cs[0]);
      assert forall i :: 0 <= i < |cs[1..]| ==> cs[1..][i] !in t.sessions by {
        forall i | 0 <= i < |cs[1..]| ensures cs[1..][i] !in t.sessions {
          assert cs[1..][i] == cs[i + 1] != cs[0];
        }
      }
      FillToCapacity(t, cs[1..], d);
      var u := AcceptAll(s, cs);
      assert u == AcceptAll(t, cs[1..]);
      forall i | 0 <= i < |cs|
        ensures cs[i] in u.clients && u.outbox[cs[i]] == [s.welcome]
      {
        if i > 0 {
          assert cs[i] == cs[1..][i - 1];
        } else {
          AcceptAllKeeps(t, cs[1..], cs[0]);
        }
      }
    }
  }

  /** Accepting other connections leaves an admitted connection admitted and
      writes nothing to it. */
  lemma {:induction false} AcceptAllKeeps(s: State, cs: seq<ConnId>, c: ConnId)
    requires forall i :: 0 <= i < |cs| ==> cs[i] !in s.sessions
    requires forall i, j :: 0 <= i < j < |cs| ==> cs[i] != cs[j]
    requires c in s.clients && c in s.outbox && c in s.sessions
    ensures var t := AcceptAll(s, cs);
      c in t.clients && c in t.outbox && t.outbox[c] == s.outbox[c]
    decreases |cs|
  {
    if cs != [] {
      var t := AcceptStep(s, cs[0]);
      assert forall i :: 0 <= i < |cs[1..]| ==> cs[1..][i] !in t.sessions by {
        forall i | 0 <= i < |cs[1..]| ensures cs[1..][i] !in t.sessions {
          assert cs[1..][i] == cs[i + 1] != cs[0];
        }
      }
      AcceptAllKeeps(t, cs[1..], c);
    }
  }

  // ---------------------------------------------------------------------
  // Runs of events

  /** What the transport reports to the server: a new connection, or the
      outcome of a read on an existing one. */
  datatype Event = Connect(conn: ConnId) | Read(conn: ConnId, result: ReadResult)

  /** A read fits the buffer it was made into; the first read of a session
      also returns at least one byte (the slice nameBuf[:n-1] needs n >= 1). */
  predicate NameReadFits(r: ReadResult)
  {
    r.Data? ==> 1 <= |r.bytes| <= NameBufSize
  }

  predicate ChunkReadFits(r: ReadResult)
  {
    r.Data? ==> |r.bytes| <= ChunkBufSize
  }

  /** Relation between two states that every step keeps: no connection is
      forgotten, a closed session stays closed and is never written to again,
      and nothing once written to a connection is taken back. */
  ghost predicate Grows(s: State, t: State)
  {
    && t.welcome == s.welcome && t.maxClients == s.maxClients
    && s.sessions.Keys <= t.sessions.Keys
    && s.outbox.Keys <= t.outbox.Keys
    && (forall c :: c in s.sessions && s.sessions[c] == Closed ==> t.sessions[c] == Closed)
    && (forall c :: c in s.outbox ==> s.outbox[c] <= t.outbox[c])
    && (forall c :: c in s.sessions && c in s.outbox && c in t.outbox && s.sessions[c] == Closed ==>
          t.outbox[c] == s.outbox[c])
  }

  /** One event handled atomically: None when the event cannot happen in s (a
      reused handle, a read on a closed session, a read larger than its
      buffer or an empty first read). */
  function Step(s: State, e: Event): (r: Option<State>)
    requires Inv(s)
    ensures r.Some? ==> Inv(r.value) && Grows(s, r.value)
  {
    match e
    case Connect(c) =>
      if c in s.sessions then None
      else if s.length < s.maxClients then AcceptAdmits(s, c); Some(AcceptStep(s, c))
      else AcceptRejects(s, c); Some(AcceptStep(s, c))
    case Read(c, r) =>
      if c !in s.sessions then None
      else match s.sessions[c]
        case Closed => None
        case Connected =>
          if !NameReadFits(r) then None
          else if r.Failed? then NameReadFails(s, c); Some(NameStep(s, c, r))
          else if DeriveName(r.bytes) == [] then NameEmptyRefused(s, c, r.bytes); Some(NameStep(s, c, r))
          else NameJoins(s, c, r.bytes); Some(NameStep(s, c, r))
        case Active(_) =>
          if !ChunkReadFits(r) then None
          else if r.Failed? then LeaveAnnouncesThenReleases(s, c); Some(LeaveStep(s, c))
          else SendRelaysTagged(s, c, r.bytes); Some(SendStep(s, c, r.bytes))
  }

  // Which step Step takes for each event, one case at a time.

  lemma StepConnect(s: State, c: ConnId)
    requires Inv(s) && c !in s.sessions
    ensures Step(s, Connect(c)) == Some(AcceptStep(s, c))
  {
  }

  lemma StepName(s: State, c: ConnId, r: ReadResult)
    requires Inv(s) && c in s.sessions && s.sessions[c] == Connected && NameReadFits(r)
    ensures Step(s, Read(c, r)) == Some(NameStep(s, c, r))
  {
  }

  lemma StepChunk(s: State, c: ConnId, chunk: Bytes)
    requires Inv(s) && c in s.sessions && s.sessions[c].Active? && |chunk| <= ChunkBufSize
    ensures Step(s, Read(c, Data(chunk))) == Some(SendStep(s, c, chunk))
  {
  }

  lemma StepFailure(s: State, c: ConnId)
    requires Inv(s) && c in s.sessions && s.sessions[c].Active?
    ensures Step(s, Read(c, Failed)) == Some(LeaveStep(s, c))
  {
  }

  /** Step turns an event away exactly when it cannot happen: a connect with
      a handle already seen, a read on an unknown or closed connection, or a
      read that does not fit the buffer of the session's phase. */
  lemma StepRefuses(s: State, e: Event)
    requires Inv(s)
    ensures Step(s, e).None? <==>
      match e
      case Connect(c) => c in s.sessions
      case Read(c, r) =>
        || c !in s.sessions
        || s.sessions[c] == Closed
        || (s.sessions[c] == Connected && !NameReadFits(r))
        || (s.sessions[c].Active? && !ChunkReadFits(r))
  {
  }

  /** The server after a run of events; events that cannot happen are skipped. */
  function Run(s: State, events: seq<Event>): (t: State)
    requires Inv(s)
    ensures Inv(t) && Grows(s, t)
    decreases |events|
  {
    if events == [] then s
    else
      var next := Step(s, events[0]);
      Run(if next.Some? then next.value else s, events[1..])
  }
}
