/** The relay server as the object the program mutates: the admission counter,
    the registry of connections, and (for the model) each session's phase and
    everything written to each connection.  Every method runs as one atomic
    step, as if it held both of the server's locks, and is proved to change the
    fields exactly as the matching step function of ChatState does. */
module ChatServer {
  import opened ChatWire
  import opened ChatState

  class Server {
    /** The greeting every admitted connection receives first; it comes from a
        package outside this model, so the server is given it. */
    const welcome: Bytes
    const maxClients: int
    var length: int
    var clients: map<ConnId, Bytes>
    var sessions: map<ConnId, Phase>
    var outbox: map<ConnId, seq<Bytes>>

    /** The server's fields as a State value. */
    function Snapshot(): State
      reads this
    {
      State(welcome, maxClients, length, clients, sessions, outbox)
    }

    ghost predicate Valid()
      reads this
    {
      Inv(Snapshot())
    }

    /** A server with the default capacity, no clients and no connections. */
    constructor (welcome: Bytes)
      ensures Valid() && Snapshot() == Init(welcome)
      ensures maxClients == DefaultMaxClients && length == 0 && clients == map[]
    {
      this.welcome := welcome;
      maxClients := DefaultMaxClients;
      length := 0;
      clients := map[];
      sessions := map[];
      outbox := map[];
    }

    /** Writes msg to every registered connection whose name is not empty, one
        connection at a time, as the loop over the registry does. */
    method Broadcast(msg: Bytes)
      requires clients.Keys <= outbox.Keys
      modifies this`outbox
      ensures outbox == Deliver(old(outbox), clients, msg)
    {
      var pending := clients.Keys;
      while pending != {}
        invariant pending <= clients.Keys
        invariant outbox.Keys == old(outbox).Keys
        invariant forall c :: c in outbox ==>
          outbox[c] == if c in Recipients(clients) && c !in pending then old(outbox)[c] + [msg] else old(outbox)[c]
        decreases pending
      {
        var c :| c in pending;
        if clients[c] != [] {
          outbox := outbox[c := outbox[c] + [msg]];
        }
        pending := pending - {c};
      }
    }

    /** The deferred cleanup of a session: give the slot back and deregister. */
    method Cleanup(c: ConnId)
      requires c in clients
      modifies this`length, this`clients, this`sessions
      ensures Snapshot() == CleanupStep(old(Snapshot()), c)
    {
      length := length - 1;
      clients := clients - {c};
      sessions := sessions[c := Closed];
    }

    /** One connection handed over by the listener. */
    method Accept(c: ConnId) returns (admitted: bool)
      requires Valid() && c !in sessions
      modifies this
      ensures Valid()
      ensures admitted == (old(length) < maxClients)
      ensures Snapshot() == AcceptStep(old(Snapshot()), c)
    {
      if length >= maxClients {
        AcceptRejects(Snapshot(), c);
        outbox := outbox[c := [Rejection]];
        sessions := sessions[c := Closed];
        return false;
      }
      AcceptAdmits(Snapshot(), c);
      length := length + 1;
      clients := clients[c := []];
      sessions := sessions[c := Connected];
      outbox := outbox[c := [welcome]];
      admitted := true;
    }

    /** The first read of an admitted session: its name, or its end. */
    method Name(c: ConnId, read: ReadResult)
      requires Valid() && c in sessions && sessions[c] == Connected
      requires NameReadFits(read)
      modifies this
      ensures Snapshot() == NameStep(old(Snapshot()), c, read)
      ensures Valid()
    {
      ghost var s := Snapshot();
      match read
      case Failed =>
        NameReadFails(s, c);
        Cleanup(c);
      case Data(bytes) =>
        var name := DeriveName(bytes);
        if name == [] {
          NameEmptyRefused(s, c, bytes);
          outbox := outbox[c := outbox[c] + [NoNameReply]];
          Cleanup(c);
        } else {
          NameJoins(s, c, bytes);
          Join(c, name);
        }
    }

    /** Registers a non-empty name and announces it. */
    method Join(c: ConnId, name: Bytes)
      requires clients.Keys <= sessions.Keys && sessions.Keys == outbox.Keys
      requires c in clients && name != []
      modifies this`clients, this`sessions, this`outbox
      ensures Snapshot() == BroadcastStep(
        old(Snapshot()).(clients := old(clients)[c := name], sessions := old(sessions)[c := Active(name)]),
        JoinMessage(name))
    {
      clients := clients[c := name];
      sessions := sessions[c := Active(name)];
      Broadcast(JoinMessage(name));
    }

    /** A chunk read by a named session, relayed to every named client. */
    method Send(c: ConnId, chunk: Bytes)
      requires Valid() && c in sessions && sessions[c].Active?
      requires |chunk| <= ChunkBufSize
      modifies this
      ensures Valid()
      ensures Snapshot() == SendStep(old(Snapshot()), c, chunk)
    {
      SendRelaysTagged(Snapshot(), c, chunk);
      Broadcast(Tag(sessions[c].name, chunk));
    }

    /** A failed read in a named session: announce the departure, then clean up. */
    method Disconnect(c: ConnId)
      requires Valid() && c in sessions && sessions[c].Active?
      modifies this
      ensures Valid()
      ensures Snapshot() == LeaveStep(old(Snapshot()), c)
    {
      LeaveAnnouncesThenReleases(Snapshot(), c);
      Broadcast(LeaveMessage(sessions[c].name));
      Cleanup(c);
    }

    /** Routes one event to the session step it belongs to; an event that
        cannot happen in the current state changes nothing. */
    method Handle(e: Event) returns (handled: bool)
      requires Valid()
      modifies this
      ensures Valid()
      ensures handled == Step(old(Snapshot()), e).Some?
      ensures Snapshot() == if handled then Step(old(Snapshot()), e).value else old(Snapshot())
    {
      handled := false;
      match e
      case Connect(c) =>
        if c !in sessions {
          var _ := Accept(c);
          handled := true;
        }
      case Read(c, r) =>
        if c in sessions {
          match sessions[c]
          case Closed =>
          case Connected =>
            if NameReadFits(r) {
              Name(c, r);
              handled := true;
            }
          case Active(_) =>
            if ChunkReadFits(r) {
              if r.Failed? {
                Disconnect(c);
              } else {
                Send(c, r.bytes);
              }
              handled := true;
            }
        }
    }

    /** The accept loop and the sessions' read loops, interleaved one event at
        a time in the order the events arrive. */
    method Serve(events: seq<Event>)
      requires Valid()
      modifies this
      ensures Valid()
      ensures Snapshot() == Run(old(Snapshot()), events)
    {
      var i := 0;
      while i < |events|
        invariant 0 <= i <= |events|
        invariant Valid()
        invariant Run(old(Snapshot()), events) == Run(Snapshot(), events[i..])
      {
        var _ := Handle(events[i]);
        assert events[i..][0] == events[i] && events[i..][1..] == events[i + 1..];
        i := i + 1;
      }
    }
  }
}
