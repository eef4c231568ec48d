/** A whole conversation on a server of capacity two, worked through event by
    event: the state after each event, and so what every connection has been
    sent at the end.  It is stated for any welcome text w, any non-empty names
    a, b, c and any chunk m. */
module ChatScenario {
  import opened ChatWire
  import opened ChatState

  /** Connection 1 names itself a, 2 names itself b, 3 finds the chat full,
      a sends m, b's connection fails, and the new connection 4 names itself c. */
  function Conversation(a: Bytes, b: Bytes, c: Bytes, m: Bytes): seq<Event>
  {
    [ Connect(1), Read(1, Data(a + [Newline])),
      Connect(2), Read(2, Data(b + [Newline])),
      Connect(3),
      Read(1, Data(m)),
      Read(2, Failed),
      Connect(4), Read(4, Data(c + [Newline])) ]
  }

  // The state after each event of the conversation.

  function AIn(w: Bytes): State
  {
    State(w, 2, 1, map[1 := []], map[1 := Connected], map[1 := [w]])
  }

  function ANamed(w: Bytes, a: Bytes): State
  {
    State(w, 2, 1, map[1 := a], map[1 := Active(a)], map[1 := [w, JoinMessage(a)]])
  }

  function BIn(w: Bytes, a: Bytes): State
  {
    State(w, 2, 2, map[1 := a, 2 := []], map[1 := Active(a), 2 := Connected],
          map[1 := [w, JoinMessage(a)], 2 := [w]])
  }

  function BNamed(w: Bytes, a: Bytes, b: Bytes): State
  {
    State(w, 2, 2, map[1 := a, 2 := b], map[1 := Active(a), 2 := Active(b)],
          map[1 := [w, JoinMessage(a), JoinMessage(b)], 2 := [w, JoinMessage(b)]])
  }

  function ThirdRejected(w: Bytes, a: Bytes, b: Bytes): State
  {
    State(w, 2, 2, map[1 := a, 2 := b],
          map[1 := Active(a), 2 := Active(b), 3 := Closed],
          map[1 := [w, JoinMessage(a), JoinMessage(b)], 2 := [w, JoinMessage(b)], 3 := [Rejection]])
  }

  function MessageSent(w: Bytes, a: Bytes, b: Bytes, m: Bytes): State
  {
    State(w, 2, 2, map[1 := a, 2 := b],
          map[1 := Active(a), 2 := Active(b), 3 := Closed],
          map[1 := [w, JoinMessage(a), JoinMessage(b), Tag(a, m)],
              2 := [w, JoinMessage(b), Tag(a, m)],
              3 := [Rejection]])
  }

  function BLeft(w: Bytes, a: Bytes, b: Bytes, m: Bytes): State
  {
    State(w, 2, 1, map[1 := a],
          map[1 := Active(a), 2 := Closed, 3 := Closed],
          map[1 := [w, JoinMessage(a), JoinMessage(b), Tag(a, m), LeaveMessage(b)],
              2 := [w, JoinMessage(b), Tag(a, m), LeaveMessage(b)],
              3 := [Rejection]])
  }

  function CIn(w: Bytes, a: Bytes, b: Bytes, m: Bytes): State
  {
    State(w, 2, 2, map[1 := a, 4 := []],
          map[1 := Active(a), 2 := Closed, 3 := Closed, 4 := Connected],
          map[1 := [w, JoinMessage(a), JoinMessage(b), Tag(a, m), LeaveMessage(b)],
              2 := [w, JoinMessage(b), Tag(a, m), LeaveMessage(b)],
              3 := [Rejection],
              4 := [w]])
  }

  function CNamed(w: Bytes, a: Bytes, b: Bytes, c: Bytes, m: Bytes): State
  {
    State(w, 2, 2, map[1 := a, 4 := c],
          map[1 := Active(a), 2 := Closed, 3 := Closed, 4 := Active(c)],
          map[1 := [w, JoinMessage(a), JoinMessage(b), Tag(a, m), LeaveMessage(b), JoinMessage(c)],
              2 := [w, JoinMessage(b), Tag(a, m), LeaveMessage(b)],
              3 := [Rejection],
              4 := [w, JoinMessage(c)]])
  }

  // One lemma per event.

  lemma AConnects(w: Bytes)
    ensures Inv(Init(w)) && AcceptStep(Init(w), 1) == AIn(w)
  {
  }

  lemma ANamesItself(w: Bytes, a: Bytes)
    requires a != []
    ensures NameStep(AIn(w), 1, Data(a + [Newline])) == ANamed(w, a)
  {
    DeriveNameOfLine(a, Newline);
    var d := Deliver(map[1 := [w]], map[1 := a], JoinMessage(a));
    assert d.Keys == {1} && d[1] == [w, JoinMessage(a)];
    assert d == map[1 := [w, JoinMessage(a)]];
  }

  lemma BConnects(w: Bytes, a: Bytes)
    ensures AcceptStep(ANamed(w, a), 2) == BIn(w, a)
  {
  }

  lemma BJoinDelivered(w: Bytes, a: Bytes, b: Bytes)
    requires a != [] && b != []
    ensures Deliver(BIn(w, a).outbox, map[1 := a, 2 := b], JoinMessage(b)) == BNamed(w, a, b).outbox
  {
    var d := Deliver(BIn(w, a).outbox, map[1 := a, 2 := b], JoinMessage(b));
    assert d.Keys == {1, 2};
    assert d[1] == [w, JoinMessage(a), JoinMessage(b)] && d[2] == [w, JoinMessage(b)];
  }

  lemma BNamesItself(w: Bytes, a: Bytes, b: Bytes)
    requires a != [] && b != []
    ensures NameStep(BIn(w, a), 2, Data(b + [Newline])) == BNamed(w, a, b)
  {
    DeriveNameOfLine(b, Newline);
    BJoinDelivered(w, a, b);
    assert BIn(w, a).clients[2 := b] == map[1 := a, 2 := b];
    assert BIn(w, a).sessions[2 := Active(b)] == BNamed(w, a, b).sessions;
  }

  lemma ThirdIsTurnedAway(w: Bytes, a: Bytes, b: Bytes)
    ensures AcceptStep(BNamed(w, a, b), 3) == ThirdRejected(w, a, b)
  {
  }

  lemma ASends(w: Bytes, a: Bytes, b: Bytes, m: Bytes)
    requires a != [] && b != []
    ensures SendStep(ThirdRejected(w, a, b), 1, m) == MessageSent(w, a, b, m)
  {
    var s := ThirdRejected(w, a, b);
    var d := Deliver(s.outbox, s.clients, Tag(a, m));
    assert d.Keys == {1, 2, 3};
    assert d[1] == MessageSent(w, a, b, m).outbox[1] && d[2] == MessageSent(w, a, b, m).outbox[2];
    assert d[3] == [Rejection];
    assert d == MessageSent(w, a, b, m).outbox;
  }

  lemma BLeaveDelivered(w: Bytes, a: Bytes, b: Bytes, m: Bytes)
    requires a != [] && b != []
    ensures Deliver(MessageSent(w, a, b, m).outbox, map[1 := a, 2 := b], LeaveMessage(b)) == BLeft(w, a, b, m).outbox
  {
    var d := Deliver(MessageSent(w, a, b, m).outbox, map[1 := a, 2 := b], LeaveMessage(b));
    assert d.Keys == {1, 2, 3};
    assert d[1] == BLeft(w, a, b, m).outbox[1] && d[2] == BLeft(w, a, b, m).outbox[2];
    assert d[3] == [Rejection];
  }

  lemma BDrops(w: Bytes, a: Bytes, b: Bytes, m: Bytes)
    requires a != [] && b != []
    ensures LeaveStep(MessageSent(w, a, b, m), 2) == BLeft(w, a, b, m)
  {
    BLeaveDelivered(w, a, b, m);
    assert map[1 := a, 2 := b] - {2} == map[1 := a];
    assert MessageSent(w, a, b, m).sessions[2 := Closed] == BLeft(w, a, b, m).sessions;
  }

  lemma CConnects(w: Bytes, a: Bytes, b: Bytes, m: Bytes)
    ensures AcceptStep(BLeft(w, a, b, m), 4) == CIn(w, a, b, m)
  {
  }

  lemma CJoinDelivered(w: Bytes, a: Bytes, b: Bytes, c: Bytes, m: Bytes)
    requires a != [] && c != []
    ensures Deliver(CIn(w, a, b, m).outbox, map[1 := a, 4 := c], JoinMessage(c)) == CNamed(w, a, b, c, m).outbox
  {
    var d := Deliver(CIn(w, a, b, m).outbox, map[1 := a, 4 := c], JoinMessage(c));
    assert d.Keys == {1, 2, 3, 4};
    assert d[1] == CNamed(w, a, b, c, m).outbox[1] && d[2] == CNamed(w, a, b, c, m).outbox[2];
    assert d[3] == [Rejection] && d[4] == [w, JoinMessage(c)];
  }

  lemma CNamesItself(w: Bytes, a: Bytes, b: Bytes, c: Bytes, m: Bytes)
    requires a != [] && c != []
    ensures NameStep(CIn(w, a, b, m), 4, Data(c + [Newline])) == CNamed(w, a, b, c, m)
  {
    DeriveNameOfLine(c, Newline);
    CJoinDelivered(w, a, b, c, m);
    assert CIn(w, a, b, m).clients[4 := c] == map[1 := a, 4 := c];
    assert CIn(w, a, b, m).sessions[4 := Active(c)] == CNamed(w, a, b, c, m).sessions;
  }

  /** A step that is known can be taken off the front of a run. */
  lemma RunFirst(s: State, es: seq<Event>, t: State)
    requires Inv(s) && es != [] && Step(s, es[0]) == Some(t)
    ensures Run(s, es) == Run(t, es[1..])
  {
  }

  // The conversation from each state on, last event first.

  lemma FromCIn(w: Bytes, a: Bytes, b: Bytes, c: Bytes, m: Bytes)
    requires a != [] && c != [] && |c| < NameBufSize && Inv(CIn(w, a, b, m))
    ensures Run(CIn(w, a, b, m), Conversation(a, b, c, m)[8..]) == CNamed(w, a, b, c, m)
  {
    var es := Conversation(a, b, c, m)[8..];
    assert es == [Read(4, Data(c + [Newline]))];
    CNamesItself(w, a, b, c, m);
    StepName(CIn(w, a, b, m), 4, Data(c + [Newline]));
    RunFirst(CIn(w, a, b, m), es, CNamed(w, a, b, c, m));
  }

  lemma FromBLeft(w: Bytes, a: Bytes, b: Bytes, c: Bytes, m: Bytes)
    requires a != [] && c != [] && |c| < NameBufSize && Inv(BLeft(w, a, b, m))
    ensures Run(BLeft(w, a, b, m), Conversation(a, b, c, m)[7..]) == CNamed(w, a, b, c, m)
  {
    var es := Conversation(a, b, c, m)[7..];
    assert es[0] == Connect(4) && es[1..] == Conversation(a, b, c, m)[8..];
    CConnects(w, a, b, m);
    StepConnect(BLeft(w, a, b, m), 4);
    RunFirst(BLeft(w, a, b, m), es, CIn(w, a, b, m));
    FromCIn(w, a, b, c, m);
  }

  lemma FromMessageSent(w: Bytes, a: Bytes, b: Bytes, c: Bytes, m: Bytes)
    requires a != [] && b != [] && c != [] && |c| < NameBufSize && Inv(MessageSent(w, a, b, m))
    ensures Run(MessageSent(w, a, b, m), Conversation(a, b, c, m)[6..]) == CNamed(w, a, b, c, m)
  {
    var es := Conversation(a, b, c, m)[6..];
    assert es[0] == Read(2, Failed) && es[1..] == Conversation(a, b, c, m)[7..];
    BDrops(w, a, b, m);
    StepFailure(MessageSent(w, a, b, m), 2);
    RunFirst(MessageSent(w, a, b, m), es, BLeft(w, a, b, m));
    FromBLeft(w, a, b, c, m);
  }

  lemma FromThirdRejected(w: Bytes, a: Bytes, b: Bytes, c: Bytes, m: Bytes)
    requires a != [] && b != [] && c != [] && |c| < NameBufSize && |m| <= ChunkBufSize
    requires Inv(ThirdRejected(w, a, b))
    ensures Run(ThirdRejected(w, a, b), Conversation(a, b, c, m)[5..]) == CNamed(w, a, b, c, m)
  {
    var es := Conversation(a, b, c, m)[5..];
    assert es[0] == Read(1, Data(m)) && es[1..] == Conversation(a, b, c, m)[6..];
    ASends(w, a, b, m);
    StepChunk(ThirdRejected(w, a, b), 1, m);
    RunFirst(ThirdRejected(w, a, b), es, MessageSent(w, a, b, m));
    FromMessageSent(w, a, b, c, m);
  }

  lemma FromBNamed(w: Bytes, a: Bytes, b: Bytes, c: Bytes, m: Bytes)
    requires a != [] && b != [] && c != [] && |c| < NameBufSize && |m| <= ChunkBufSize
    requires Inv(BNamed(w, a, b))
    ensures Run(BNamed(w, a, b), Conversation(a, b, c, m)[4..]) == CNamed(w, a, b, c, m)
  {
    var es := Conversation(a, b, c, m)[4..];
    assert es[0] == Connect(3) && es[1..] == Conversation(a, b, c, m)[5..];
    ThirdIsTurnedAway(w, a, b);
    StepConnect(BNamed(w, a, b), 3);
    RunFirst(BNamed(w, a, b), es, ThirdRejected(w, a, b));
    FromThirdRejected(w, a, b, c, m);
  }

  lemma FromBIn(w: Bytes, a: Bytes, b: Bytes, c: Bytes, m: Bytes)
    requires a != [] && b != [] && c != [] && |b| < NameBufSize && |c| < NameBufSize && |m| <= ChunkBufSize
    requires Inv(BIn(w, a))
    ensures Run(BIn(w, a), Conversation(a, b, c, m)[3..]) == CNamed(w, a, b, c, m)
  {
    var es := Conversation(a, b, c, m)[3..];
    assert es[0] == Read(2, Data(b + [Newline])) && es[1..] == Conversation(a, b, c, m)[4..];
    BNamesItself(w, a, b);
    StepName(BIn(w, a), 2, Data(b + [Newline]));
    RunFirst(BIn(w, a), es, BNamed(w, a, b));
    FromBNamed(w, a, b, c, m);
  }

  lemma FromANamed(w: Bytes, a: Bytes, b: Bytes, c: Bytes, m: Bytes)
    requires a != [] && b != [] && c != [] && |b| < NameBufSize && |c| < NameBufSize && |m| <= ChunkBufSize
    requires Inv(ANamed(w, a))
    ensures Run(ANamed(w, a), Conversation(a, b, c, m)[2..]) == CNamed(w, a, b, c, m)
  {
    var es := Conversation(a, b, c, m)[2..];
    assert es[0] == Connect(2) && es[1..] == Conversation(a, b, c, m)[3..];
    BConnects(w, a);
    StepConnect(ANamed(w, a), 2);
    RunFirst(ANamed(w, a), es, BIn(w, a));
    FromBIn(w, a, b, c, m);
  }

  lemma FromAIn(w: Bytes, a: Bytes, b: Bytes, c: Bytes, m: Bytes)
    requires a != [] && b != [] && c != [] && |a| < NameBufSize && |b| < NameBufSize && |c| < NameBufSize
    requires |m| <= ChunkBufSize
    requires Inv(AIn(w))
    ensures Run(AIn(w), Conversation(a, b, c, m)[1..]) == CNamed(w, a, b, c, m)
  {
    var es := Conversation(a, b, c, m)[1..];
    assert es[0] == Read(1, Data(a + [Newline])) && es[1..] == Conversation(a, b, c, m)[2..];
    ANamesItself(w, a);
    StepName(AIn(w), 1, Data(a + [Newline]));
    RunFirst(AIn(w), es, ANamed(w, a));
    FromANamed(w, a, b, c, m);
  }

  /** Every named client hears every announcement and message, its own
      included; b hears its own departure; the third connection receives only
      the rejection; the slot b frees admits c. */
  lemma ConversationOutcome(w: Bytes, a: Bytes, b: Bytes, c: Bytes, m: Bytes)
    requires a != [] && b != [] && c != [] && |m| <= ChunkBufSize
    requires |a| < NameBufSize && |b| < NameBufSize && |c| < NameBufSize
    ensures Run(Init(w), Conversation(a, b, c, m)) == CNamed(w, a, b, c, m)
  {
    var es := Conversation(a, b, c, m);
    AConnects(w);
    StepConnect(Init(w), 1);
    RunFirst(Init(w), es, AIn(w));
    FromAIn(w, a, b, c, m);
  }
}
