/**
 The WebSocket hub (internal/websocket/hub.go, handler.go): the live-client set, the room
 index, and one bounded queue per connection.  Register, unregister, broadcast, room
 broadcast and the write pump's receive are atomic steps taken in any order.
 */
module Hub {

  const CAPACITY: nat := 256

  type Msg = string

  /** One message accepted by the hub, with its addressees. */
  datatype Entry = ToAll(msg: Msg) | ToRoom(room: string, msg: Msg)

  /**
   A connection, named by its position in `State.conns`.  `received`, `joined`, `left` and
   `closes` are history: what the write pump took, the log position at registration and
   at the close of the channel, and how often the channel was closed.
   */
  datatype Conn = Conn(
    room: string, buf: seq<Msg>, closed: bool, received: seq<Msg>, joined: nat, left: nat, closes: nat)

  /** `log` and `evicted` are history; `panicked` stands for a crash of the sending goroutine. */
  datatype State = State(
    clients: set<nat>,
    rooms: map<string, set<nat>>,
    conns: seq<Conn>,
    log: seq<Entry>,
    evicted: set<nat>,
    panicked: bool)

  datatype Step =
    | Register(room: string)
    | Unregister(c: nat)
    | Send(entry: Entry)
    | Drain(c: nat)

  // ---------------------------------------------------------------- steps

  function Targets(s: State, e: Entry): set<nat> {
    match e
    case ToAll(_) => s.clients
    case ToRoom(r, _) => if r in s.rooms then s.rooms[r] else {}
  }

  predicate Full(conn: Conn) {
    |conn.buf| >= CAPACITY
  }

  /** The `select` of both broadcast loops: enqueue, or close a reader that has no room. */
  function Offer(conn: Conn, msg: Msg, at: nat): Conn {
    if Full(conn) then conn.(closed := true, left := at, closes := conn.closes + 1)
    else conn.(buf := conn.buf + [msg])
  }

  ghost predicate HitsClosed(s: State, targets: set<nat>) {
    exists c :: c in targets && c < |s.conns| && s.conns[c].closed
  }

  function FullAmong(conns: seq<Conn>, targets: set<nat>): set<nat> {
    set c | c in targets && c < |conns| && Full(conns[c])
  }

  function Offered(conns: seq<Conn>, targets: set<nat>, msg: Msg, at: nat): seq<Conn> {
    seq(|conns|, i requires 0 <= i < |conns| => if i in targets then Offer(conns[i], msg, at) else conns[i])
  }

  /** What a whole broadcast does, addressee by addressee and without an order. */
  ghost function Deliver(s: State, e: Entry): State {
    var targets := Targets(s, e);
    if HitsClosed(s, targets) then s.(panicked := true)
    else s.(
      conns := Offered(s.conns, targets, e.msg, |s.log|),
      clients := s.clients - FullAmong(s.conns, targets),
      evicted := s.evicted + FullAmong(s.conns, targets),
      log := s.log + [e])
  }

  function AddToRoom(rooms: map<string, set<nat>>, room: string, c: nat): map<string, set<nat>> {
    rooms[room := (if room in rooms then rooms[room] else {}) + {c}]
  }

  function RemoveFromRoom(rooms: map<string, set<nat>>, room: string, c: nat): map<string, set<nat>> {
    if room !in rooms then rooms
    else if rooms[room] - {c} == {} then rooms - {room}
    else rooms[room := rooms[room] - {c}]
  }

  ghost predicate Enabled(s: State, e: Step) {
    !s.panicked &&
    match e
    case Register(_) => true
    case Unregister(c) => c < |s.conns|
    case Send(_) => true
    case Drain(c) => c < |s.conns| && s.conns[c].buf != []
  }

  ghost function Apply(s: State, e: Step): State
    requires Enabled(s, e)
  {
    match e
    case Register(room) =>
      var c := |s.conns|;
      s.(
        conns := s.conns + [Conn(room, [], false, [], |s.log|, 0, 0)],
        clients := s.clients + {c},
        rooms := AddToRoom(s.rooms, room, c))
    case Unregister(c) =>
      if c !in s.clients then s
      else
        var conn := s.conns[c];
        s.(
          clients := s.clients - {c},
          rooms := RemoveFromRoom(s.rooms, conn.room, c),
          conns := s.conns[c := conn.(closed := true, left := |s.log|, closes := conn.closes + 1)],
          panicked := conn.closed)
    case Send(entry) => Deliver(s, entry)
    case Drain(c) =>
      var conn := s.conns[c];
      s.(conns := s.conns[c := conn.(buf := conn.buf[1..], received := conn.received + [conn.buf[0]])])
  }

  const Empty := State({}, map[], [], [], {}, false)

  ghost predicate ValidRun(s: State, run: seq<Step>)
    decreases |run|
  {
    run == [] || (Enabled(s, run[0]) && ValidRun(Apply(s, run[0]), run[1..]))
  }

  ghost function Final(s: State, run: seq<Step>): State
    requires ValidRun(s, run)
    decreases |run|
  {
    if run == [] then s else Final(Apply(s, run[0]), run[1..])
  }

  // ------------------------------------------------------------ invariant

  predicate IsFor(e: Entry, room: string) {
    e.ToAll? || e.room == room
  }

  /** The messages of a stretch of the log that a member of `room` should see, in order. */
  function Addressed(log: seq<Entry>, room: string): (r: seq<Msg>)
    ensures |r| <= |log|
  {
    if log == [] then [] else
    var e := log[|log| - 1];
    Addressed(log[..|log| - 1], room) + (if IsFor(e, room) then [e.msg] else [])
  }

  /** Where the connection's part of the log ends: at its close, or at the log's end. */
  function End(s: State, c: nat): nat
    requires c < |s.conns|
  {
    if s.conns[c].closed then s.conns[c].left else |s.log|
  }

  ghost predicate ConnOk(s: State, c: nat)
    requires c < |s.conns|
  {
    var conn := s.conns[c];
    && |conn.buf| <= CAPACITY
    && (c in s.clients <==> !conn.closed)
    && conn.closes == (if conn.closed then 1 else 0)
    && conn.joined <= End(s, c) <= |s.log|
    && (c in s.evicted ==> conn.closed && conn.left < |s.log| && IsFor(s.log[conn.left], conn.room))
    && conn.received + conn.buf == Addressed(s.log[conn.joined..End(s, c)], conn.room)
  }

  /** The room index holds exactly the live and the evicted connections, and no empty room. */
  ghost predicate RoomsOk(s: State) {
    && (forall c :: c in s.clients + s.evicted ==>
          c < |s.conns| && s.conns[c].room in s.rooms && c in s.rooms[s.conns[c].room])
    && (forall r :: r in s.rooms ==>
          s.rooms[r] != {} && forall c :: c in s.rooms[r] ==>
            c in s.clients + s.evicted && c < |s.conns| && s.conns[c].room == r)
  }

  ghost predicate Inv(s: State) {
    && RoomsOk(s)
    && s.clients !! s.evicted
    && (forall c :: 0 <= c < |s.conns| ==> ConnOk(s, c))
  }

  lemma AddressedAppend(log: seq<Entry>, from: nat, e: Entry, room: string)
    requires from <= |log|
    ensures Addressed((log + [e])[from..], room)
         == Addressed(log[from..], room) + (if IsFor(e, room) then [e.msg] else [])
  {
    var slice := (log + [e])[from..];
    assert slice[..|slice| - 1] == log[from..];
  }

  lemma RegisterKeepsInv(s: State, room: string)
    requires Inv(s) && Enabled(s, Register(room))
    ensures Inv(Apply(s, Register(room)))
  {
    var t := Apply(s, Register(room));
    forall c | 0 <= c < |t.conns| ensures ConnOk(t, c) {
      if c < |s.conns| { assert ConnOk(s, c); }
    }
  }

  lemma UnregisterKeepsInv(s: State, c: nat)
    requires Inv(s) && Enabled(s, Unregister(c))
    ensures Inv(Apply(s, Unregister(c))) && !Apply(s, Unregister(c)).panicked
  {
    var t := Apply(s, Unregister(c));
    forall d | 0 <= d < |t.conns| ensures ConnOk(t, d) {
      assert ConnOk(s, d);
    }
    assert ConnOk(s, c);
    if c in s.clients {
      var room := s.conns[c].room;
      forall d | d in t.clients + t.evicted
        ensures d < |t.conns| && t.conns[d].room in t.rooms && d in t.rooms[t.conns[d].room]
      {
        assert d in s.clients + s.evicted && d != c;
        if s.conns[d].room == room { assert d in s.rooms[room] - {c}; }
      }
    }
  }

  lemma DrainKeepsInv(s: State, c: nat)
    requires Inv(s) && Enabled(s, Drain(c))
    ensures Inv(Apply(s, Drain(c)))
  {
    var t := Apply(s, Drain(c));
    forall d | 0 <= d < |t.conns| ensures ConnOk(t, d) {
      assert ConnOk(s, d);
      if d == c {
        assert t.conns[c].received + t.conns[c].buf == s.conns[c].received + s.conns[c].buf;
      }
    }
  }

  lemma TargetsAreAddressees(s: State, e: Entry, c: nat)
    requires Inv(s) && c in s.clients
    ensures c < |s.conns| && (c in Targets(s, e) <==> IsFor(e, s.conns[c].room))
  {
    assert c in s.clients + s.evicted;
  }

  lemma StreamAppend(log: seq<Entry>, joined: nat, e: Entry, room: string, stream: seq<Msg>)
    requires joined <= |log| && stream == Addressed(log[joined..|log|], room)
    ensures Addressed((log + [e])[joined..|log| + 1], room) == stream + (if IsFor(e, room) then [e.msg] else [])
    ensures Addressed((log + [e])[joined..|log|], room) == stream
  {
    AddressedAppend(log, joined, e, room);
    assert log[joined..|log|] == log[joined..] == (log + [e])[joined..|log|];
    assert (log + [e])[joined..|log| + 1] == (log + [e])[joined..];
  }

  lemma DeliverKeepsClosedConn(s: State, e: Entry, c: nat)
    requires Inv(s) && c < |s.conns| && s.conns[c].closed && !HitsClosed(s, Targets(s, e))
    ensures ConnOk(Deliver(s, e), c)
  {
    assert ConnOk(s, c);
    assert c !in Targets(s, e);
    var conn := s.conns[c];
    assert (s.log + [e])[conn.joined..conn.left] == s.log[conn.joined..conn.left];
  }

  /** An open connection a broadcast reaches gains the message or leaves; others keep what they had. */
  lemma DeliverKeepsOpenConn(s: State, e: Entry, c: nat)
    requires Inv(s) && c < |s.conns| && !s.conns[c].closed && !HitsClosed(s, Targets(s, e))
    ensures ConnOk(Deliver(s, e), c)
  {
    var conn := s.conns[c];
    assert ConnOk(s, c);
    TargetsAreAddressees(s, e, c);
    StreamAppend(s.log, conn.joined, e, conn.room, conn.received + conn.buf);
    assert conn.received + (conn.buf + [e.msg]) == (conn.received + conn.buf) + [e.msg];
  }

  lemma SendKeepsInv(s: State, e: Entry)
    requires Inv(s) && Enabled(s, Send(e))
    ensures Inv(Apply(s, Send(e)))
  {
    var t := Deliver(s, e);
    if HitsClosed(s, Targets(s, e)) {
      forall c | 0 <= c < |t.conns| ensures ConnOk(t, c) { assert ConnOk(s, c); }
    } else {
      forall c | 0 <= c < |t.conns| ensures ConnOk(t, c) {
        if s.conns[c].closed { DeliverKeepsClosedConn(s, e, c); } else { DeliverKeepsOpenConn(s, e, c); }
      }
      forall c | c in FullAmong(s.conns, Targets(s, e)) ensures c in s.clients { assert ConnOk(s, c); }
      assert t.clients + t.evicted == s.clients + s.evicted;
    }
  }

  lemma StepKeepsInv(s: State, e: Step)
    requires Inv(s) && Enabled(s, e)
    ensures Inv(Apply(s, e))
  {
    match e
    case Register(room) => RegisterKeepsInv(s, room);
    case Unregister(c) => UnregisterKeepsInv(s, c);
    case Send(entry) => SendKeepsInv(s, entry);
    case Drain(c) => DrainKeepsInv(s, c);
  }

  lemma {:induction false} RunKeepsInv(s: State, run: seq<Step>)
    requires Inv(s) && ValidRun(s, run)
    ensures Inv(Final(s, run))
    decreases |run|
  {
    if run != [] {
      StepKeepsInv(s, run[0]);
      RunKeepsInv(Apply(s, run[0]), run[1..]);
    }
  }

  lemma {:induction false} RunAppend(s: State, run: seq<Step>, e: Step)
    requires ValidRun(s, run) && Enabled(Final(s, run), e)
    ensures ValidRun(s, run + [e]) && Final(s, run + [e]) == Apply(Final(s, run), e)
    decreases |run|
  {
    if run == [] {
      assert [e][1..] == [];
      assert ValidRun(Apply(s, e), []);
    } else {
      assert (run + [e])[1..] == run[1..] + [e];
      RunAppend(Apply(s, run[0]), run[1..], e);
    }
  }

  // ------------------------------------------------------------- delivery

  /** The messages the run accepted, in the order the hub took them. */
  function Sent(run: seq<Step>): seq<Entry> {
    if run == [] then [] else (if run[0].Send? then [run[0].entry] else []) + Sent(run[1..])
  }

  lemma {:induction false} LogIsWhatWasSent(s: State, run: seq<Step>)
    requires ValidRun(s, run) && !Final(s, run).panicked
    ensures Final(s, run).log == s.log + Sent(run)
    decreases |run|
  {
    if run != [] {
      var t := Apply(s, run[0]);
      PanicStays(t, run[1..]);
      LogIsWhatWasSent(t, run[1..]);
      assert t.log == s.log + (if run[0].Send? then [run[0].entry] else []);
    }
  }

  lemma PanicStays(s: State, run: seq<Step>)
    requires ValidRun(s, run)
    ensures s.panicked ==> run == [] && Final(s, run).panicked
  {
  }

  /**
   In every interleaving, room broadcasts included, what a connection received followed by
   what waits in its queue is exactly the messages addressed to it, in order, from its
   registration on: up to the present while it is live, and up to the first message it had
   no room for when it was evicted.
   */
  lemma StreamsAreExact(run: seq<Step>, c: nat)
    requires ValidRun(Empty, run) && !Final(Empty, run).panicked && c < |Final(Empty, run).conns|
    ensures var t := Final(Empty, run); var conn := t.conns[c];
            && conn.joined <= End(t, c) <= |Sent(run)|
            && conn.received + conn.buf == Addressed(Sent(run)[conn.joined..End(t, c)], conn.room)
            && (c in t.clients ==> End(t, c) == |Sent(run)|)
            && (c in t.evicted ==> c !in t.clients && End(t, c) < |Sent(run)|
                                   && IsFor(Sent(run)[End(t, c)], conn.room))
  {
    RunKeepsInv(Empty, run);
    LogIsWhatWasSent(Empty, run);
    assert Final(Empty, run).log == Sent(run);
    assert ConnOk(Final(Empty, run), c);
  }

  // ---------------------------------------------- from the registration on

  lemma {:induction false} RunSplit(s: State, a: seq<Step>, b: seq<Step>)
    requires ValidRun(s, a + b)
    ensures ValidRun(s, a) && ValidRun(Final(s, a), b) && Final(s, a + b) == Final(Final(s, a), b)
    decreases |a|
  {
    if a == [] {
      assert a + b == b;
    } else {
      assert (a + b)[1..] == a[1..] + b;
      RunSplit(Apply(s, a[0]), a[1..], b);
    }
  }

  lemma {:induction false} SentOfConcat(a: seq<Step>, b: seq<Step>)
    ensures Sent(a + b) == Sent(a) + Sent(b)
  {
    if a == [] {
      assert a + b == b;
    } else {
      var head := if a[0].Send? then [a[0].entry] else [];
      assert (a + b)[1..] == a[1..] + b && (a + b)[0] == a[0];
      SentOfConcat(a[1..], b);
      assert Sent(a + b) == head + (Sent(a[1..]) + Sent(b)) == (head + Sent(a[1..])) + Sent(b);
    }
  }

  function Registrations(run: seq<Step>): nat {
    if run == [] then 0 else (if run[0].Register? then 1 else 0) + Registrations(run[1..])
  }

  /** Connections come from registrations only, and keep their room and starting point. */
  lemma {:induction false} ConnsAreRegistrations(s: State, run: seq<Step>)
    requires ValidRun(s, run)
    ensures |Final(s, run).conns| == |s.conns| + Registrations(run)
    ensures forall c :: 0 <= c < |s.conns| ==>
              Final(s, run).conns[c].room == s.conns[c].room && Final(s, run).conns[c].joined == s.conns[c].joined
    decreases |run|
  {
    if run != [] {
      ConnsAreRegistrations(Apply(s, run[0]), run[1..]);
    }
  }

  /**
   What one registration leads to.  The connection it creates, in whatever run, is in the
   room it named, and its stream starts with the first message sent after it: nothing sent
   before reaches it, and nothing addressed to it afterwards is missing up to its end.
   */
  lemma StreamStartsAtRegistration(before: seq<Step>, room: string, after: seq<Step>)
    requires ValidRun(Empty, before + [Register(room)] + after)
    requires !Final(Empty, before + [Register(room)] + after).panicked
    ensures var run := before + [Register(room)] + after;
            var t, c, from := Final(Empty, run), Registrations(before), |Sent(before)|;
            && c < |t.conns| && t.conns[c].room == room && t.conns[c].joined == from
            && from <= End(t, c) <= |Sent(run)|
            && t.conns[c].received + t.conns[c].buf == Addressed(Sent(run)[from..End(t, c)], room)
            && (c in t.clients ==> t.conns[c].received + t.conns[c].buf == Addressed(Sent(after), room))
  {
    var run, here := before + [Register(room)] + after, before + [Register(room)];
    RunSplit(Empty, here, after);
    RunSplit(Empty, before, [Register(room)]);
    var s := Final(Empty, before);
    assert Final(Empty, here) == Apply(s, Register(room)) by {
      assert [Register(room)][1..] == [];
    }
    ConnsAreRegistrations(Empty, before);
    ConnsAreRegistrations(Final(Empty, here), after);
    LogIsWhatWasSent(Empty, before);
    assert s.log == Sent(before);
    SentOfConcat(here, after);
    SentOfConcat(before, [Register(room)]);
    assert Sent(here) == Sent(before) by { assert [Register(room)][1..] == []; }
    StreamsAreExact(run, Registrations(before));
    assert Sent(run)[|Sent(before)|..|Sent(run)|] == Sent(after);
  }

  lemma {:induction false} ClosedStaysClosed(s: State, run: seq<Step>, c: nat)
    requires Inv(s) && ValidRun(s, run) && c < |s.conns| && s.conns[c].closed
    ensures c < |Final(s, run).conns| && Final(s, run).conns[c].closed && Final(s, run).conns[c].left == s.conns[c].left
    decreases |run|
  {
    if run != [] {
      assert ConnOk(s, c);
      StepKeepsInv(s, run[0]);
      ClosedStaysClosed(Apply(s, run[0]), run[1..], c);
    }
  }

  /** Unregistering a live connection ends its stream there: later messages never reach it. */
  lemma StreamEndsAtUnregister(before: seq<Step>, c: nat, after: seq<Step>)
    requires ValidRun(Empty, before + [Unregister(c)] + after)
    requires !Final(Empty, before + [Unregister(c)] + after).panicked
    requires ValidRun(Empty, before) && c in Final(Empty, before).clients
    ensures var t := Final(Empty, before + [Unregister(c)] + after);
            && c < |t.conns| && c !in t.clients && t.conns[c].closed && t.conns[c].joined <= |Sent(before)|
            && t.conns[c].received + t.conns[c].buf
                 == Addressed(Sent(before)[t.conns[c].joined..], t.conns[c].room)
  {
    var here := before + [Unregister(c)];
    var run := here + after;
    RunSplit(Empty, here, after);
    RunSplit(Empty, before, [Unregister(c)]);
    var s := Final(Empty, before);
    RunKeepsInv(Empty, before);
    LogIsWhatWasSent(Empty, before);
    assert s.log == Sent(before);
    assert Final(Empty, here) == Apply(s, Unregister(c)) by { assert [Unregister(c)][1..] == []; }
    StepKeepsInv(s, Unregister(c));
    assert c in s.clients + s.evicted && ConnOk(s, c);
    ClosedStaysClosed(Final(Empty, here), after, c);
    SentOfConcat(here, after);
    SentOfConcat(before, [Unregister(c)]);
    assert Sent(here) == Sent(before) by { assert [Unregister(c)][1..] == []; }
    StreamsAreExact(run, c);
    RunKeepsInv(Empty, run);
    var t := Final(Empty, run);
    assert ConnOk(t, c) && End(t, c) == |Sent(before)|;
    assert Sent(run)[t.conns[c].joined..|Sent(before)|] == Sent(before)[t.conns[c].joined..];
  }

  function Messages(log: seq<Entry>): (r: seq<Msg>)
    ensures |r| == |log|
  {
    seq(|log|, i requires 0 <= i < |log| => log[i].msg)
  }

  ghost predicate NoRoomSends(run: seq<Step>) {
    forall e :: e in Sent(run) ==> e.ToAll?
  }

  lemma {:induction false} AddressedToAll(log: seq<Entry>, room: string)
    requires forall e :: e in log ==> e.ToAll?
    ensures Addressed(log, room) == Messages(log)
  {
    if log != [] {
      var n := |log| - 1;
      AddressedToAll(log[..n], room);
      assert log[n] in log;
      assert Messages(log[..n]) + [log[n].msg] == Messages(log);
    }
  }

  /**
   A step evicts a connection exactly when it sends a message addressed to that live
   connection while 256 messages wait in its queue; any other addressee gets the message.
   */
  lemma EvictsExactlyFullReaders(s: State, e: Step, c: nat)
    requires Inv(s) && Enabled(s, e) && !Apply(s, e).panicked && c < |s.conns| && c !in s.evicted
    ensures c in Apply(s, e).evicted <==>
            e.Send? && c in s.clients && IsFor(e.entry, s.conns[c].room) && |s.conns[c].buf| == 256
    ensures e.Send? && c in s.clients && c !in Apply(s, e).evicted ==>
            Apply(s, e).conns[c].buf
              == s.conns[c].buf + (if IsFor(e.entry, s.conns[c].room) then [e.entry.msg] else [])
  {
    assert ConnOk(s, c);
    if e.Send? {
      if c in s.clients {
        TargetsAreAddressees(s, e.entry, c);
      } else {
        assert c !in Targets(s, e.entry);
      }
    }
  }

  /**
   A broadcast that does not panic, seen from one connection: a live addressee with fewer
   than 256 waiting messages gets it last in its queue, one with 256 is closed and dropped,
   and nothing happens to anybody else.
   */
  lemma BroadcastReaches(s: State, e: Entry, c: nat)
    requires Inv(s) && !s.panicked && !Deliver(s, e).panicked && c < |s.conns|
    ensures |Deliver(s, e).conns| == |s.conns|
    ensures var t := Deliver(s, e); var was, conn := s.conns[c], t.conns[c];
            var reached := c in s.clients && (e.ToAll? || e.room == was.room);
            && conn.room == was.room && conn.received == was.received
            && conn.buf == (if reached && |was.buf| < 256 then was.buf + [e.msg] else was.buf)
            && conn.closed == (was.closed || (reached && |was.buf| == 256))
            && (c in t.clients <==> c in s.clients && !(reached && |was.buf| == 256))
  {
    assert ConnOk(s, c);
    if c in s.clients {
      TargetsAreAddressees(s, e, c);
    } else {
      assert c !in Targets(s, e);
    }
  }

  /** Without room broadcasts each connection's stream is a contiguous slice of the broadcast log. */
  lemma StreamsAreSlices(run: seq<Step>, c: nat)
    requires ValidRun(Empty, run) && NoRoomSends(run) && c < |Final(Empty, run).conns|
    ensures var t := Final(Empty, run); var conn := t.conns[c];
            && conn.joined <= End(t, c) <= |Sent(run)|
            && conn.received + conn.buf == Messages(Sent(run))[conn.joined..End(t, c)]
            && (c in t.clients ==> End(t, c) == |Sent(run)|)
            && (c in t.evicted ==> c !in t.clients && End(t, c) < |Sent(run)|)
  {
    NoPanicWithoutRoomSends(Empty, run);
    StreamsAreExact(run, c);
    var t := Final(Empty, run);
    var slice := Sent(run)[t.conns[c].joined..End(t, c)];
    AddressedToAll(slice, t.conns[c].room);
    assert Messages(slice) == Messages(Sent(run))[t.conns[c].joined..End(t, c)];
  }

  // -------------------------------------------------------- channel safety

  ghost predicate EvictedFrom(s: State, room: string) {
    exists c :: c in s.evicted && c < |s.conns| && s.conns[c].room == room
  }

  /**
   When a reachable hub sends on a closed channel: exactly in a room broadcast to a room
   from which some connection has been evicted.  No other step panics.
   */
  lemma PanicsExactlyOnEvictedRooms(s: State, e: Step)
    requires Inv(s) && Enabled(s, e)
    ensures Apply(s, e).panicked <==> e.Send? && e.entry.ToRoom? && EvictedFrom(s, e.entry.room)
  {
    match e
    case Unregister(c) => UnregisterKeepsInv(s, c);
    case Send(entry) =>
      var targets := Targets(s, entry);
      if c :| c in targets && c < |s.conns| && s.conns[c].closed {
        assert ConnOk(s, c);
      }
      if entry.ToRoom? && EvictedFrom(s, entry.room) {
        var c :| c in s.evicted && c < |s.conns| && s.conns[c].room == entry.room;
        assert ConnOk(s, c) && c in s.clients + s.evicted;
        assert c in targets && s.conns[c].closed;
      }
    case _ =>
  }

  lemma {:induction false} NoPanicWithoutRoomSends(s: State, run: seq<Step>)
    requires Inv(s) && !s.panicked && ValidRun(s, run) && NoRoomSends(run)
    ensures !Final(s, run).panicked
    decreases |run|
  {
    if run != [] {
      StepKeepsInv(s, run[0]);
      assert run[0].Send? ==> run[0].entry in Sent(run);
      PanicsExactlyOnEvictedRooms(s, run[0]);
      NoPanicWithoutRoomSends(Apply(s, run[0]), run[1..]);
    }
  }

  /** Nothing undoes an eviction: from then on every broadcast to that room panics. */
  lemma {:induction false} EvictionIsForever(s: State, run: seq<Step>, room: string)
    requires Inv(s) && ValidRun(s, run) && EvictedFrom(s, room)
    ensures EvictedFrom(Final(s, run), room)
    ensures !Final(s, run).panicked ==> forall msg :: Apply(Final(s, run), Send(ToRoom(room, msg))).panicked
    decreases |run|
  {
    if run != [] {
      StepKeepsInv(s, run[0]);
      var c :| c in s.evicted && c < |s.conns| && s.conns[c].room == room;
      assert c in Apply(s, run[0]).evicted && Apply(s, run[0]).conns[c].room == room;
      EvictionIsForever(Apply(s, run[0]), run[1..], room);
    } else if !s.panicked {
      forall msg ensures Apply(s, Send(ToRoom(room, msg))).panicked {
        PanicsExactlyOnEvictedRooms(s, Send(ToRoom(room, msg)));
      }
    }
  }

  /** A run of one registration and n broadcasts that nobody drains. */
  function Flood(n: nat): seq<Step> {
    [Register("room")] + seq(n, _ => Send(ToAll("m")))
  }

  lemma {:induction false} FloodFillsQueue(n: nat)
    requires n <= CAPACITY
    ensures ValidRun(Empty, Flood(n))
    ensures var t := Final(Empty, Flood(n));
            && !t.panicked && t.clients == {0} && t.evicted == {}
            && |t.conns| == 1 && t.conns[0].room == "room" && |t.conns[0].buf| == n
  {
    if n == 0 {
      assert Flood(0) == [] + [Register("room")];
      RunAppend(Empty, [], Register("room"));
    } else {
      FloodFillsQueue(n - 1);
      assert Flood(n) == Flood(n - 1) + [Send(ToAll("m"))];
      RunAppend(Empty, Flood(n - 1), Send(ToAll("m")));
      RunKeepsInv(Empty, Flood(n - 1));
      assert ConnOk(Final(Empty, Flood(n - 1)), 0);
    }
  }

  /** The hub can crash: flood one connection past its queue, then broadcast to its room. */
  lemma RoomSendCanPanic()
    ensures var run := Flood(CAPACITY + 1) + [Send(ToRoom("room", "m"))];
            ValidRun(Empty, run) && Final(Empty, run).panicked
  {
    FloodFillsQueue(CAPACITY);
    var t := Final(Empty, Flood(CAPACITY));
    RunKeepsInv(Empty, Flood(CAPACITY));
    assert ConnOk(t, 0);
    assert Flood(CAPACITY + 1) == Flood(CAPACITY) + [Send(ToAll("m"))];
    RunAppend(Empty, Flood(CAPACITY), Send(ToAll("m")));
    var u := Apply(t, Send(ToAll("m")));
    assert u.evicted == {0} && u.conns[0].room == "room";
    StepKeepsInv(t, Send(ToAll("m")));
    PanicsExactlyOnEvictedRooms(u, Send(ToRoom("room", "m")));
    RunAppend(Empty, Flood(CAPACITY + 1), Send(ToRoom("room", "m")));
  }

  /** A channel is closed at most once, and once closed its stream never grows again. */
  lemma {:induction false} ClosedOnceAndFrozen(s: State, run: seq<Step>, c: nat)
    requires Inv(s) && ValidRun(s, run) && c < |s.conns|
    ensures c < |Final(s, run).conns| && Final(s, run).conns[c].closes <= 1
    ensures s.conns[c].closed ==>
              var conn := Final(s, run).conns[c];
              conn.closed && conn.received + conn.buf == s.conns[c].received + s.conns[c].buf
    decreases |run|
  {
    assert ConnOk(s, c);
    if run != [] {
      StepKeepsInv(s, run[0]);
      var t := Apply(s, run[0]);
      if run[0] == Drain(c) {
        assert t.conns[c].received + t.conns[c].buf == s.conns[c].received + s.conns[c].buf;
      }
      ClosedOnceAndFrozen(t, run[1..], c);
    }
  }

  // ------------------------------------------------------------ room index

  /**
   The room index of every reachable state: the live connections grouped by room, plus
   those evicted, which stay for good.  Until the first eviction it is exactly the live
   set grouped by room, and at no time does it hold an empty room.
   */
  lemma RoomIndexIsExact(run: seq<Step>, room: string, c: nat)
    requires ValidRun(Empty, run)
    ensures var t := Final(Empty, run);
            && (room in t.rooms && c in t.rooms[room] <==>
                c in t.clients + t.evicted && c < |t.conns| && t.conns[c].room == room)
            && (room in t.rooms ==> t.rooms[room] != {})
            && (t.evicted == {} ==>
                 (room in t.rooms && c in t.rooms[room] <==>
                  c in t.clients && c < |t.conns| && t.conns[c].room == room))
  {
    RunKeepsInv(Empty, run);
  }

  // ------------------------------------------------------- iteration order

  /** The loop body for one connection. */
  function OfferOne(s: State, c: nat, msg: Msg): State
    requires c < |s.conns|
  {
    var full := if Full(s.conns[c]) then {c} else {};
    s.(
      conns := s.conns[c := Offer(s.conns[c], msg, |s.log|)],
      clients := s.clients - full,
      evicted := s.evicted + full)
  }

  function OfferInOrder(s: State, order: seq<nat>, msg: Msg): State
    requires forall i :: 0 <= i < |order| ==> order[i] < |s.conns|
    decreases |order|
  {
    if order == [] then s else OfferInOrder(OfferOne(s, order[0], msg), order[1..], msg)
  }

  ghost predicate Enumerates(order: seq<nat>, targets: set<nat>) {
    && (forall c :: c in order <==> c in targets)
    && (forall i, j :: 0 <= i < j < |order| ==> order[i] != order[j])
  }

  lemma {:induction false} OfferInOrderIsOffered(s: State, order: seq<nat>, targets: set<nat>, msg: Msg)
    requires Enumerates(order, targets) && forall c :: c in targets ==> c < |s.conns|
    ensures forall i :: 0 <= i < |order| ==> order[i] < |s.conns|
    ensures OfferInOrder(s, order, msg) == s.(
      conns := Offered(s.conns, targets, msg, |s.log|),
      clients := s.clients - FullAmong(s.conns, targets),
      evicted := s.evicted + FullAmong(s.conns, targets))
    decreases |order|
  {
    if order == [] {
      assert Offered(s.conns, targets, msg, |s.log|) == s.conns;
      assert FullAmong(s.conns, targets) == {};
    } else {
      var c, rest := order[0], targets - {order[0]};
      assert c in order;
      var t := OfferOne(s, c, msg);
      assert forall d :: d in order <==> d == c || d in order[1..];
      OfferInOrderIsOffered(t, order[1..], rest, msg);
      assert Offered(t.conns, rest, msg, |s.log|) == Offered(s.conns, targets, msg, |s.log|);
      assert FullAmong(t.conns, rest) + (if Full(s.conns[c]) then {c} else {}) == FullAmong(s.conns, targets);
      assert t.clients - FullAmong(t.conns, rest) == s.clients - FullAmong(s.conns, targets);
      assert t.evicted + FullAmong(t.conns, rest) == s.evicted + FullAmong(s.conns, targets);
    }
  }

  /** A broadcast's result does not depend on the order in which Go ranges over the map. */
  lemma OrderIsIrrelevant(s: State, e: Entry, order: seq<nat>)
    requires Inv(s) && !HitsClosed(s, Targets(s, e)) && Enumerates(order, Targets(s, e))
    ensures (forall i :: 0 <= i < |order| ==> order[i] < |s.conns|)
            && OfferInOrder(s, order, e.msg).(log := s.log + [e]) == Deliver(s, e)
  {
    assert forall c :: c in s.clients ==> c in s.clients + s.evicted;
    OfferInOrderIsOffered(s, order, Targets(s, e), e.msg);
  }

  // ---------------------------------------------------------------- the hub

  class Hub {
    var clients: set<nat>
    var rooms: map<string, set<nat>>
    var conns: seq<Conn>
    var log: seq<Entry>
    var evicted: set<nat>
    var panicked: bool

    ghost function View(): State
      reads this
    {
      State(clients, rooms, conns, log, evicted, panicked)
    }

    constructor ()
      ensures View() == Empty && Inv(View())
    {
      clients, rooms, conns := {}, map[], [];
      log, evicted, panicked := [], {}, false;
    }

    method Register(room: string) returns (client: nat)
      requires Inv(View()) && !panicked
      modifies this
      ensures View() == Apply(old(View()), Step.Register(room)) && Inv(View())
      ensures client == old(|conns|) && clients == old(clients) + {client}
      ensures |conns| == client + 1 && conns[..client] == old(conns)
      ensures var conn := conns[client];
              conn.room == room && conn.buf == [] && conn.received == [] && !conn.closed && conn.joined == |log|
      ensures rooms == old(rooms)[room := (if room in old(rooms) then old(rooms)[room] else {}) + {client}]
      ensures log == old(log) && evicted == old(evicted) && !panicked
    {
      RegisterKeepsInv(View(), room);
      client := |conns|;
      conns := conns + [Conn(room, [], false, [], |log|, 0, 0)];
      clients := clients + {client};
      if room !in rooms {
        rooms := rooms[room := {}];
      }
      rooms := rooms[room := rooms[room] + {client}];
      assert rooms == AddToRoom(old(rooms), room, client);
    }

    method Unregister(client: nat)
      requires Inv(View()) && !panicked && client < |conns|
      modifies this
      ensures View() == Apply(old(View()), Step.Unregister(client)) && Inv(View())
      ensures client !in old(clients) ==> unchanged(this)
      ensures log == old(log) && evicted == old(evicted) && !panicked
      ensures client in old(clients) ==>
                var was, room := old(conns)[client], old(conns)[client].room;
                && clients == old(clients) - {client} && |conns| == |old(conns)|
                && (forall c :: 0 <= c < |conns| && c != client ==> conns[c] == old(conns)[c])
                && conns[client].closed && conns[client].buf == was.buf && conns[client].received == was.received
                && conns[client].room == room && conns[client].left == |log|
                && room in old(rooms)
                && rooms == if old(rooms)[room] == {client} then old(rooms) - {room}
                            else old(rooms)[room := old(rooms)[room] - {client}]
    {
      UnregisterKeepsInv(View(), client);
      if client in clients {
        var conn := conns[client];
        clients := clients - {client};
        if conn.room in rooms {
          var room := rooms[conn.room] - {client};
          rooms := rooms[conn.room := room];
          if room == {} {
            rooms := rooms - {conn.room};
          }
        }
        conns := conns[client := conn.(closed := true, left := |log|, closes := conn.closes + 1)];
        assert rooms == RemoveFromRoom(old(rooms), conn.room, client);
      }
    }

    /** The broadcast case of `Run`: any iteration order ends in the same state. */
    method BroadcastToAll(msg: Msg)
      requires Inv(View()) && !panicked
      modifies this
      ensures View() == Apply(old(View()), Send(ToAll(msg))) && Inv(View()) && !panicked
      ensures rooms == old(rooms) && log == old(log) + [ToAll(msg)] && |conns| == |old(conns)|
      ensures forall c: nat :: c < |conns| ==>
                var was, live := old(conns)[c], c in old(clients);
                && conns[c].room == was.room && conns[c].received == was.received
                && conns[c].buf == (if live && |was.buf| < 256 then was.buf + [msg] else was.buf)
                && conns[c].closed == (was.closed || (live && |was.buf| == 256))
                && (c in clients <==> live && |was.buf| != 256)
    {
      ghost var s := View();
      SendKeepsInv(s, ToAll(msg));
      PanicsExactlyOnEvictedRooms(s, Send(ToAll(msg)));
      assert forall c :: c in clients ==> c in s.clients + evicted;
      var ok := OfferAll(clients, msg);
      log := log + [ToAll(msg)];
      assert View() == Deliver(s, ToAll(msg));
      forall c: nat | c < |conns| {
        BroadcastReaches(s, ToAll(msg), c);
      }
    }

    /** Panics, part-way, exactly when the room index still names an evicted connection. */
    method BroadcastToRoom(room: string, msg: Msg)
      requires Inv(View()) && !panicked
      modifies this
      ensures panicked <==> EvictedFrom(old(View()), room)
      ensures !panicked ==> View() == Apply(old(View()), Send(ToRoom(room, msg))) && Inv(View())
      ensures rooms == old(rooms) && |conns| == |old(conns)|
      ensures !panicked ==> log == old(log) + [ToRoom(room, msg)]
      ensures !panicked ==> forall c: nat :: c < |conns| ==>
                var was, live := old(conns)[c], c in old(clients);
                var reached := live && was.room == room;
                && conns[c].room == was.room && conns[c].received == was.received
                && conns[c].buf == (if reached && |was.buf| < 256 then was.buf + [msg] else was.buf)
                && conns[c].closed == (was.closed || (reached && |was.buf| == 256))
                && (c in clients <==> live && !(reached && |was.buf| == 256))
    {
      ghost var s := View();
      SendKeepsInv(s, ToRoom(room, msg));
      PanicsExactlyOnEvictedRooms(s, Send(ToRoom(room, msg)));
      var ok := true;
      if room in rooms {
        ok := OfferAll(rooms[room], msg);
      }
      if ok {
        log := log + [ToRoom(room, msg)];
        assert View() == Deliver(s, ToRoom(room, msg));
        forall c: nat | c < |conns| {
          BroadcastReaches(s, ToRoom(room, msg), c);
        }
      } else {
        panicked := true;
      }
    }

    /** `for client := range targets` with its non-blocking send. */
    method OfferAll(targets: set<nat>, msg: Msg) returns (ok: bool)
      requires forall c :: c in targets ==> c < |conns|
      modifies this`conns, this`clients, this`evicted
      ensures |conns| == |old(conns)|
      ensures ok <==> !HitsClosed(old(View()), targets)
      ensures ok ==> conns == Offered(old(conns), targets, msg, |log|)
      ensures ok ==> clients == old(clients) - FullAmong(old(conns), targets)
      ensures ok ==> evicted == old(evicted) + FullAmong(old(conns), targets)
    {
      var todo := targets;
      while todo != {}
        invariant todo <= targets && |conns| == |old(conns)|
        invariant forall c :: c in targets - todo ==> !old(conns[c].closed)
        invariant forall i :: 0 <= i < |conns| ==>
                    conns[i] == if i in targets - todo then Offer(old(conns)[i], msg, |log|) else old(conns)[i]
        invariant clients == old(clients) - FullAmong(old(conns), targets - todo)
        invariant evicted == old(evicted) + FullAmong(old(conns), targets - todo)
      {
        var c :| c in todo;
        assert FullAmong(old(conns), targets - (todo - {c}))
            == FullAmong(old(conns), targets - todo) + (if Full(old(conns)[c]) then {c} else {});
        todo := todo - {c};
        if conns[c].closed {
          return false;
        }
        if |conns[c].buf| < CAPACITY {
          conns := conns[c := conns[c].(buf := conns[c].buf + [msg])];
        } else {
          conns := conns[c := conns[c].(closed := true, left := |log|, closes := conns[c].closes + 1)];
          clients := clients - {c};
          evicted := evicted + {c};
        }
      }
      assert targets - todo == targets;
      return true;
    }

    /** One receive of the write pump. */
    method Drain(client: nat) returns (msg: Msg)
      requires Inv(View()) && !panicked && client < |conns| && conns[client].buf != []
      modifies this
      ensures View() == Apply(old(View()), Step.Drain(client)) && Inv(View())
      ensures [msg] + conns[client].buf == old(conns[client].buf)
      ensures conns[client].received == old(conns[client].received) + [msg]
      ensures conns == old(conns)[client := old(conns)[client].(
                buf := conns[client].buf, received := conns[client].received)]
      ensures clients == old(clients) && rooms == old(rooms) && log == old(log) && evicted == old(evicted) && !panicked
    {
      DrainKeepsInv(View(), client);
      var conn := conns[client];
      msg := conn.buf[0];
      conns := conns[client := conn.(buf := conn.buf[1..], received := conn.received + [msg])];
    }
  }
}
