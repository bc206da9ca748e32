/**
 The WebSocket bridge: two pumps, one per direction, run concurrently until the first of them ends.
 A pump takes a message, converts it, sends it, and ends after a Close, at the end of its stream or
 when a send fails.
 */
module WebSocketBridge {
  import opened Wrappers

  datatype CloseFrame = CloseFrame(code: int, reason: string)

  /** A message of the server side of the bridge's own socket. */
  datatype AxumMessage =
    | Text(text: string) | Binary(data: seq<bv8>) | Ping(data: seq<bv8>) | Pong(data: seq<bv8>)
    | Close(frame: Option<CloseFrame>)

  /** A message of the upstream socket, which may also be a raw frame. */
  datatype TungsteniteMessage =
    | UText(text: string) | UBinary(data: seq<bv8>) | UPing(data: seq<bv8>) | UPong(data: seq<bv8>)
    | UClose(frame: Option<CloseFrame>) | UFrame(raw: seq<bv8>)

  function ToServer(m: AxumMessage): Option<TungsteniteMessage> {
    match m
    case Text(t) => Some(UText(t))
    case Binary(d) => Some(UBinary(d))
    case Ping(d) => Some(UPing(d))
    case Pong(d) => Some(UPong(d))
    case Close(f) => Some(UClose(f))
  }

  function ToClient(m: TungsteniteMessage): Option<AxumMessage> {
    match m
    case UText(t) => Some(Text(t))
    case UBinary(d) => Some(Binary(d))
    case UPing(d) => Some(Ping(d))
    case UPong(d) => Some(Pong(d))
    case UClose(f) => Some(Close(f))
    case UFrame(_) => None
  }

  /** A message as a frame of section 5.2 of RFC 6455: its opcode and what it carries. */
  datatype Payload = Chars(text: string) | Octets(data: seq<bv8>) | Reason(frame: Option<CloseFrame>)

  datatype WireFrame = WireFrame(opcode: nat, payload: Payload)

  function AxumFrame(m: AxumMessage): WireFrame {
    match m
    case Text(t) => WireFrame(0x1, Chars(t))
    case Binary(d) => WireFrame(0x2, Octets(d))
    case Close(f) => WireFrame(0x8, Reason(f))
    case Ping(d) => WireFrame(0x9, Octets(d))
    case Pong(d) => WireFrame(0xA, Octets(d))
  }

  /** A raw frame has no frame of its own kind to be passed on as. */
  function TungsteniteFrame(m: TungsteniteMessage): Option<WireFrame> {
    match m
    case UText(t) => Some(WireFrame(0x1, Chars(t)))
    case UBinary(d) => Some(WireFrame(0x2, Octets(d)))
    case UClose(f) => Some(WireFrame(0x8, Reason(f)))
    case UPing(d) => Some(WireFrame(0x9, Octets(d)))
    case UPong(d) => Some(WireFrame(0xA, Octets(d)))
    case UFrame(_) => None
  }

  /** Conversion keeps opcode and payload in both directions, and drops exactly the raw frames. */
  lemma ConversionKeepsFrames(up: AxumMessage, down: TungsteniteMessage)
    ensures ToServer(up).Some? && TungsteniteFrame(ToServer(up).value) == Some(AxumFrame(up))
    ensures (ToClient(down).None? <==> down.UFrame?)
    ensures ToClient(down).Some? ==> Some(AxumFrame(ToClient(down).value)) == TungsteniteFrame(down)
  {
  }

  /** What a direction does with a message: drop it, pass it on, or pass it on and end. */
  datatype Direction<!I, !O> = Direction(convert: I -> Option<O>, closes: O -> bool)

  const CLIENT_TO_SERVER: Direction<AxumMessage, TungsteniteMessage> :=
    Direction(ToServer, (m: TungsteniteMessage) => m.UClose?)
  const SERVER_TO_CLIENT: Direction<TungsteniteMessage, AxumMessage> :=
    Direction(ToClient, (m: AxumMessage) => m.Close?)

  // ---- One pump as a machine over its await points ----

  datatype Phase<O> = Receiving | Sending(message: O) | Finished

  datatype Pump<I, O> = Pump(taken: seq<I>, sent: seq<O>, phase: Phase<O>)

  datatype Event<I> = Next(message: I) | StreamEnds | SendSucceeds | SendFails

  const IDLE_AXUM: Pump<AxumMessage, TungsteniteMessage> := Pump([], [], Receiving)
  const IDLE_TUNGSTENITE: Pump<TungsteniteMessage, AxumMessage> := Pump([], [], Receiving)

  /** One event; an event that does not fit the phase cannot happen and changes nothing. */
  function Step<I, O>(d: Direction<I, O>, p: Pump<I, O>, e: Event<I>): Pump<I, O> {
    match (p.phase, e)
    case (Receiving, Next(m)) =>
      (match d.convert(m)
       case None => p.(taken := p.taken + [m])
       case Some(o) => Pump(p.taken + [m], p.sent, Sending(o)))
    case (Receiving, StreamEnds) => p.(phase := Finished)
    case (Sending(o), SendSucceeds) => Pump(p.taken, p.sent + [o], if d.closes(o) then Finished else Receiving)
    case (Sending(o), SendFails) => p.(phase := Finished)
    case _ => p
  }

  /** The messages a direction owes for what it has taken. */
  function Converted<I, O>(d: Direction<I, O>, taken: seq<I>): seq<O> {
    if taken == [] then []
    else
      Converted(d, taken[..|taken| - 1])
      + match d.convert(taken[|taken| - 1])
        case None => []
        case Some(o) => [o]
  }

  ghost predicate ClosesOnlyLast<I, O>(d: Direction<I, O>, s: seq<O>) {
    forall i :: 0 <= i < |s| - 1 ==> !d.closes(s[i])
  }

  /** What was sent is what was owed, in order, up to one message; nothing is taken or sent after a Close. */
  ghost predicate Faithful<I, O>(d: Direction<I, O>, p: Pump<I, O>) {
    var owed := Converted(d, p.taken);
    && p.sent <= owed
    && |owed| <= |p.sent| + 1
    && ClosesOnlyLast(d, owed)
    && (p.phase.Receiving? ==> p.sent == owed && forall i :: 0 <= i < |owed| ==> !d.closes(owed[i]))
    && (p.phase.Sending? ==> p.sent + [p.phase.message] == owed)
  }

  lemma StepFaithful<I, O>(d: Direction<I, O>, p: Pump<I, O>, e: Event<I>)
    requires Faithful(d, p)
    ensures Faithful(d, Step(d, p, e))
  {
    match (p.phase, e)
    case (Receiving, Next(m)) =>
      assert (p.taken + [m])[..|p.taken|] == p.taken;
      assert Converted(d, p.taken) + [] == Converted(d, p.taken);
    case _ =>
  }

  /** Once a Close has been taken the pump takes nothing more and sends at most that Close. */
  lemma {:induction false} AfterClose<I, O>(d: Direction<I, O>, p: Pump<I, O>, e: Event<I>)
    requires Faithful(d, p)
    requires var owed := Converted(d, p.taken); owed != [] && d.closes(owed[|owed| - 1])
    ensures Step(d, p, e).taken == p.taken
    ensures Step(d, p, e).sent <= Converted(d, p.taken)
  {
    StepFaithful(d, p, e);
    var owed := Converted(d, p.taken);
    assert !p.phase.Receiving?;
  }

  // ---- The bridge: both pumps under any schedule ----

  datatype Bridge = Bridge(
    up: Pump<AxumMessage, TungsteniteMessage>,
    down: Pump<TungsteniteMessage, AxumMessage>)

  datatype BridgeEvent = Up(e: Event<AxumMessage>) | Down(d: Event<TungsteniteMessage>)

  /** `select!` ends the bridge as soon as one pump has finished; the other is dropped where it stands. */
  function BridgeStep(b: Bridge, e: BridgeEvent): Bridge {
    if b.up.phase.Finished? || b.down.phase.Finished? then b
    else
      match e
      case Up(u) => b.(up := Step(CLIENT_TO_SERVER, b.up, u))
      case Down(u) => b.(down := Step(SERVER_TO_CLIENT, b.down, u))
  }

  function BridgeRun(schedule: seq<BridgeEvent>): Bridge {
    if schedule == [] then Bridge(IDLE_AXUM, IDLE_TUNGSTENITE)
    else BridgeStep(BridgeRun(schedule[..|schedule| - 1]), schedule[|schedule| - 1])
  }

  /** A pump through a list of events. */
  function PumpRun<I, O>(d: Direction<I, O>, p: Pump<I, O>, events: seq<Event<I>>): Pump<I, O> {
    if |events| == 0 then p else Step(d, PumpRun(d, p, events[..|events| - 1]), events[|events| - 1])
  }

  function Ups(schedule: seq<BridgeEvent>): seq<Event<AxumMessage>> {
    if schedule == [] then []
    else
      var last := schedule[|schedule| - 1];
      Ups(schedule[..|schedule| - 1]) + if last.Up? then [last.e] else []
  }

  function Downs(schedule: seq<BridgeEvent>): seq<Event<TungsteniteMessage>> {
    if schedule == [] then []
    else
      var last := schedule[|schedule| - 1];
      Downs(schedule[..|schedule| - 1]) + if last.Down? then [last.d] else []
  }

  /** The two pumps, each through its own events of a schedule. */
  function TwoPumps(schedule: seq<BridgeEvent>): Bridge {
    Bridge(PumpRun(CLIENT_TO_SERVER, IDLE_AXUM, Ups(schedule)),
           PumpRun(SERVER_TO_CLIENT, IDLE_TUNGSTENITE, Downs(schedule)))
  }

  ghost predicate BothRun(schedule: seq<BridgeEvent>) {
    !TwoPumps(schedule).up.phase.Finished? && !TwoPumps(schedule).down.phase.Finished?
  }

  lemma TwoPumpsStep(schedule: seq<BridgeEvent>)
    requires schedule != [] && BothRun(schedule[..|schedule| - 1])
    ensures TwoPumps(schedule) == BridgeStep(TwoPumps(schedule[..|schedule| - 1]), schedule[|schedule| - 1])
  {
    hide Step;
    var before := schedule[..|schedule| - 1];
    var ups, downs := Ups(before), Downs(before);
    match schedule[|schedule| - 1]
    case Up(e) => assert (ups + [e])[..|ups|] == ups && downs + [] == downs;
    case Down(d) => assert (downs + [d])[..|downs|] == downs && ups + [] == ups;
  }

  /** The bridge is its two pumps, neither waiting for the other, up to the event with which one of them ends. */
  lemma {:induction false} BridgeIsTwoPumps(schedule: seq<BridgeEvent>) returns (i: nat)
    ensures i <= |schedule| && BridgeRun(schedule) == TwoPumps(schedule[..i])
    ensures forall j :: 0 <= j < i ==> BothRun(schedule[..j])
    ensures i == |schedule| || !BothRun(schedule[..i])
  {
    hide Step, TwoPumps;
    if schedule == [] {
      i := 0;
      assert BridgeRun([]) == TwoPumps([]) by { NoEvents(); }
    } else {
      var n := |schedule| - 1;
      i := BridgeIsTwoPumps(schedule[..n]);
      assert forall j :: 0 <= j <= n ==> schedule[..n][..j] == schedule[..j];
      if i == n && BothRun(schedule[..n]) {
        i := n + 1;
        assert schedule[..n + 1] == schedule;
        TwoPumpsStep(schedule);
      }
    }
  }

  lemma NoEvents()
    ensures BridgeRun([]) == TwoPumps([])
  {
  }

  /** In every interleaving both directions are faithful. */
  lemma {:induction false} BridgeFaithful(schedule: seq<BridgeEvent>)
    ensures Faithful(CLIENT_TO_SERVER, BridgeRun(schedule).up)
    ensures Faithful(SERVER_TO_CLIENT, BridgeRun(schedule).down)
  {
    if schedule != [] {
      var before, e := BridgeRun(schedule[..|schedule| - 1]), schedule[|schedule| - 1];
      BridgeFaithful(schedule[..|schedule| - 1]);
      match e
      case Up(u) => StepFaithful(CLIENT_TO_SERVER, before.up, u);
      case Down(u) => StepFaithful(SERVER_TO_CLIENT, before.down, u);
    }
  }

  /** Nothing already sent is ever taken back: what a peer sees only grows along a run. */
  lemma {:induction false} BridgeGrows(schedule: seq<BridgeEvent>, more: seq<BridgeEvent>)
    ensures BridgeRun(schedule).up.sent <= BridgeRun(schedule + more).up.sent
    ensures BridgeRun(schedule).down.sent <= BridgeRun(schedule + more).down.sent
  {
    if more == [] {
      assert schedule + more == schedule;
    } else {
      BridgeGrows(schedule, more[..|more| - 1]);
      assert (schedule + more)[..|schedule + more| - 1] == schedule + more[..|more| - 1];
    }
  }

  /**
   After a Close has been sent in a direction, every continuation of the run sends nothing more in that
   direction, and the bridge takes no further message in either.
   */
  lemma {:induction false} CloseEndsBridge(schedule: seq<BridgeEvent>, more: seq<BridgeEvent>)
    requires var b := BridgeRun(schedule);
      || (b.up.sent != [] && b.up.sent[|b.up.sent| - 1].UClose?)
      || (b.down.sent != [] && b.down.sent[|b.down.sent| - 1].Close?)
    ensures BridgeRun(schedule + more) == BridgeRun(schedule)
  {
    if more == [] {
      assert schedule + more == schedule;
    } else {
      CloseEndsBridge(schedule, more[..|more| - 1]);
      assert (schedule + more)[..|schedule + more| - 1] == schedule + more[..|more| - 1];
      BridgeFaithful(schedule);
    }
  }

  // ---- One pump left alone on its stream ----

  /** Taking one message and, if it is to be passed on, sending it. */
  function Relay<I, O>(d: Direction<I, O>, p: Pump<I, O>, m: I, accepts: nat -> bool): Pump<I, O> {
    var next := Step(d, p, Next(m));
    if next.phase.Sending? then Step(d, next, if accepts(|next.sent|) then SendSucceeds else SendFails) else next
  }

  /** A pump left alone: it takes the stream's messages in turn, the k-th send succeeding if `accepts(k)`. */
  function Alone<I, O>(d: Direction<I, O>, p: Pump<I, O>, incoming: seq<I>, accepts: nat -> bool): Pump<I, O>
    decreases |incoming|
  {
    if incoming == [] then Step(d, p, StreamEnds)
    else
      var next := Relay(d, p, incoming[0], accepts);
      if next.phase.Receiving? then Alone(d, next, incoming[1..], accepts) else next
  }

  /** Why a pump ended: its stream was used up, it passed on a Close, or a send failed. */
  ghost predicate Ended<I, O>(d: Direction<I, O>, r: Pump<I, O>, stream: seq<I>, accepts: nat -> bool) {
    || (r.taken == stream && r.sent == Converted(d, stream))
    || (r.sent != [] && d.closes(r.sent[|r.sent| - 1]))
    || (|r.sent| < |Converted(d, r.taken)| && !accepts(|r.sent|))
  }

  lemma RelayFaithful<I, O>(d: Direction<I, O>, p: Pump<I, O>, m: I, accepts: nat -> bool)
    requires Faithful(d, p) && p.phase.Receiving?
    ensures var r := Relay(d, p, m, accepts);
      && Faithful(d, r) && r.taken == p.taken + [m] && !r.phase.Sending?
      && p.sent <= r.sent && (forall k :: |p.sent| <= k < |r.sent| ==> accepts(k))
      && (r.phase.Finished? ==> forall stream :: Ended(d, r, stream, accepts))
  {
    var next := Step(d, p, Next(m));
    StepFaithful(d, p, Next(m));
    if next.phase.Sending? {
      StepFaithful(d, next, if accepts(|next.sent|) then SendSucceeds else SendFails);
    }
  }

  /** A pump left alone is faithful, and ends only at a Close, a failed send or the end of its stream. */
  lemma {:induction false} AloneFaithful<I, O>(d: Direction<I, O>, p: Pump<I, O>, incoming: seq<I>,
                                               accepts: nat -> bool)
    requires Faithful(d, p) && p.phase.Receiving?
    ensures var r := Alone(d, p, incoming, accepts);
      && Faithful(d, r) && r.phase.Finished? && p.taken <= r.taken <= p.taken + incoming
      && p.sent <= r.sent && (forall k :: |p.sent| <= k < |r.sent| ==> accepts(k))
      && Ended(d, r, p.taken + incoming, accepts)
    decreases |incoming|
  {
    if incoming == [] {
      assert p.taken + incoming == p.taken;
    } else {
      var next := Relay(d, p, incoming[0], accepts);
      RelayFaithful(d, p, incoming[0], accepts);
      assert next.taken + incoming[1..] == p.taken + incoming;
      if next.phase.Receiving? {
        AloneFaithful(d, next, incoming[1..], accepts);
      }
    }
  }

  // ---- The same, told by the messages themselves ----

  /** What the upstream server is owed: every message of the client, in order. */
  function ToServerAll(messages: seq<AxumMessage>): (r: seq<TungsteniteMessage>)
    ensures |r| == |messages|
  {
    if messages == [] then []
    else
      ToServerAll(messages[..|messages| - 1])
      + [match messages[|messages| - 1]
         case Text(t) => UText(t)
         case Binary(d) => UBinary(d)
         case Ping(d) => UPing(d)
         case Pong(d) => UPong(d)
         case Close(f) => UClose(f)]
  }

  /** What the client is owed: every message of the server but raw frames, in order. */
  function ToClientAll(messages: seq<TungsteniteMessage>): seq<AxumMessage> {
    if messages == [] then []
    else
      ToClientAll(messages[..|messages| - 1])
      + match messages[|messages| - 1]
        case UText(t) => [Text(t)]
        case UBinary(d) => [Binary(d)]
        case UPing(d) => [Ping(d)]
        case UPong(d) => [Pong(d)]
        case UClose(f) => [Close(f)]
        case UFrame(_) => []
  }

  lemma {:induction false} OwedToServer(taken: seq<AxumMessage>)
    ensures Converted(CLIENT_TO_SERVER, taken) == ToServerAll(taken)
    ensures (forall m :: m in taken ==> !m.Close?) ==> forall o :: o in ToServerAll(taken) ==> !o.UClose?
  {
    if taken != [] {
      OwedToServer(taken[..|taken| - 1]);
      assert taken == taken[..|taken| - 1] + [taken[|taken| - 1]];
    }
  }

  lemma {:induction false} OwedToClient(taken: seq<TungsteniteMessage>)
    ensures Converted(SERVER_TO_CLIENT, taken) == ToClientAll(taken)
    ensures (forall m :: m in taken ==> !m.UClose?) ==> forall o :: o in ToClientAll(taken) ==> !o.Close?
  {
    if taken != [] {
      OwedToClient(taken[..|taken| - 1]);
      assert taken == taken[..|taken| - 1] + [taken[|taken| - 1]];
    }
  }

  lemma AloneIsServed<I, O>(d: Direction<I, O>, idle: Pump<I, O>, incoming: seq<I>, accepts: nat -> bool)
    requires idle == Pump([], [], Receiving)
    ensures var r := Alone(d, idle, incoming, accepts); var owed := Converted(d, r.taken);
      && r.phase.Finished? && r.taken <= incoming && r.sent <= owed && |owed| <= |r.sent| + 1
      && (forall k :: 0 <= k < |r.sent| ==> accepts(k))
      && (r.sent != [] ==> r.sent[|r.sent| - 1] in owed)
      && (|| (r.taken == incoming && r.sent == owed)
          || (r.sent != [] && d.closes(r.sent[|r.sent| - 1]))
          || (r.sent < owed && !accepts(|r.sent|)))
  {
    AloneFaithful(d, idle, incoming, accepts);
    hide Alone, Converted;
    assert [] + incoming == incoming;
    var r := Alone(d, idle, incoming, accepts);
    if r.sent != [] {
      assert r.sent[|r.sent| - 1] == Converted(d, r.taken)[|r.sent| - 1];
    }
  }

  /**
   What the client's pump has done when it ends: it sent a prefix of what it owes for what it took, at most one
   message short, and each of these sends was accepted; the whole stream was sent, or a Close was, or the next
   send failed. With neither a Close nor a failure everything is sent.
   */
  ghost predicate ClientServed(incoming: seq<AxumMessage>, accepts: nat -> bool, taken: seq<AxumMessage>,
                               sent: seq<TungsteniteMessage>)
  {
    var owed := ToServerAll(taken);
    && taken <= incoming && sent <= owed && |owed| <= |sent| + 1
    && (forall k :: 0 <= k < |sent| ==> accepts(k))
    && (|| (taken == incoming && sent == owed)
        || (sent != [] && sent[|sent| - 1].UClose?)
        || (sent < owed && !accepts(|sent|)))
  }

  lemma ClientIsServed(incoming: seq<AxumMessage>, accepts: nat -> bool)
    ensures var r := Alone(CLIENT_TO_SERVER, IDLE_AXUM, incoming, accepts);
      && r.phase.Finished? && ClientServed(incoming, accepts, r.taken, r.sent)
      && ((forall m :: m in incoming ==> !m.Close?) && (forall k :: accepts(k))
          ==> r.taken == incoming && r.sent == ToServerAll(incoming))
  {
    hide Alone, Converted, ToServerAll, Step;
    var r := Alone(CLIENT_TO_SERVER, IDLE_AXUM, incoming, accepts);
    AloneIsServed(CLIENT_TO_SERVER, IDLE_AXUM, incoming, accepts);
    OwedToServer(r.taken);
    if r.sent != [] && forall m :: m in incoming ==> !m.Close? {
      forall m | m in r.taken ensures !m.Close? {
        assert m in incoming;
      }
      assert r.sent[|r.sent| - 1] in ToServerAll(r.taken);
    }
  }

  /** The same for the server's pump. */
  ghost predicate ServerServed(incoming: seq<TungsteniteMessage>, accepts: nat -> bool, taken: seq<TungsteniteMessage>,
                               sent: seq<AxumMessage>)
  {
    var owed := ToClientAll(taken);
    && taken <= incoming && sent <= owed && |owed| <= |sent| + 1
    && (forall k :: 0 <= k < |sent| ==> accepts(k))
    && (|| (taken == incoming && sent == owed)
        || (sent != [] && sent[|sent| - 1].Close?)
        || (sent < owed && !accepts(|sent|)))
  }

  lemma ServerIsServed(incoming: seq<TungsteniteMessage>, accepts: nat -> bool)
    ensures var r := Alone(SERVER_TO_CLIENT, IDLE_TUNGSTENITE, incoming, accepts);
      && r.phase.Finished? && ServerServed(incoming, accepts, r.taken, r.sent)
      && ((forall m :: m in incoming ==> !m.UClose?) && (forall k :: accepts(k))
          ==> r.taken == incoming && r.sent == ToClientAll(incoming))
  {
    hide Alone, Converted, ToClientAll, Step;
    var r := Alone(SERVER_TO_CLIENT, IDLE_TUNGSTENITE, incoming, accepts);
    AloneIsServed(SERVER_TO_CLIENT, IDLE_TUNGSTENITE, incoming, accepts);
    OwedToClient(r.taken);
    if r.sent != [] && forall m :: m in incoming ==> !m.UClose? {
      forall m | m in r.taken ensures !m.UClose? {
        assert m in incoming;
      }
      assert r.sent[|r.sent| - 1] in ToClientAll(r.taken);
    }
  }

  // ---- The source's two loops ----

  method ClientToServer(incoming: seq<AxumMessage>, accepts: nat -> bool)
    returns (taken: nat, sent: seq<TungsteniteMessage>)
    ensures taken <= |incoming|
    ensures Pump(incoming[..taken], sent, Finished) == Alone(CLIENT_TO_SERVER, IDLE_AXUM, incoming, accepts)
    ensures ClientServed(incoming, accepts, incoming[..taken], sent)
  {
    hide ClientServed;
    ghost var alone := Alone(CLIENT_TO_SERVER, IDLE_AXUM, incoming, accepts);
    assert ClientServed(incoming, accepts, alone.taken, alone.sent) by {
      ClientIsServed(incoming, accepts);
    }
    taken, sent := 0, [];
    while taken < |incoming|
      invariant taken <= |incoming|
      invariant Alone(CLIENT_TO_SERVER, Pump(incoming[..taken], sent, Receiving), incoming[taken..], accepts)
             == Alone(CLIENT_TO_SERVER, IDLE_AXUM, incoming, accepts)
    {
      var message := incoming[taken];
      assert incoming[..taken] + [message] == incoming[..taken + 1] && incoming[taken..][1..] == incoming[taken + 1..];
      taken := taken + 1;
      var upstream;
      match message {
        case Text(t) => upstream := UText(t);
        case Binary(d) => upstream := UBinary(d);
        case Ping(d) => upstream := UPing(d);
        case Pong(d) => upstream := UPong(d);
        case Close(f) =>
          if accepts(|sent|) {
            sent := sent + [UClose(f)];
          }
          return;
      }
      if !accepts(|sent|) {
        return;
      }
      sent := sent + [upstream];
    }
  }

  method ServerToClient(incoming: seq<TungsteniteMessage>, accepts: nat -> bool)
    returns (taken: nat, sent: seq<AxumMessage>)
    ensures taken <= |incoming|
    ensures Pump(incoming[..taken], sent, Finished) == Alone(SERVER_TO_CLIENT, IDLE_TUNGSTENITE, incoming, accepts)
    ensures ServerServed(incoming, accepts, incoming[..taken], sent)
  {
    hide ServerServed;
    ghost var alone := Alone(SERVER_TO_CLIENT, IDLE_TUNGSTENITE, incoming, accepts);
    assert ServerServed(incoming, accepts, alone.taken, alone.sent) by {
      ServerIsServed(incoming, accepts);
    }
    taken, sent := 0, [];
    while taken < |incoming|
      invariant taken <= |incoming|
      invariant Alone(SERVER_TO_CLIENT, Pump(incoming[..taken], sent, Receiving), incoming[taken..], accepts)
             == Alone(SERVER_TO_CLIENT, IDLE_TUNGSTENITE, incoming, accepts)
    {
      var message := incoming[taken];
      assert incoming[..taken] + [message] == incoming[..taken + 1] && incoming[taken..][1..] == incoming[taken + 1..];
      taken := taken + 1;
      var downstream;
      match message {
        case UText(t) => downstream := Text(t);
        case UBinary(d) => downstream := Binary(d);
        case UPing(d) => downstream := Ping(d);
        case UPong(d) => downstream := Pong(d);
        case UClose(f) =>
          if accepts(|sent|) {
            sent := sent + [Close(f)];
          }
          return;
        case UFrame(_) =>
          continue;
      }
      if !accepts(|sent|) {
        return;
      }
      sent := sent + [downstream];
    }
  }
}
