/** The byte tunnel between the browser's SSH client and a host: WSTransport in the browser
    (web/wasm/sshclient/transport.go), TCPProxy on the server (internal/ssh/proxy.go), a WebSocket
    between them. Each event is what one goroutine or callback does without being interrupted. */
module TunnelModel {
  import opened Common

  datatype Frame = Text(text: string) | Binary(data: seq<Byte>)

  const BUFFER: nat := 4096
  const CONTROL_SLOTS: nat := 100

  function Payload(frames: seq<Frame>): (data: seq<Byte>) {
    if frames == [] then []
    else Payload(frames[..|frames| - 1]) + (match frames[|frames| - 1] case Binary(data) => data case Text(_) => [])
  }

  function Texts(frames: seq<Frame>): (texts: seq<string>) {
    if frames == [] then []
    else Texts(frames[..|frames| - 1]) + (match frames[|frames| - 1] case Binary(_) => [] case Text(text) => [text])
  }

  // ------------------------------------------------------------------ the browser's end

  // `open` is the socket's own state; `closed` is the transport's flag, which lags behind it.
  datatype Browser = Browser(readBuf: seq<Byte>, control: seq<string>, closed: bool, open: bool)

  function OnMessage(b: Browser, f: Frame): Browser {
    match f
    case Text(text) => b.(control := b.control + [text])
    case Binary(data) => b.(readBuf := b.readBuf + data)
  }

  function OnClose(b: Browser): Browser {
    b.(closed := true, open := false)
  }

  datatype ReadResult = Got(data: seq<Byte>) | Eof | Wait

  function Read(b: Browser, size: nat): ReadResult {
    if b.readBuf != [] then Got(if size < |b.readBuf| then b.readBuf[..size] else b.readBuf)
    else if b.closed then Eof
    else Wait
  }

  function AfterRead(b: Browser, size: nat): Browser {
    if size < |b.readBuf| then b.(readBuf := b.readBuf[size..]) else b.(readBuf := [])
  }

  // ------------------------------------------------------------------ the proxy's two loops

  datatype UpLoop = NextMessage | InMessage(rest: seq<Byte>) | UpReturned
  datatype DownLoop = Reading | Holding(chunk: seq<Byte>) | DownReturned

  datatype End = More | EndOfMessage | Broken

  // One turn of the inner loop: reader.Read gave n bytes, tcp.Write took `written` of them.
  datatype Chunk = Chunk(n: nat, written: nat, writeFails: bool, end: End)

  predicate ChunkFits(rest: seq<Byte>, c: Chunk) {
    && c.written <= c.n <= BUFFER && c.n <= |rest|
    && (!c.writeFails ==> c.written == c.n)
    && (c.writeFails ==> c.n > 0)
    && (c.end == EndOfMessage ==> c.n == |rest|)
  }

  datatype UpSide = UpSide(up: UpLoop, delivered: seq<Byte>, done: bool)

  function Forward(s: UpSide, c: Chunk): UpSide
    requires s.up.InMessage? && c.written <= |s.up.rest| && c.n <= |s.up.rest|
  {
    var up :=
      if c.writeFails || c.end == Broken then UpReturned
      else if c.end == EndOfMessage then NextMessage
      else InMessage(s.up.rest[c.n..]);
    UpSide(up, s.delivered + s.up.rest[..c.written], s.done || up.UpReturned?)
  }

  // ------------------------------------------------------------------ the whole tunnel

  /** The last four fields are the history: what Write accepted and the host's TCP connection was given;
      what the host sent and Read returned. `told` and `heard` are the server's control messages.
      A live direction is one on which what is sent still gets onto the wire. */
  datatype Tunnel = Tunnel(
    browser: Browser, upWire: seq<Frame>, downWire: seq<Frame>, upLive: bool, downLive: bool,
    up: UpLoop, down: DownLoop, done: bool, unread: seq<Byte>,
    told: seq<string>, heard: seq<string>,
    accepted: seq<Byte>, delivered: seq<Byte>, produced: seq<Byte>, received: seq<Byte>)

  datatype Event =
    // browser
    | Write(data: seq<Byte>) | SendText(text: string) | Receive | ReadBytes(size: nat) | TakeControl
    | Close | ServerCloses | SocketCloses
    // network
    | CutUp(kept: nat) | CutDown(kept: nat)
    // server
    | NextReader(ok: bool) | ReadChunk(chunk: Chunk) | UpSeesDone
    | TcpRead(n: nat, fails: bool) | WsWrite(ok: bool) | DownSeesDone
    | SendControl(message: string) | Cleanup
    // host
    | HostSends(bytes: seq<Byte>)

  ghost predicate Enabled(t: Tunnel, e: Event) {
    match e
    case Receive => t.browser.open && t.downWire != [] && (t.downWire[0].Text? ==> |t.browser.control| < CONTROL_SLOTS)
    case ReadBytes(size) => !Read(t.browser, size).Wait?
    case TakeControl => t.browser.control != []
    case CutUp(kept) => kept <= |t.upWire|
    case CutDown(kept) => kept <= |t.downWire|
    case NextReader(ok) => t.up.NextMessage? && (ok ==> t.upWire != [])
    case ReadChunk(c) => t.up.InMessage? && ChunkFits(t.up.rest, c)
    case UpSeesDone => t.up.NextMessage? && t.done
    case TcpRead(n, _) => t.down.Reading? && n <= BUFFER && n <= |t.unread|
    case WsWrite(_) => t.down.Holding?
    case DownSeesDone => t.down.Reading? && t.done
    case _ => true
  }

  ghost function Send(t: Tunnel, f: Frame): Tunnel {
    if t.browser.open && t.upLive then t.(upWire := t.upWire + [f]) else t
  }

  ghost function Step(t: Tunnel, e: Event): Tunnel
    requires Enabled(t, e)
  {
    match e
    // ws.send on a socket that is no longer open drops the bytes without a word.
    case Write(data) => if t.browser.closed then t else Send(t, Binary(data)).(accepted := t.accepted + data)
    case SendText(text) => Send(t, Text(text))
    case Receive => t.(browser := OnMessage(t.browser, t.downWire[0]), downWire := t.downWire[1..])
    case ReadBytes(size) =>
      var r := Read(t.browser, size);
      if r.Got? then t.(browser := AfterRead(t.browser, size), received := t.received + r.data) else t
    case TakeControl =>
      t.(browser := t.browser.(control := t.browser.control[1..]), heard := t.heard + [t.browser.control[0]])
    case Close => if t.browser.closed then t else t.(browser := OnClose(t.browser))
    // The socket is CLOSING from here on, but its close event is still to come.
    case ServerCloses => t.(browser := t.browser.(open := false))
    case SocketCloses => t.(browser := OnClose(t.browser))
    case CutUp(kept) => t.(upLive := false, upWire := t.upWire[..kept])
    case CutDown(kept) => t.(downLive := false, downWire := t.downWire[..kept])
    case NextReader(ok) =>
      if !ok then t.(up := UpReturned, done := true)
      else t.(upWire := t.upWire[1..],
              up := match t.upWire[0] case Text(_) => NextMessage case Binary(data) => InMessage(data))
    case ReadChunk(c) =>
      var s := Forward(UpSide(t.up, t.delivered, t.done), c);
      t.(up := s.up, delivered := s.delivered, done := s.done)
    case UpSeesDone => t.(up := UpReturned)
    case TcpRead(n, fails) =>
      t.(unread := t.unread[n..], down := if fails then DownReturned else Holding(t.unread[..n]), done := t.done || fails)
    case WsWrite(ok) =>
      if !ok then t.(down := DownReturned, done := true)
      else t.(down := Reading, downWire := if t.downLive then t.downWire + [Binary(t.down.chunk)] else t.downWire)
    case DownSeesDone => t.(down := DownReturned)
    case SendControl(m) =>
      t.(told := t.told + [m], downWire := if t.downLive then t.downWire + [Text(m)] else t.downWire)
    case Cleanup => t.(done := true)
    case HostSends(bytes) => t.(unread := t.unread + bytes, produced := t.produced + bytes)
  }

  ghost const START := Tunnel(Browser([], [], false, true), [], [], true, true, NextMessage, Reading, false, [],
                              [], [], [], [], [], [])

  ghost predicate Possible(es: seq<Event>)
    decreases |es|, 0
  {
    es == [] || (Possible(es[..|es| - 1]) && Enabled(Run(es[..|es| - 1]), es[|es| - 1]))
  }

  ghost function Run(es: seq<Event>): Tunnel
    requires Possible(es)
    decreases |es|, 1
  {
    if es == [] then START else Step(Run(es[..|es| - 1]), es[|es| - 1])
  }

  // ------------------------------------------------------------------ conservation

  function InHand(up: UpLoop): seq<Byte> {
    if up.InMessage? then up.rest else []
  }

  function Held(down: DownLoop): seq<Byte> {
    if down.Holding? then down.chunk else []
  }

  ghost function UpStream(t: Tunnel): seq<Byte> {
    t.delivered + InHand(t.up) + Payload(t.upWire)
  }

  ghost function DownStream(t: Tunnel): seq<Byte> {
    t.received + t.browser.readBuf + Payload(t.downWire)
  }

  ghost predicate UpInv(t: Tunnel) {
    && t.delivered <= t.accepted
    && (!t.up.UpReturned? ==> UpStream(t) <= t.accepted)
    && (!t.up.UpReturned? && t.browser.open && t.upLive ==> UpStream(t) == t.accepted)
  }

  ghost predicate DownInv(t: Tunnel) {
    && DownStream(t) <= t.produced
    && (!t.down.DownReturned? && t.downLive ==> DownStream(t) + Held(t.down) + t.unread == t.produced)
  }

  ghost predicate ControlInv(t: Tunnel) {
    && t.heard + t.browser.control + Texts(t.downWire) <= t.told
    && (t.downLive ==> t.heard + t.browser.control + Texts(t.downWire) == t.told)
    && |t.browser.control| <= 100
  }

  ghost predicate Inv(t: Tunnel) {
    UpInv(t) && DownInv(t) && ControlInv(t) && (t.browser.closed ==> !t.browser.open)
  }

  lemma SplitFrames(frames: seq<Frame>)
    requires |frames| > 1
    ensures frames[1..][..|frames| - 2] == frames[..|frames| - 1][1..]
    ensures frames[1..][|frames| - 2] == frames[|frames| - 1] && frames[..|frames| - 1][0] == frames[0]
  {
  }

  lemma {:induction false} FirstPayload(frames: seq<Frame>)
    requires frames != []
    ensures Payload(frames) == (if frames[0].Binary? then frames[0].data else []) + Payload(frames[1..])
  {
    if |frames| > 1 {
      FirstPayload(frames[..|frames| - 1]);
      SplitFrames(frames);
    }
  }

  lemma {:induction false} FirstText(frames: seq<Frame>)
    requires frames != []
    ensures Texts(frames) == (if frames[0].Text? then [frames[0].text] else []) + Texts(frames[1..])
  {
    if |frames| > 1 {
      FirstText(frames[..|frames| - 1]);
      SplitFrames(frames);
    }
  }

  lemma LastFrame(frames: seq<Frame>, f: Frame)
    ensures Payload(frames + [f]) == Payload(frames) + (if f.Binary? then f.data else [])
    ensures Texts(frames + [f]) == Texts(frames) + (if f.Text? then [f.text] else [])
  {
    assert (frames + [f])[..|frames|] == frames;
  }

  lemma {:induction false} KeptFrames(frames: seq<Frame>, kept: nat)
    requires kept <= |frames|
    ensures Payload(frames[..kept]) <= Payload(frames)
    ensures Texts(frames[..kept]) <= Texts(frames)
  {
    if kept < |frames| {
      var init := frames[..|frames| - 1];
      KeptFrames(init, kept);
      assert init[..kept] == frames[..kept];
    } else {
      assert frames[..kept] == frames;
    }
  }

  lemma PrefixTrans<T>(a: seq<T>, b: seq<T>, c: seq<T>)
    requires b <= c
    ensures a + b <= a + c
  {
    assert a + c == (a + b) + c[|b|..];
  }

  lemma UpSend(t: Tunnel, f: Frame)
    requires UpInv(t)
    requires f.Binary? ==> !t.browser.closed
    ensures UpInv(Step(t, if f.Binary? then Write(f.data) else SendText(f.text)))
  {
    LastFrame(t.upWire, f);
    if t.browser.open && t.upLive {
      assert t.delivered + InHand(t.up) + Payload(t.upWire + [f]) ==
             UpStream(t) + (if f.Binary? then f.data else []);
    }
  }

  lemma Extend(es: seq<Event>, e: Event)
    requires Possible(es) && Enabled(Run(es), e)
    ensures Possible(es + [e]) && Run(es + [e]) == Step(Run(es), e)
  {
    assert (es + [e])[..|es|] == es;
  }

  lemma WriteWhileClosing(t: Tunnel, data: seq<Byte>)
    requires !t.browser.open && !t.browser.closed
    ensures Step(t, Write(data)) == t.(accepted := t.accepted + data)
  {
  }

  /** And that can cost bytes: between the server's close and the close event Write goes on accepting
      what will never arrive. */
  lemma WritesAfterTheServersClose(data: seq<Byte>)
    ensures var es := [ServerCloses, Write(data)];
      Possible(es) && Run(es).accepted == data && Run(es).delivered + InHand(Run(es).up) + Payload(Run(es).upWire) == []
  {
    var closing := [] + [ServerCloses];
    Extend([], ServerCloses);
    assert Run(closing) == START.(browser := START.browser.(open := false));
    Extend(closing, Write(data));
    WriteWhileClosing(Run(closing), data);
    assert closing + [Write(data)] == [ServerCloses, Write(data)];
  }

  lemma UpCut(t: Tunnel, kept: nat)
    requires UpInv(t) && kept <= |t.upWire|
    ensures UpInv(Step(t, CutUp(kept)))
  {
    KeptFrames(t.upWire, kept);
    PrefixTrans(t.delivered + InHand(t.up), Payload(t.upWire[..kept]), Payload(t.upWire));
  }

  lemma Regrouped<T>(a: seq<T>, b: seq<T>, c: seq<T>)
    ensures a + b + c == a + (b + c)
  {
  }

  lemma UpNext(t: Tunnel)
    requires UpInv(t) && Enabled(t, NextReader(true))
    ensures UpInv(Step(t, NextReader(true)))
  {
    FirstPayload(t.upWire);
    var u := Step(t, NextReader(true));
    Regrouped(t.delivered, InHand(t.up), Payload(t.upWire));
    Regrouped(t.delivered, InHand(u.up), Payload(u.upWire));
    assert UpStream(u) == UpStream(t);
  }

  lemma Forwarded(delivered: seq<Byte>, rest: seq<Byte>, n: nat, wire: seq<Byte>)
    requires n <= |rest|
    ensures delivered + rest[..n] <= delivered + rest + wire
    ensures delivered + rest[..n] + rest[n..] + wire == delivered + rest + wire
    ensures n == |rest| ==> rest[n..] == [] && delivered + rest[..n] + [] + wire == delivered + rest + wire
  {
    assert rest == rest[..n] + rest[n..];
  }

  lemma UpChunk(t: Tunnel, c: Chunk)
    requires UpInv(t) && Enabled(t, ReadChunk(c))
    ensures UpInv(Step(t, ReadChunk(c)))
  {
    Forwarded(t.delivered, t.up.rest, c.written, Payload(t.upWire));
  }

  // Nothing moves on the way to the host, though its loop may give up and the socket may close.
  lemma UpRests(t: Tunnel, u: Tunnel)
    requires UpInv(t)
    requires u.delivered == t.delivered && u.accepted == t.accepted && u.upWire == t.upWire && u.upLive == t.upLive
    requires u.up == t.up || u.up.UpReturned?
    requires u.browser.open ==> t.browser.open
    ensures UpInv(u)
  {
  }

  predicate AtBrowser(e: Event) {
    e.Write? || e.SendText? || e.Receive? || e.ReadBytes? || e.TakeControl? || e.Close? || e.ServerCloses? ||
    e.SocketCloses? || e.CutUp? || e.CutDown?
  }

  lemma UpAtBrowser(t: Tunnel, e: Event)
    requires UpInv(t) && Enabled(t, e) && AtBrowser(e)
    ensures UpInv(Step(t, e))
  {
    if e.Write? && !t.browser.closed {
      UpSend(t, Binary(e.data));
    } else if e.SendText? {
      UpSend(t, Text(e.text));
    } else if e.CutUp? {
      UpCut(t, e.kept);
    } else {
      UpRests(t, Step(t, e));
    }
  }

  lemma UpAtServer(t: Tunnel, e: Event)
    requires UpInv(t) && Enabled(t, e) && !AtBrowser(e)
    ensures UpInv(Step(t, e))
  {
    if e == NextReader(true) {
      UpNext(t);
    } else if e.ReadChunk? {
      UpChunk(t, e.chunk);
    } else {
      UpRests(t, Step(t, e));
    }
  }

  lemma UpKeeps(t: Tunnel, e: Event)
    requires UpInv(t) && Enabled(t, e)
    ensures UpInv(Step(t, e))
  {
    if AtBrowser(e) {
      UpAtBrowser(t, e);
    } else {
      UpAtServer(t, e);
    }
  }

  lemma DownReceive(t: Tunnel)
    requires DownInv(t) && Enabled(t, Receive)
    ensures DownInv(Step(t, Receive))
  {
    FirstPayload(t.downWire);
    assert DownStream(Step(t, Receive)) == DownStream(t);
  }

  lemma ReadSplits(b: Browser, size: nat)
    requires b.readBuf != []
    ensures Read(b, size).Got? && Read(b, size).data + AfterRead(b, size).readBuf == b.readBuf
    ensures |Read(b, size).data| == if size < |b.readBuf| then size else |b.readBuf|
  {
  }

  lemma Moved<T>(a: seq<T>, b: seq<T>, c: seq<T>, d: seq<T>)
    ensures (a + b) + c + d == a + (b + c) + d
  {
  }

  lemma DownRead(t: Tunnel, size: nat)
    requires DownInv(t) && Enabled(t, ReadBytes(size))
    ensures DownInv(Step(t, ReadBytes(size)))
  {
    if t.browser.readBuf != [] {
      ReadSplits(t.browser, size);
      Moved(t.received, Read(t.browser, size).data, AfterRead(t.browser, size).readBuf, Payload(t.downWire));
    }
  }

  lemma DownCut(t: Tunnel, kept: nat)
    requires DownInv(t) && kept <= |t.downWire|
    ensures DownInv(Step(t, CutDown(kept)))
  {
    KeptFrames(t.downWire, kept);
    PrefixTrans(t.received + t.browser.readBuf, Payload(t.downWire[..kept]), Payload(t.downWire));
  }

  lemma DownTcpRead(t: Tunnel, n: nat, fails: bool)
    requires DownInv(t) && Enabled(t, TcpRead(n, fails))
    ensures DownInv(Step(t, TcpRead(n, fails)))
  {
    if !fails {
      assert DownStream(t) + t.unread[..n] + t.unread[n..] == DownStream(t) + Held(t.down) + t.unread;
    }
  }

  lemma DownWrite(t: Tunnel)
    requires DownInv(t) && Enabled(t, WsWrite(true))
    ensures DownInv(Step(t, WsWrite(true)))
  {
    LastFrame(t.downWire, Binary(t.down.chunk));
    if t.downLive {
      var u := Step(t, WsWrite(true));
      assert DownStream(u) == DownStream(t) + t.down.chunk;
      assert DownStream(u) + Held(u.down) + u.unread == t.produced;
    }
  }

  lemma DownHost(t: Tunnel, bytes: seq<Byte>)
    requires DownInv(t)
    ensures DownInv(Step(t, HostSends(bytes)))
  {
    assert DownStream(t) + Held(t.down) + (t.unread + bytes) == DownStream(t) + Held(t.down) + t.unread + bytes;
  }

  lemma DownControl(t: Tunnel, message: string)
    requires DownInv(t)
    ensures DownInv(Step(t, SendControl(message)))
  {
    LastFrame(t.downWire, Text(message));
    assert DownStream(Step(t, SendControl(message))) == DownStream(t);
  }

  // Nothing moves on the way to the browser, though its loop may give up.
  lemma DownRests(t: Tunnel, u: Tunnel)
    requires DownInv(t)
    requires u.received == t.received && u.browser.readBuf == t.browser.readBuf && u.downWire == t.downWire
    requires u.produced == t.produced && u.downLive == t.downLive
    requires (u.down == t.down && u.unread == t.unread) || u.down.DownReturned?
    ensures DownInv(u)
  {
  }

  lemma DownAtBrowser(t: Tunnel, e: Event)
    requires DownInv(t) && Enabled(t, e) && AtBrowser(e)
    ensures DownInv(Step(t, e))
  {
    if e.Receive? {
      DownReceive(t);
    } else if e.ReadBytes? {
      DownRead(t, e.size);
    } else if e.CutDown? {
      DownCut(t, e.kept);
    } else {
      DownRests(t, Step(t, e));
    }
  }

  lemma DownAtServer(t: Tunnel, e: Event)
    requires DownInv(t) && Enabled(t, e) && !AtBrowser(e)
    ensures DownInv(Step(t, e))
  {
    if e.TcpRead? {
      DownTcpRead(t, e.n, e.fails);
    } else if e == WsWrite(true) {
      DownWrite(t);
    } else if e.SendControl? {
      DownControl(t, e.message);
    } else if e.HostSends? {
      DownHost(t, e.bytes);
    } else {
      DownRests(t, Step(t, e));
    }
  }

  lemma DownKeeps(t: Tunnel, e: Event)
    requires DownInv(t) && Enabled(t, e)
    ensures DownInv(Step(t, e))
  {
    if AtBrowser(e) {
      DownAtBrowser(t, e);
    } else {
      DownAtServer(t, e);
    }
  }

  lemma ControlReceive(t: Tunnel)
    requires ControlInv(t) && Enabled(t, Receive)
    ensures ControlInv(Step(t, Receive))
  {
    var u := Step(t, Receive);
    FirstText(t.downWire);
    assert u.heard + u.browser.control + Texts(u.downWire) == t.heard + t.browser.control + Texts(t.downWire);
  }

  lemma ControlTake(t: Tunnel)
    requires ControlInv(t) && Enabled(t, TakeControl)
    ensures ControlInv(Step(t, TakeControl))
  {
    var u := Step(t, TakeControl);
    assert u.heard + u.browser.control == t.heard + t.browser.control;
  }

  lemma ControlCut(t: Tunnel, kept: nat)
    requires ControlInv(t) && kept <= |t.downWire|
    ensures ControlInv(Step(t, CutDown(kept)))
  {
    KeptFrames(t.downWire, kept);
    PrefixTrans(t.heard + t.browser.control, Texts(t.downWire[..kept]), Texts(t.downWire));
  }

  lemma ControlWrite(t: Tunnel)
    requires ControlInv(t) && Enabled(t, WsWrite(true))
    ensures ControlInv(Step(t, WsWrite(true)))
  {
    LastFrame(t.downWire, Binary(t.down.chunk));
    assert Texts(Step(t, WsWrite(true)).downWire) == Texts(t.downWire);
  }

  lemma ControlSend(t: Tunnel, message: string)
    requires ControlInv(t)
    ensures ControlInv(Step(t, SendControl(message)))
  {
    LastFrame(t.downWire, Text(message));
    var sent := t.heard + t.browser.control;
    assert sent + (Texts(t.downWire) + [message]) == sent + Texts(t.downWire) + [message];
  }

  lemma ControlRests(t: Tunnel, u: Tunnel)
    requires ControlInv(t)
    requires u.heard == t.heard && u.browser.control == t.browser.control && u.downWire == t.downWire
    requires u.told == t.told && u.downLive == t.downLive
    ensures ControlInv(u)
  {
  }

  lemma ControlKeeps(t: Tunnel, e: Event)
    requires ControlInv(t) && Enabled(t, e)
    ensures ControlInv(Step(t, e))
  {
    if e.Receive? {
      ControlReceive(t);
    } else if e.TakeControl? {
      ControlTake(t);
    } else if e.CutDown? {
      ControlCut(t, e.kept);
    } else if e == WsWrite(true) {
      ControlWrite(t);
    } else if e.SendControl? {
      ControlSend(t, e.message);
    } else {
      ControlRests(t, Step(t, e));
    }
  }

  lemma StepKeepsInv(t: Tunnel, e: Event)
    requires Inv(t) && Enabled(t, e)
    ensures Inv(Step(t, e))
  {
    UpKeeps(t, e);
    DownKeeps(t, e);
    ControlKeeps(t, e);
  }

  lemma {:induction false} RunKeepsInv(es: seq<Event>)
    requires Possible(es)
    ensures Inv(Run(es))
  {
    if es != [] {
      RunKeepsInv(es[..|es| - 1]);
      StepKeepsInv(Run(es[..|es| - 1]), es[|es| - 1]);
    }
  }

  /** Whatever the chunking, the failures and the order of events: what the host is given is a prefix of
      what Write accepted, what Read returns is a prefix of what the host sent, and control messages go
      their own way, in order. Nothing is lost between a frame's arrival and Read. */
  lemma BytesArriveInOrder(es: seq<Event>)
    requires Possible(es)
    ensures Run(es).delivered <= Run(es).accepted
    ensures Run(es).received + Run(es).browser.readBuf <= Run(es).produced
    ensures Run(es).heard <= Run(es).told
  {
    RunKeepsInv(es);
  }

  /** While the connection lasts nothing is missing: every byte is delivered or still at a known place,
      so a tunnel with nothing in flight has delivered everything. */
  lemma NothingIsMissing(es: seq<Event>)
    requires Possible(es)
    ensures var t := Run(es);
      t.browser.open && t.upLive && !t.up.UpReturned? ==>
        t.accepted == t.delivered + InHand(t.up) + Payload(t.upWire)
    ensures var t := Run(es);
      t.downLive && !t.down.DownReturned? ==>
        t.produced == t.received + t.browser.readBuf + Payload(t.downWire) + Held(t.down) + t.unread
    ensures var t := Run(es);
      (t.downLive && t.down.Reading? && t.downWire == [] && t.browser.readBuf == [] && t.unread == []) ==>
        t.received == t.produced
  {
    RunKeepsInv(es);
  }

  lemma StepIsBuffered(t: Tunnel, e: Event)
    requires Enabled(t, e) && |Held(t.down)| <= 4096 && (t.up.UpReturned? || t.down.DownReturned? ==> t.done)
    ensures var u := Step(t, e); |Held(u.down)| <= 4096 && (u.up.UpReturned? || u.down.DownReturned? ==> u.done)
  {
  }

  /** Once either loop of the proxy has returned the other is told to, and the proxy never holds more than
      one buffer of 4096 bytes for the browser. */
  lemma {:induction false} LoopsEndTogether(es: seq<Event>)
    requires Possible(es)
    ensures Run(es).up.UpReturned? || Run(es).down.DownReturned? ==> Run(es).done
    ensures |Held(Run(es).down)| <= 4096
  {
    if es != [] {
      LoopsEndTogether(es[..|es| - 1]);
      StepIsBuffered(Run(es[..|es| - 1]), es[|es| - 1]);
    }
  }

  /** Either loop reads up to 4096 bytes at once, and no more. */
  lemma ReadsUpTo4096(t: Tunnel, n: nat)
    ensures t.down.Reading? && n <= |t.unread| ==> (Enabled(t, TcpRead(n, false)) <==> n <= 4096)
    ensures t.up.InMessage? && n <= |t.up.rest| ==> (Enabled(t, ReadChunk(Chunk(n, n, false, More))) <==> n <= 4096)
  {
  }

  // ------------------------------------------------------------------ the history, read off the events

  // What Write was given while the transport was not closed.
  ghost function Written(es: seq<Event>): seq<Byte>
    requires Possible(es)
  {
    if es == [] then []
    else
      var init, e := es[..|es| - 1], es[|es| - 1];
      Written(init) + (if e.Write? && !Run(init).browser.closed then e.data else [])
  }

  function SentByHost(es: seq<Event>): seq<Byte> {
    if es == [] then []
    else SentByHost(es[..|es| - 1]) + (if es[|es| - 1].HostSends? then es[|es| - 1].bytes else [])
  }

  function ToldByServer(es: seq<Event>): seq<string> {
    if es == [] then []
    else ToldByServer(es[..|es| - 1]) + (if es[|es| - 1].SendControl? then [es[|es| - 1].message] else [])
  }

  lemma StepAccepts(t: Tunnel, e: Event)
    requires Enabled(t, e)
    ensures Step(t, e).accepted == t.accepted + (if e.Write? && !t.browser.closed then e.data else [])
  {
    assert t.accepted + [] == t.accepted;
  }

  lemma StepProduces(t: Tunnel, e: Event)
    requires Enabled(t, e)
    ensures Step(t, e).produced == t.produced + (if e.HostSends? then e.bytes else [])
  {
    assert t.produced + [] == t.produced;
  }

  lemma StepTells(t: Tunnel, e: Event)
    requires Enabled(t, e)
    ensures Step(t, e).told == t.told + (if e.SendControl? then [e.message] else [])
  {
    assert t.told + [] == t.told;
  }

  /** What counts as accepted, sent by the host and told by the server is what the events say. */
  lemma {:induction false} HistoryIs(es: seq<Event>)
    requires Possible(es)
    ensures Run(es).accepted == Written(es) && Run(es).produced == SentByHost(es) && Run(es).told == ToldByServer(es)
  {
    if es != [] {
      HistoryIs(es[..|es| - 1]);
      StepAccepts(Run(es[..|es| - 1]), es[|es| - 1]);
      StepProduces(Run(es[..|es| - 1]), es[|es| - 1]);
      StepTells(Run(es[..|es| - 1]), es[|es| - 1]);
    }
  }

  // The browser's own text messages that found the socket open, and those the server has taken off the wire.
  ghost function TextsSent(es: seq<Event>): seq<string>
    requires Possible(es)
  {
    if es == [] then []
    else
      var init, e := es[..|es| - 1], es[|es| - 1];
      TextsSent(init) + (if e.SendText? && Run(init).browser.open then [e.text] else [])
  }

  ghost function TextsTaken(es: seq<Event>): seq<string>
    requires Possible(es)
  {
    if es == [] then []
    else
      var init, e := es[..|es| - 1], es[|es| - 1];
      TextsTaken(init) + (if e == NextReader(true) then Texts(Run(init).upWire[..1]) else [])
  }

  // The wire one step later: cut, shortened by the frame taken, or with a frame more.
  lemma UpWireStep(t: Tunnel, e: Event)
    requires Enabled(t, e)
    ensures var u := Step(t, e);
      && (e.CutUp? ==> !u.upLive && u.upWire == t.upWire[..e.kept])
      && (!e.CutUp? ==> u.upLive == t.upLive)
      && (e == NextReader(true) ==> t.upWire != [] && u.upWire == t.upWire[1..])
      && (e.SendText? ==> u.upWire == if t.browser.open && t.upLive then t.upWire + [Text(e.text)] else t.upWire)
      && (!e.CutUp? && e != NextReader(true) && !e.SendText? ==> Texts(u.upWire) == Texts(t.upWire))
  {
    if e.Write? {
      LastFrame(t.upWire, Binary(e.data));
    }
  }

  // What holds of the texts taken and sent so far, and of the wire.
  predicate TextsAccounted(taken: seq<string>, wire: seq<Frame>, sent: seq<string>, live: bool) {
    taken + Texts(wire) <= sent && (live ==> taken + Texts(wire) == sent)
  }

  lemma CutAccounted(taken: seq<string>, wire: seq<Frame>, kept: nat, sent: seq<string>, live: bool)
    requires TextsAccounted(taken, wire, sent, live) && kept <= |wire|
    ensures TextsAccounted(taken, wire[..kept], sent, false)
  {
    KeptFrames(wire, kept);
  }

  lemma TakenAccounted(taken: seq<string>, wire: seq<Frame>, sent: seq<string>, live: bool)
    requires TextsAccounted(taken, wire, sent, live) && wire != []
    ensures TextsAccounted(taken + Texts(wire[..1]), wire[1..], sent, live)
  {
    FirstText(wire);
    FirstText(wire[..1]);
    assert wire[..1][1..] == [] && Texts([]) == [];
    assert Texts(wire) == Texts(wire[..1]) + Texts(wire[1..]);
    assert taken + Texts(wire[..1]) + Texts(wire[1..]) == taken + Texts(wire);
  }

  lemma SentAccounted(taken: seq<string>, wire: seq<Frame>, sent: seq<string>, live: bool, text: string)
    requires TextsAccounted(taken, wire, sent, live)
    ensures TextsAccounted(taken, if live then wire + [Text(text)] else wire, sent + [text], live)
  {
    LastFrame(wire, Text(text));
    assert taken + (Texts(wire) + [text]) == taken + Texts(wire) + [text];
  }

  lemma TextsAtTheWire(t: Tunnel, e: Event, taken: seq<string>, sent: seq<string>)
    requires Enabled(t, e) && TextsAccounted(taken, t.upWire, sent, t.upLive)
    ensures TextsAccounted(taken + (if e == NextReader(true) then Texts(t.upWire[..1]) else []), Step(t, e).upWire,
                           sent + (if e.SendText? && t.browser.open then [e.text] else []), Step(t, e).upLive)
  {
    UpWireStep(t, e);
    assert taken + [] == taken && sent + [] == sent;
    if e.CutUp? {
      CutAccounted(taken, t.upWire, e.kept, sent, t.upLive);
    } else if e == NextReader(true) {
      TakenAccounted(taken, t.upWire, sent, t.upLive);
    } else if e.SendText? {
      SentAccounted(taken, t.upWire, sent, t.upLive, e.text);
    }
  }

  /** Text messages of the browser are taken off by the server in order, none skipped while the wire lasts. */
  lemma {:induction false} TextsAreTakenInOrder(es: seq<Event>)
    requires Possible(es)
    ensures TextsAccounted(TextsTaken(es), Run(es).upWire, TextsSent(es), Run(es).upLive)
  {
    if es == [] {
      assert Texts([]) == [];
    } else {
      var init, e := es[..|es| - 1], es[|es| - 1];
      TextsAreTakenInOrder(init);
      TextsAtTheWire(Run(init), e, TextsTaken(init), TextsSent(init));
    }
  }

  // ------------------------------------------------------------------ what ends what

  predicate ClosesTransport(e: Event) {
    e.Close? || e.SocketCloses?
  }

  predicate EndsUp(e: Event) {
    e == NextReader(false) || e.UpSeesDone? || (e.ReadChunk? && (e.chunk.writeFails || e.chunk.end == Broken))
  }

  predicate EndsDown(e: Event) {
    e == WsWrite(false) || e.DownSeesDone? || (e.TcpRead? && e.fails)
  }

  predicate EndsProxy(e: Event) {
    e.Cleanup? || (EndsUp(e) && !e.UpSeesDone?) || (EndsDown(e) && !e.DownSeesDone?)
  }

  predicate Any(es: seq<Event>, p: Event -> bool) {
    exists i :: 0 <= i < |es| && p(es[i])
  }

  lemma AnyOneMore(es: seq<Event>, p: Event -> bool)
    requires es != []
    ensures Any(es, p) <==> Any(es[..|es| - 1], p) || p(es[|es| - 1])
  {
    var init := es[..|es| - 1];
    if Any(es, p) && !p(es[|es| - 1]) {
      var i :| 0 <= i < |es| && p(es[i]);
      assert init[i] == es[i];
    }
    if i :| 0 <= i < |init| && p(init[i]) {
      assert p(es[i]);
    }
  }

  lemma StepCloses(t: Tunnel, e: Event)
    requires Enabled(t, e)
    ensures Step(t, e).browser.closed <==> t.browser.closed || ClosesTransport(e)
  {
  }

  lemma UpReturns(t: Tunnel, e: Event)
    requires Enabled(t, e)
    ensures Step(t, e).up.UpReturned? <==> t.up.UpReturned? || EndsUp(e)
  {
  }

  lemma DownReturns(t: Tunnel, e: Event)
    requires Enabled(t, e)
    ensures Step(t, e).down.DownReturned? <==> t.down.DownReturned? || EndsDown(e)
  {
  }

  lemma StepIsDone(t: Tunnel, e: Event)
    requires Enabled(t, e)
    ensures Step(t, e).done <==> t.done || EndsProxy(e)
  {
  }

  /** In every run the transport is closed exactly once Close was called or the socket's close event came;
      the server's loops have returned exactly once a read or a write of theirs failed or they saw that they
      should; and that is so exactly once one of them failed or the proxy was cleaned up. */
  lemma {:induction false} EndsExactly(es: seq<Event>)
    requires Possible(es)
    ensures Run(es).browser.closed <==> Any(es, ClosesTransport)
    ensures Run(es).up.UpReturned? <==> Any(es, EndsUp)
    ensures Run(es).down.DownReturned? <==> Any(es, EndsDown)
    ensures Run(es).done <==> Any(es, EndsProxy)
  {
    if es != [] {
      EndsExactly(es[..|es| - 1]);
      StepCloses(Run(es[..|es| - 1]), es[|es| - 1]);
      UpReturns(Run(es[..|es| - 1]), es[|es| - 1]);
      DownReturns(Run(es[..|es| - 1]), es[|es| - 1]);
      StepIsDone(Run(es[..|es| - 1]), es[|es| - 1]);
      AnyOneMore(es, ClosesTransport);
      AnyOneMore(es, EndsUp);
      AnyOneMore(es, EndsDown);
      AnyOneMore(es, EndsProxy);
    }
  }

  lemma EofIsStable(t: Tunnel, e: Event)
    requires Inv(t) && Enabled(t, e) && Read(t.browser, 1).Eof?
    ensures Read(Step(t, e).browser, 1).Eof? && Step(t, e).received == t.received
  {
  }

  /** Read reports the end only when it is the end: the buffer is empty, and no later event ever gives
      Read another byte. */
  lemma {:induction false} EofIsTheEnd(es: seq<Event>, size: nat, later: seq<Event>)
    requires Possible(es) && Possible(es + later)
    requires Read(Run(es).browser, size).Eof?
    ensures Run(es).browser.readBuf == [] && Run(es).browser.closed
    ensures Run(es + later).received == Run(es).received && Read(Run(es + later).browser, 1).Eof?
    decreases |later|
  {
    if later == [] {
      assert es + later == es;
    } else {
      var init := later[..|later| - 1];
      assert (es + later)[..|es + later| - 1] == es + init;
      EofIsTheEnd(es, size, init);
      RunKeepsInv(es + init);
      EofIsStable(Run(es + init), later[|later| - 1]);
    }
  }

  /** What was buffered when the socket closed can still be read, whole and in order, whatever sizes it
      is asked for in; only then comes the end. */
  lemma {:induction false} ClosingLosesNothingBuffered(b: Browser, sizes: seq<nat>)
    requires b.closed && forall i :: 0 <= i < |sizes| ==> sizes[i] > 0
    requires |sizes| > |b.readBuf|
    ensures Drained(b, sizes) == (b.readBuf, true)
    decreases |sizes|
  {
    if b.readBuf != [] {
      var r := Read(b, sizes[0]);
      ClosingLosesNothingBuffered(AfterRead(b, sizes[0]), sizes[1..]);
      ReadSplits(b, sizes[0]);
    }
  }

  // What a reader gets that asks for these sizes until Read reports the end (true) or would wait.
  function Drained(b: Browser, sizes: seq<nat>): (seq<Byte>, bool)
    decreases |sizes|
  {
    if sizes == [] then ([], false)
    else match Read(b, sizes[0])
      case Eof => ([], true)
      case Wait => ([], false)
      case Got(data) =>
        var (rest, end) := Drained(AfterRead(b, sizes[0]), sizes[1..]);
        (data + rest, end)
  }
}

/** The objects on either side of the WebSocket. */
module Tunnel {
  import opened Common
  import opened TunnelModel

  // The callbacks that signal the condition variable.
  datatype Wake = Arrives(frame: Frame) | Closed

  function Woken(b: Browser, wakes: seq<Wake>): Browser {
    if wakes == [] then b
    else
      var before := Woken(b, wakes[..|wakes| - 1]);
      match wakes[|wakes| - 1]
      case Arrives(f) => OnMessage(before, f)
      case Closed => OnClose(before)
  }

  class WSTransport {
    var readBuf: seq<Byte>
    var control: seq<string>
    var closed: bool
    // The JavaScript socket: whether it is open, and the frames it has taken.
    var open: bool
    var sent: seq<Frame>

    constructor ()
      ensures View() == START.browser && sent == []
    {
      readBuf, control, closed, open, sent := [], [], false, true, [];
    }

    ghost function View(): Browser
      reads this
    {
      Browser(readBuf, control, closed, open)
    }

    method Receive(f: Frame)
      modifies this`readBuf, this`control
      ensures View() == OnMessage(old(View()), f)
    {
      match f
      case Text(text) => control := control + [text];
      case Binary(data) => readBuf := readBuf + data;
    }

    method ServerCloses()
      modifies this`open
      ensures View() == old(View()).(open := false)
    {
      open := false;
    }

    method SocketCloses()
      modifies this`closed, this`open
      ensures View() == OnClose(old(View()))
    {
      open := false;
      closed := true;
    }

    method CloseConn()
      modifies this`closed, this`open
      ensures View() == if old(closed) then old(View()) else OnClose(old(View()))
    {
      if closed {
        return;
      }
      closed := true;
      open := false;
    }

    /** Wait stands for a call that has to go on waiting: nothing has changed. */
    method ReadInto(b: array<Byte>) returns (n: nat, r: ReadResult)
      modifies this`readBuf, b
      ensures r == Read(old(View()), b.Length)
      ensures View() == if r.Got? then AfterRead(old(View()), b.Length) else old(View())
      ensures n <= b.Length && b[n..] == old(b[n..])
      ensures r == if r.Got? then Got(b[..n]) else r
      ensures b[..n] + readBuf == old(readBuf)
    {
      if readBuf == [] {
        n, r := 0, if closed then Eof else Wait;
        return;
      }
      n := if b.Length < |readBuf| then b.Length else |readBuf|;
      forall i | 0 <= i < n {
        b[i] := readBuf[i];
      }
      assert b[..n] == readBuf[..n];
      r := Got(b[..n]);
      readBuf := readBuf[n..];
    }

    /** Read with its wait: while there is nothing to read and no end, what wakes it is the next callback
        to run, `wakes` in order. It returns at the first one that lets it, and only if none does is it
        left waiting. */
    method ReadWaiting(b: array<Byte>, wakes: seq<Wake>) returns (n: nat, r: ReadResult, used: nat)
      modifies this, b
      ensures used <= |wakes| && (r.Wait? ==> used == |wakes|)
      ensures forall k :: 0 <= k < used ==> Read(Woken(old(View()), wakes[..k]), b.Length).Wait?
      ensures r == Read(Woken(old(View()), wakes[..used]), b.Length)
      ensures n <= b.Length && (r.Got? ==> r.data == b[..n])
      ensures b[..n] + readBuf == Woken(old(View()), wakes[..used]).readBuf
    {
      used := 0;
      while readBuf == [] && !closed && used < |wakes|
        invariant used <= |wakes| && View() == Woken(old(View()), wakes[..used])
        invariant forall k :: 0 <= k < used ==> Read(Woken(old(View()), wakes[..k]), b.Length).Wait?
      {
        assert wakes[..used + 1][..used] == wakes[..used];
        match wakes[used] {
          case Arrives(f) => Receive(f);
          case Closed => SocketCloses();
        }
        used := used + 1;
      }
      n, r := ReadInto(b);
    }

    method Write(data: seq<Byte>) returns (ok: bool)
      modifies this`sent
      ensures ok == !closed
      ensures sent == if ok && open then old(sent) + [Binary(data)] else old(sent)
    {
      if closed {
        return false;
      }
      if open {
        sent := sent + [Binary(data)];
      }
      return true;
    }
  }

  // ------------------------------------------------------------------ the proxy

  function ForwardAll(s: UpSide, chunks: seq<Chunk>): UpSide
    requires Fits(s, chunks)
    decreases |chunks|
  {
    if chunks == [] || !s.up.InMessage? then s else ForwardAll(Forward(s, chunks[0]), chunks[1..])
  }

  // The chunks are what reading this message can really give.
  predicate Fits(s: UpSide, chunks: seq<Chunk>)
    decreases |chunks|
  {
    chunks == [] || !s.up.InMessage? ||
    (ChunkFits(s.up.rest, chunks[0]) && Fits(Forward(s, chunks[0]), chunks[1..]))
  }

  ghost predicate InPart(s: UpSide, r: UpSide)
    requires s.up.InMessage?
  {
    && s.delivered <= r.delivered <= s.delivered + s.up.rest
    && (r.up.NextMessage? ==> r.delivered == s.delivered + s.up.rest)
    && (r.up.InMessage? ==> r.delivered + r.up.rest == s.delivered + s.up.rest)
    && (r.up.UpReturned? ==> r.done) && (!r.up.UpReturned? ==> r.done == s.done)
  }

  lemma OneChunk(s: UpSide, c: Chunk)
    requires s.up.InMessage? && ChunkFits(s.up.rest, c)
    ensures InPart(s, Forward(s, c))
  {
    assert s.up.rest == s.up.rest[..c.n] + s.up.rest[c.n..];
  }

  lemma InPartTrans(s: UpSide, t: UpSide, r: UpSide)
    requires s.up.InMessage? && InPart(s, t) && t.up.InMessage? && InPart(t, r)
    ensures InPart(s, r)
  {
  }

  /** A message that is read to its end has been delivered whole; one that is not, in part, from its start. */
  lemma {:induction false} WholeOrPrefix(s: UpSide, chunks: seq<Chunk>)
    requires s.up.InMessage? && Fits(s, chunks)
    ensures InPart(s, ForwardAll(s, chunks))
    decreases |chunks|
  {
    if chunks != [] {
      var t := Forward(s, chunks[0]);
      OneChunk(s, chunks[0]);
      if t.up.InMessage? {
        WholeOrPrefix(t, chunks[1..]);
        InPartTrans(s, t, ForwardAll(t, chunks[1..]));
      }
    }
  }

  // What the next call of NextReader gives, and how that message is then read.
  datatype Incoming = Incoming(frame: Frame, chunks: seq<Chunk>)

  // What the next TCP read gives, and whether the frame made of it could be written.
  datatype Outgoing = Outgoing(data: seq<Byte>, readFails: bool, writeFails: bool)

  function Frames(ins: seq<Incoming>): seq<Frame> {
    seq(|ins|, i requires 0 <= i < |ins| => ins[i].frame)
  }

  function Sent(outs: seq<Outgoing>): seq<Frame> {
    if outs == [] then [] else Sent(outs[..|outs| - 1]) + [Binary(outs[|outs| - 1].data)]
  }

  function AllData(outs: seq<Outgoing>): seq<Byte> {
    if outs == [] then [] else AllData(outs[..|outs| - 1]) + outs[|outs| - 1].data
  }

  /** One frame a read, no control text, and the bytes are the bytes that were read. */
  lemma {:induction false} SentCarriesTheData(outs: seq<Outgoing>)
    ensures Payload(Sent(outs)) == AllData(outs) && |Sent(outs)| == |outs| && Texts(Sent(outs)) == []
  {
    if outs != [] {
      SentCarriesTheData(outs[..|outs| - 1]);
      LastFrame(Sent(outs[..|outs| - 1]), Binary(outs[|outs| - 1].data));
    }
  }

  function FrameData(f: Frame): seq<Byte> {
    if f.Binary? then f.data else []
  }

  function Begin(data: seq<Byte>): UpSide {
    UpSide(InMessage(data), [], false)
  }

  // The chunks of a binary message carry it through to its end, or to a failure.
  predicate Readable(inc: Incoming) {
    inc.frame.Binary? ==>
      Fits(Begin(inc.frame.data), inc.chunks) && !ForwardAll(Begin(inc.frame.data), inc.chunks).up.InMessage?
  }

  predicate Unbroken(inc: Incoming) {
    inc.frame.Binary? ==>
      Fits(Begin(inc.frame.data), inc.chunks) && ForwardAll(Begin(inc.frame.data), inc.chunks).up.NextMessage?
  }

  lemma {:induction false} ReadingIgnoresThePast(s: UpSide, t: UpSide, chunks: seq<Chunk>)
    requires s.up == t.up && Fits(s, chunks)
    ensures Fits(t, chunks) && ForwardAll(t, chunks).up == ForwardAll(s, chunks).up
    decreases |chunks|
  {
    if chunks != [] && s.up.InMessage? {
      ReadingIgnoresThePast(Forward(s, chunks[0]), Forward(t, chunks[0]), chunks[1..]);
    }
  }

  function BinaryData(ins: seq<Incoming>): seq<Byte> {
    if ins == [] then [] else BinaryData(ins[..|ins| - 1]) + FrameData(ins[|ins| - 1].frame)
  }

  lemma {:induction false} BinaryDataIsThePayload(ins: seq<Incoming>)
    ensures BinaryData(ins) == Payload(Frames(ins))
  {
    if ins != [] {
      BinaryDataIsThePayload(ins[..|ins| - 1]);
      assert Frames(ins)[..|ins| - 1] == Frames(ins[..|ins| - 1]);
    }
  }

  lemma {:induction false} BinaryDataGrows(ins: seq<Incoming>, i: nat)
    requires i <= |ins|
    ensures BinaryData(ins[..i]) <= BinaryData(ins)
    ensures i < |ins| ==> BinaryData(ins[..i + 1]) == BinaryData(ins[..i]) + FrameData(ins[i].frame)
  {
    if i < |ins| {
      assert ins[..|ins| - 1][..i] == ins[..i] && ins[..i + 1][..i] == ins[..i];
      BinaryDataGrows(ins[..|ins| - 1], i);
    } else {
      assert ins[..i] == ins;
    }
  }

  lemma StillWithin(start: seq<Byte>, before: seq<Byte>, data: seq<Byte>, all: seq<Byte>, d: seq<Byte>)
    requires before + data <= all && start + before <= d <= start + before + data
    ensures start <= d <= start + all
  {
    assert start + all == start + before + data + all[|before| + |data|..];
  }

  ghost predicate Taken(start: seq<Byte>, ins: seq<Incoming>, i: nat, d: seq<Byte>)
    requires i <= |ins|
  {
    d == start + BinaryData(ins[..i])
  }

  lemma TakenMore(start: seq<Byte>, ins: seq<Incoming>, i: nat, d: seq<Byte>)
    requires i < |ins| && Taken(start, ins, i, d)
    ensures Taken(start, ins, i + 1, d + FrameData(ins[i].frame))
  {
    BinaryDataGrows(ins, i);
  }

  lemma TakenInPart(start: seq<Byte>, ins: seq<Incoming>, i: nat, d: seq<Byte>, e: seq<Byte>)
    requires i < |ins| && Taken(start, ins, i, d) && d <= e <= d + FrameData(ins[i].frame)
    ensures start <= e <= start + BinaryData(ins)
  {
    BinaryDataGrows(ins, i);
    BinaryDataGrows(ins, i + 1);
    StillWithin(start, BinaryData(ins[..i]), FrameData(ins[i].frame), BinaryData(ins), e);
  }

  lemma TakenAll(start: seq<Byte>, ins: seq<Incoming>, d: seq<Byte>)
    requires Taken(start, ins, |ins|, d)
    ensures d == start + BinaryData(ins)
  {
    assert ins[..|ins|] == ins;
  }

  class TCPProxy {
    var done: bool
    var tcpOpen: bool
    var wsOpen: bool
    // How often the done channel has been closed: a second time would panic.
    ghost var doneCloses: nat
    // What the two connections have taken from us.
    var delivered: seq<Byte>
    var sent: seq<Frame>

    constructor ()
      ensures Valid() && !done && delivered == [] && sent == []
    {
      done, tcpOpen, wsOpen, delivered, sent := false, true, true, [], [];
      doneCloses := 0;
    }

    ghost predicate Valid()
      reads this
    {
      && doneCloses == (if done then 1 else 0)
      && tcpOpen == !done && wsOpen == !done
    }

    method Cleanup()
      requires Valid()
      modifies this`done, this`tcpOpen, this`wsOpen, this`doneCloses
      ensures Valid() && done
    {
      if done {
        return;
      }
      done := true;
      doneCloses := doneCloses + 1;
      tcpOpen := false;
      wsOpen := false;
    }

    method ForwardMessage(message: seq<Byte>, chunks: seq<Chunk>) returns (up: UpLoop)
      requires Valid() && Fits(UpSide(InMessage(message), delivered, done), chunks)
      modifies this`done, this`tcpOpen, this`wsOpen, this`doneCloses, this`delivered
      ensures Valid()
      ensures UpSide(up, delivered, done) == old(ForwardAll(UpSide(InMessage(message), delivered, done), chunks))
    {
      var buf := new Byte[BUFFER];
      up := InMessage(message);
      var i := 0;
      while i < |chunks| && up.InMessage?
        invariant 0 <= i <= |chunks| && Valid()
        invariant Fits(UpSide(up, delivered, done), chunks[i..])
        invariant ForwardAll(UpSide(up, delivered, done), chunks[i..]) ==
                  old(ForwardAll(UpSide(InMessage(message), delivered, done), chunks))
      {
        var c := chunks[i];
        assert chunks[i..][0] == c && chunks[i..][1..] == chunks[i + 1..];
        ghost var next := Forward(UpSide(up, delivered, done), c);
        forall k | 0 <= k < c.n {
          buf[k] := up.rest[k];
        }
        assert buf[..c.n] == up.rest[..c.n];
        if c.n > 0 {
          delivered := delivered + buf[..c.written];
        }
        assert delivered == next.delivered;
        if c.writeFails || c.end == Broken {
          Cleanup();
          up := UpReturned;
        } else if c.end == EndOfMessage {
          up := NextMessage;
        } else {
          up := InMessage(up.rest[c.n..]);
        }
        i := i + 1;
      }
    }

    method ForwardFrame(inc: Incoming) returns (goesOn: bool)
      requires Valid() && Readable(inc)
      modifies this`done, this`tcpOpen, this`wsOpen, this`doneCloses, this`delivered
      ensures Valid() && (if goesOn then done == old(done) else done)
      ensures old(delivered) <= delivered <= old(delivered) + FrameData(inc.frame)
      ensures goesOn ==> delivered == old(delivered) + FrameData(inc.frame)
      ensures Unbroken(inc) ==> goesOn
    {
      match inc.frame
      case Text(_) => return true;
      case Binary(data) =>
        ghost var s := UpSide(InMessage(data), delivered, done);
        ReadingIgnoresThePast(Begin(data), s, inc.chunks);
        WholeOrPrefix(s, inc.chunks);
        var up := ForwardMessage(data, inc.chunks);
        return up.NextMessage?;
    }

    /** The whole loop: the messages NextReader gives, in order, until it fails or the proxy is done.
        What it writes is the binary messages' bytes or their start; all of them, if nothing broke. */
    method ProxyWebSocketToTCP(ins: seq<Incoming>)
      requires Valid() && forall i :: 0 <= i < |ins| ==> Readable(ins[i])
      modifies this`done, this`tcpOpen, this`wsOpen, this`doneCloses, this`delivered
      ensures Valid() && done
      ensures old(delivered) <= delivered <= old(delivered) + BinaryData(ins)
      ensures !old(done) && (forall i :: 0 <= i < |ins| ==> Unbroken(ins[i])) ==>
        delivered == old(delivered) + BinaryData(ins)
    {
      assert Taken(delivered, ins, 0, delivered);
      var i := 0;
      while i < |ins|
        invariant 0 <= i <= |ins| && Valid() && done == old(done)
        invariant Taken(old(delivered), ins, i, delivered)
      {
        ghost var before := delivered;
        if done {
          TakenInPart(old(delivered), ins, i, before, delivered);
          Cleanup();
          return;
        }
        TakenMore(old(delivered), ins, i, before);
        var goesOn := ForwardFrame(ins[i]);
        if !goesOn {
          TakenInPart(old(delivered), ins, i, before, delivered);
          return;
        }
        i := i + 1;
      }
      TakenAll(old(delivered), ins, delivered);
      Cleanup();
    }

    /** The other loop: each TCP read becomes one binary frame, until a read or a write fails. */
    method ProxyTCPToWebSocket(outs: seq<Outgoing>) returns (n: nat)
      requires Valid() && forall i :: 0 <= i < |outs| ==> |outs[i].data| <= BUFFER
      modifies this`done, this`tcpOpen, this`wsOpen, this`doneCloses, this`sent
      ensures Valid() && done && n <= |outs|
      ensures sent == old(sent) + Sent(outs[..n])
      ensures !old(done) ==> n == |outs| || outs[n].readFails || outs[n].writeFails
      ensures forall i :: 0 <= i < n ==> !outs[i].readFails && !outs[i].writeFails
    {
      n := 0;
      while n < |outs|
        invariant Valid() && 0 <= n <= |outs| && done == old(done)
        invariant sent == old(sent) + Sent(outs[..n])
        invariant forall i :: 0 <= i < n ==> !outs[i].readFails && !outs[i].writeFails
      {
        if done {
          break;
        }
        if outs[n].readFails {
          break;
        }
        if outs[n].writeFails {
          break;
        }
        assert outs[..n + 1][..n] == outs[..n];
        sent := sent + [Binary(outs[n].data)];
        n := n + 1;
      }
      Cleanup();
    }
  }
}
