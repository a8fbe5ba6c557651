/** `handleTestConnection`: the one-shot connection probe. It derives the socket
    address, opens a socket, arms a 5-second timer and lets the first of four
    events settle the outcome: the timer firing, a handshake message, a socket
    error or the socket closing. A per-attempt `resolved` flag makes every later
    event a no-op. */
module Probe {
  import opened Endpoint
  import Text

  /** The status shown on the page. */
  datatype Status = Idle | Checking | Connected | Failed

  newtype byte = x: int | 0 <= x < 256

  /** A socket message: binary frames arrive as bytes (`binaryType` is
      `"arraybuffer"`), text frames as strings. */
  datatype Message = BinaryFrame(bytes: seq<byte>) | TextFrame(text: string)

  /** The events that reach the attempt's handlers. The timer is a "fires"
      event, not a clock. */
  datatype Event = TimerFired | MessageArrived(msg: Message) | SocketError | SocketClosed

  const InitialNote: string := "Not checked yet."
  const NoAddressNote: string := "Add a valid server URL first."
  const ConnectingNote: string := "Connecting to your PersonaPlex server..."
  const TimeoutNote: string := "Timed out. Check the server URL or deployment logs."
  const HandshakeNote: string := "Handshake received. Server is ready."
  const ErrorNote: string := "Connection failed. Verify SSL and firewall settings."
  const ClosedNote: string := "Socket closed before handshake."

  /** The server's readiness marker: a non-empty binary frame whose first byte
      is zero. */
  function IsHandshake(m: Message): (b: bool)
    ensures m.TextFrame? ==> !b
  {
    m.BinaryFrame? && |m.bytes| > 0 && m.bytes[0] == 0
  }

  /** The handshake is exactly a binary frame that starts with the zero byte. */
  lemma HandshakeStartsWithZero(m: Message)
    ensures IsHandshake(m) <==> m.BinaryFrame? && [0 as byte] <= m.bytes
  {
    if m.BinaryFrame? && [0 as byte] <= m.bytes {
      assert m.bytes[0] == [0 as byte][0];
    }
  }

  /** The events that settle an unresolved attempt: all but messages that are
      not a handshake. */
  predicate Settles(e: Event) {
    !e.MessageArrived? || IsHandshake(e.msg)
  }

  /** The status and note an event settles an attempt to: connected only for the
      handshake, failed with a note of its own for each other event. */
  function Verdict(e: Event): (v: (Status, string))
    requires Settles(e)
    ensures v.0 == Connected <==> e.MessageArrived?
    ensures v.0 == Connected || v.0 == Failed
  {
    match e
    case TimerFired => (Failed, TimeoutNote)
    case MessageArrived(_) => (Connected, HandshakeNote)
    case SocketError => (Failed, ErrorNote)
    case SocketClosed => (Failed, ClosedNote)
  }

  /** Each kind of settlement has its own note: two settling events with the
      same note are both handshakes or are the same event. */
  lemma VerdictNotesDistinct(e: Event, f: Event)
    requires Settles(e) && Settles(f) && Verdict(e).1 == Verdict(f).1
    ensures (e.MessageArrived? && f.MessageArrived?) || e == f
  {
  }

  /** What the page and one attempt hold: the shown status and note, whether the
      attempt opened a socket (and so armed its timer and registered its
      handlers), its `resolved` flag, whether its timer was cleared and whether
      it asked the socket to close. */
  datatype ProbeState = ProbeState(
    status: Status, note: string,
    socketOpened: bool, resolved: bool, timerCleared: bool, closeRequested: bool)

  const Initial: ProbeState := ProbeState(Idle, InitialNote, false, false, false, false)

  /** The states a probe can be in: without a socket nothing is resolved or
      cleared; with a socket open, the status is `checking` exactly while the
      attempt is unresolved, and a cleared timer or a close request happens only
      on settling. */
  predicate Inv(p: ProbeState) {
    (!p.socketOpened ==> !p.resolved && !p.timerCleared && !p.closeRequested)
    && (p.socketOpened ==> (p.status == Checking <==> !p.resolved))
    && (p.socketOpened ==> (p.resolved <==> p.status in {Connected, Failed}))
    && (p.timerCleared || p.closeRequested ==> p.resolved)
  }

  /** Whether `new WebSocket(url)` refuses the address: the WebSocket
      constructor throws a `SyntaxError` for a URL that has a fragment, even an
      empty one. (The scheme, the constructor's other check, is always `ws:` or
      `wss:` here.) */
  predicate SocketRefuses(u: Url) {
    u.fragment.Some?
  }

  /** Clicking "test connection" with the derived socket address `ws`: fail at
      once without opening anything when no address is set; otherwise show
      `checking` and then open the socket. When the constructor accepts the
      address, the attempt starts unresolved with its timer armed. When it
      refuses, the exception leaves the click handler before the timer and the
      handlers exist, and `checking` stays on the page. */
  function Begin(p: ProbeState, ws: Derived): (r: ProbeState)
    requires !ws.Throws?
    ensures Inv(r)
    ensures ws.Unset? ==> r.status == Failed && r.note == NoAddressNote && !r.socketOpened
    ensures ws.Built? ==> r.status == Checking && r.note == ConnectingNote && !r.resolved
    ensures ws.Built? ==> (r.socketOpened <==> !SocketRefuses(ws.url))
  {
    if ws.Unset? then ProbeState(Failed, NoAddressNote, false, false, false, false)
    else if SocketRefuses(ws.url) then ProbeState(Checking, ConnectingNote, false, false, false, false)
    else ProbeState(Checking, ConnectingNote, true, false, false, false)
  }

  /** A blank address fails the probe at once, with its own note, and opens no
      socket, whatever the parser. */
  lemma BlankAddressFailsAtOnce(p: ProbeState, serverUrl: string, parse: Parser)
    requires Text.AllSpace(serverUrl)
    ensures var r := Begin(p, SocketUrl(serverUrl, parse));
            r.status == Failed && r.note == NoAddressNote && !r.socketOpened
  {
  }

  /** A usable address starts an unresolved attempt showing `checking`; a socket
      is opened exactly when the parsed address has no fragment. */
  lemma UsableAddressStartsChecking(p: ProbeState, serverUrl: string, parse: Parser)
    requires SocketUrl(serverUrl, parse).Built?
    ensures var r := Begin(p, SocketUrl(serverUrl, parse));
            r.status == Checking && !r.resolved
            && (r.socketOpened <==> parse(Address.NormalizeUrl(serverUrl)).value.fragment.None?)
  {
  }

  /** One event delivered to the attempt's handlers. Without an open socket
      there is no timer and no handler, so nothing reacts to it. */
  function Step(p: ProbeState, e: Event): (r: ProbeState)
    requires Inv(p)
    ensures Inv(r) && r.socketOpened == p.socketOpened
    ensures !p.socketOpened || p.resolved ==> r == p
    ensures !p.resolved && !Settles(e) ==> r == p
    ensures p.socketOpened && !p.resolved && Settles(e) ==> r.resolved && (r.status, r.note) == Verdict(e)
    ensures p.socketOpened && !p.resolved && Settles(e) ==> (r.timerCleared <==> e != TimerFired)
    ensures p.socketOpened && !p.resolved && Settles(e) ==> (r.closeRequested <==> (e == TimerFired || e.MessageArrived?))
  {
    if !p.socketOpened || p.resolved then p
    else match e
      case TimerFired =>
        p.(resolved := true, closeRequested := true, status := Failed, note := TimeoutNote)
      case MessageArrived(m) =>
        if IsHandshake(m)
        then p.(resolved := true, timerCleared := true, closeRequested := true,
                status := Connected, note := HandshakeNote)
        else p
      case SocketError =>
        p.(resolved := true, timerCleared := true, status := Failed, note := ErrorNote)
      case SocketClosed =>
        p.(resolved := true, timerCleared := true, status := Failed, note := ClosedNote)
  }

  /** The events `es` delivered in order. */
  function Run(p: ProbeState, es: seq<Event>): (r: ProbeState)
    requires Inv(p)
    ensures Inv(r) && r.socketOpened == p.socketOpened
    decreases |es|
  {
    if es == [] then p else Run(Step(p, es[0]), es[1..])
  }

  /** Settlement is terminal: once resolved, no further timeout, message, error
      or close changes anything. */
  lemma {:induction false} ResolvedIsFinal(p: ProbeState, es: seq<Event>)
    requires Inv(p) && p.socketOpened && p.resolved
    ensures Run(p, es) == p
    decreases |es|
  {
    if es != [] {
      ResolvedIsFinal(Step(p, es[0]), es[1..]);
    }
  }

  /** Events that do not settle leave an unresolved attempt as it was. */
  lemma {:induction false} NonSettlingIgnored(p: ProbeState, es: seq<Event>)
    requires Inv(p) && p.socketOpened && !p.resolved
    requires forall j :: 0 <= j < |es| ==> !Settles(es[j])
    ensures Run(p, es) == p
    decreases |es|
  {
    if es != [] {
      NonSettlingIgnored(Step(p, es[0]), es[1..]);
    }
  }

  /** First wins: the first settling event decides the shown status and note,
      whatever follows it. */
  lemma {:induction false} FirstSettlerWins(p: ProbeState, es: seq<Event>, i: nat)
    requires Inv(p) && p.socketOpened && !p.resolved
    requires i < |es| && Settles(es[i])
    requires forall j :: 0 <= j < i ==> !Settles(es[j])
    ensures Run(p, es).resolved
    ensures (Run(p, es).status, Run(p, es).note) == Verdict(es[i])
    decreases |es|
  {
    if i == 0 {
      ResolvedIsFinal(Step(p, es[0]), es[1..]);
    } else {
      FirstSettlerWins(Step(p, es[0]), es[1..], i - 1);
    }
  }

  /** The probe shows `connected` only when a handshake arrived before any
      timeout, error or close. */
  lemma ConnectedOnlyAfterHandshake(p: ProbeState, es: seq<Event>)
    requires Inv(p) && p.socketOpened && !p.resolved
    requires Run(p, es).status == Connected
    ensures exists i :: 0 <= i < |es| && es[i].MessageArrived? && IsHandshake(es[i].msg)
                        && forall j :: 0 <= j < i ==> !Settles(es[j])
  {
    if forall j :: 0 <= j < |es| ==> !Settles(es[j]) {
      NonSettlingIgnored(p, es);
    } else {
      var i := FirstSettler(es);
      FirstSettlerWins(p, es, i);
    }
  }

  /** The index of the first settling event in `es`. */
  function FirstSettler(es: seq<Event>): (i: nat)
    requires exists j :: 0 <= j < |es| && Settles(es[j])
    ensures i < |es| && Settles(es[i])
    ensures forall j :: 0 <= j < i ==> !Settles(es[j])
  {
    if Settles(es[0]) then 0
    else
      assert exists j :: 0 <= j < |es[1..]| && Settles(es[1..][j]) by {
        var j :| 0 <= j < |es| && Settles(es[j]);
        assert es[1..][j - 1] == es[j];
      }
      1 + FirstSettler(es[1..])
  }

  /** A handshake followed by anything at all: `connected`, settled once. */
  lemma HandshakeThenAnything(ws: Url, rest: seq<Event>, more: seq<byte>)
    requires !SocketRefuses(ws)
    ensures var p := Begin(Initial, Built(ws));
            var r := Run(p, [MessageArrived(BinaryFrame([0] + more))] + rest);
            r.status == Connected && r.note == HandshakeNote
  {
    var p := Begin(Initial, Built(ws));
    var es := [MessageArrived(BinaryFrame([0] + more))] + rest;
    FirstSettlerWins(p, es, 0);
  }

  /** A frame starting with a non-zero byte does not count as the handshake: a
      timeout after it still fails the probe. */
  lemma NonHandshakeThenTimeout(ws: Url, more: seq<byte>)
    requires !SocketRefuses(ws)
    ensures var p := Begin(Initial, Built(ws));
            var r := Run(p, [MessageArrived(BinaryFrame([1] + more)), TimerFired]);
            r.status == Failed && r.note == TimeoutNote
  {
    var p := Begin(Initial, Built(ws));
    var es := [MessageArrived(BinaryFrame([1] + more)), TimerFired];
    FirstSettlerWins(p, es, 1);
  }

  /** A probe started after an earlier one failed shows `checking` again and can
      itself reach `connected`. */
  lemma RetryAfterFailure(p: ProbeState, ws: Url)
    requires Inv(p) && p.status == Failed && !SocketRefuses(ws)
    ensures Begin(p, Built(ws)).status == Checking
    ensures Run(Begin(p, Built(ws)), [MessageArrived(BinaryFrame([0]))]).status == Connected
  {
    var q := Begin(p, Built(ws));
    FirstSettlerWins(q, [MessageArrived(BinaryFrame([0]))], 0);
  }

  /** Without an open socket no event changes anything: there is nothing
      listening. */
  lemma {:induction false} DetachedIgnoresEvents(p: ProbeState, es: seq<Event>)
    requires Inv(p) && !p.socketOpened
    ensures Run(p, es) == p
    decreases |es|
  {
    if es != [] {
      DetachedIgnoresEvents(Step(p, es[0]), es[1..]);
    }
  }

  /** A socket address with a fragment leaves the probe showing `checking` and
      "Connecting..." for good, whatever happens afterwards: no timer was armed
      and no handler registered, so nothing ever settles the attempt. */
  lemma RefusedProbeHangs(p: ProbeState, ws: Url, es: seq<Event>)
    requires SocketRefuses(ws)
    ensures var r := Run(Begin(p, Built(ws)), es);
            r.status == Checking && r.note == ConnectingNote && !r.resolved
  {
    DetachedIgnoresEvents(Begin(p, Built(ws)), es);
  }

  /** `example.com#x`: the fragment survives normalisation and both builders,
      the socket constructor refuses the address, and even the 5-second timeout
      cannot settle the probe, since it was never armed. */
  lemma ExampleFragmentHangs(parse: Parser, es: seq<Event>)
    requires parse("https://example.com#x") == Some(Url("https:", "example.com", "/", [], Some("x")))
    ensures SocketUrl("example.com#x", parse).Built?
    ensures Run(Begin(Initial, SocketUrl("example.com#x", parse)), es).status == Checking
  {
    Address.NormalizeFragmentHost();
    var ws := SocketUrl("example.com#x", parse);
    assert ws.Built? && ws.url.fragment == Some("x");
    RefusedProbeHangs(Initial, ws.url, es);
  }

  /** With the fragment cleared from the socket address, every usable address
      opens a socket: the attempt starts unresolved with its timer armed, which
      is what `FirstSettlerWins` needs, so the first settling event decides the
      outcome; at the latest the timeout fails it. */
  lemma FragmentFreeProbeSettles(p: ProbeState, serverUrl: string, parse: Parser)
    requires FragmentFreeSocketUrl(serverUrl, parse).Built?
    ensures var q := Begin(p, FragmentFreeSocketUrl(serverUrl, parse));
            Inv(q) && q.socketOpened && !q.resolved && q.status == Checking
            && Run(q, [TimerFired]).status == Failed
  {
    var ws := FragmentFreeSocketUrl(serverUrl, parse);
    assert !SocketRefuses(ws.url);
    var q := Begin(p, ws);
    FirstSettlerWins(q, [TimerFired], 0);
  }

  /** The page's probe: the shown status and note, and the current attempt. */
  class Prober {
    var status: Status
    var note: string
    var socketOpened: bool
    var resolved: bool
    var timerCleared: bool
    var closeRequested: bool

    function State(): ProbeState
      reads this
    {
      ProbeState(status, note, socketOpened, resolved, timerCleared, closeRequested)
    }

    ghost predicate Valid()
      reads this
    {
      Inv(State())
    }

    /** The page as first rendered: `idle`, not checked yet. */
    constructor ()
      ensures Valid() && State() == Initial
    {
      status, note := Idle, InitialNote;
      socketOpened, resolved, timerCleared, closeRequested := false, false, false, false;
    }

    /** `handleTestConnection` up to the handler registration. */
    method Start(ws: Derived)
      requires !ws.Throws?
      modifies this
      ensures Valid() && State() == Begin(old(State()), ws)
    {
      if ws.Unset? {
        status, note := Failed, NoAddressNote;
        socketOpened, resolved, timerCleared, closeRequested := false, false, false, false;
        return;
      }
      status, note := Checking, ConnectingNote;
      resolved := false;
      if SocketRefuses(ws.url) {
        socketOpened, timerCleared, closeRequested := false, false, false;
        return;
      }
      socketOpened, timerCleared, closeRequested := true, false, false;
    }

    /** The 5000 ms timer callback. */
    method OnTimeout()
      requires Valid() && socketOpened
      modifies this
      ensures Valid() && State() == Step(old(State()), TimerFired)
      ensures old(resolved) ==> status == old(status) && note == old(note)
      ensures !old(resolved) ==> resolved && closeRequested && status == Failed && note == TimeoutNote
    {
      if resolved {
        return;
      }
      resolved := true;
      closeRequested := true;
      status, note := Failed, TimeoutNote;
    }

    /** The `message` handler. */
    method OnMessage(m: Message)
      requires Valid() && socketOpened
      modifies this
      ensures Valid() && State() == Step(old(State()), MessageArrived(m))
      ensures old(resolved) || !IsHandshake(m) ==> State() == old(State())
      ensures !old(resolved) && IsHandshake(m) ==>
                resolved && timerCleared && closeRequested && status == Connected && note == HandshakeNote
    {
      if resolved {
        return;
      }
      if m.BinaryFrame? {
        if |m.bytes| > 0 && m.bytes[0] == 0 {
          resolved := true;
          timerCleared := true;
          closeRequested := true;
          status, note := Connected, HandshakeNote;
        }
      }
    }

    /** The `error` handler. */
    method OnError()
      requires Valid() && socketOpened
      modifies this
      ensures Valid() && State() == Step(old(State()), SocketError)
      ensures old(resolved) ==> State() == old(State())
      ensures !old(resolved) ==> resolved && timerCleared && status == Failed && note == ErrorNote
    {
      if resolved {
        return;
      }
      resolved := true;
      timerCleared := true;
      status, note := Failed, ErrorNote;
    }

    /** The `close` handler. */
    method OnClose()
      requires Valid() && socketOpened
      modifies this
      ensures Valid() && State() == Step(old(State()), SocketClosed)
      ensures old(resolved) ==> State() == old(State())
      ensures !old(resolved) ==> resolved && timerCleared && status == Failed && note == ClosedNote
    {
      if resolved {
        return;
      }
      resolved := true;
      timerCleared := true;
      status, note := Failed, ClosedNote;
    }
  }
}
