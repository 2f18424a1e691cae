/**
 The mutable objects of the server: hubs (internal/hub/hub.go), PTY sessions
 (internal/pty/session.go), port proxies (internal/server/proxy.go), the maps of
 one user and the control handler (internal/server/server.go).

 Their methods are proved against the hub machine of HubFifo and against the
 functions on Reg below, which module Registry runs over whole histories.
 */
module Sessions {
  import opened Prelude
  import opened Codec
  import opened HubFifo
  import opened RingBuf
  import opened Replay

  /** What ChannelHandler is implemented by. */
  datatype Handler = Control | OfPty(pty: Session) | OfProxy(proxy: PortProxySession)

  // ---------------------------------------------------------------------
  // The shared state, as a value

  datatype Reg = Reg(
    ptys: map<uint16, Session>,
    proxies: map<uint16, PortProxySession>,
    sender: map<Session, Hub>,             // absent: nil
    proxyHub: map<PortProxySession, Hub>,  // absent: nil
    closed: set<Session>,
    proxyClosed: set<PortProxySession>,
    handlers: map<Hub, map<uint16, Handler>>,
    kills: seq<Session>                    // SIGKILLs sent, oldest first
  )

  function HandlersOf(r: Reg, h: Hub): map<uint16, Handler>
  {
    if h in r.handlers then r.handlers[h] else map[]
  }

  function RegisterIn(r: Reg, h: Hub, ch: uint16, hd: Handler): Reg
  {
    r.(handlers := r.handlers[h := HandlersOf(r, h)[ch := hd]])
  }

  function KillIn(r: Reg, s: Session): Reg
  {
    if s in r.closed then r else r.(closed := r.closed + {s}, kills := r.kills + [s])
  }

  function CloseHandlerIn(r: Reg, hd: Handler): Reg
  {
    match hd
    case Control => r
    case OfPty(s) => KillIn(r, s)
    case OfProxy(p) => r.(proxyClosed := r.proxyClosed + {p})
  }

  function UnregisterIn(r: Reg, h: Hub, ch: uint16): Reg
  {
    var hs := HandlersOf(r, h);
    if ch in hs then CloseHandlerIn(r.(handlers := r.handlers[h := hs - {ch}]), hs[ch]) else r
  }

  function RemovePtyIn(r: Reg, ch: uint16): Reg
  {
    if ch in r.ptys then KillIn(r.(ptys := r.ptys - {ch}), r.ptys[ch]) else r
  }

  function RemoveProxyIn(r: Reg, ch: uint16): Reg
  {
    if ch in r.proxies
    then r.(proxies := r.proxies - {ch}, proxyClosed := r.proxyClosed + {r.proxies[ch]})
    else r
  }

  /** The end of handleOpenPTY: a new session is listed, registered and attached. */
  function StartIn(r: Reg, h: Hub, x: Session): Reg
  {
    RegisterIn(r, h, x.chanID, OfPty(x)).(ptys := r.ptys[x.chanID := x], sender := r.sender[x := h])
  }

  /** handleOpenPTY; started is the new session, or None when spawning fails. */
  function OpenPtyIn(r: Reg, h: Hub, ch: uint16, started: Option<Session>): Reg
  {
    if ch == 0 then r
    else if ch in r.ptys then
      RegisterIn(r, h, ch, OfPty(r.ptys[ch])).(sender := r.sender[r.ptys[ch] := h])
    else if started.None? then r
    else
      RegisterIn(r, h, ch, OfPty(started.value))
      .(ptys := r.ptys[ch := started.value], sender := r.sender[started.value := h])
  }

  function ClosePtyIn(r: Reg, h: Hub, ch: uint16): Reg
  {
    RemovePtyIn(UnregisterIn(r, h, ch), ch)
  }

  /** handleOpenProxy; dialed is the new session, or None when dialing fails. */
  function OpenProxyIn(r: Reg, h: Hub, ch: uint16, hasTarget: bool, dialed: Option<PortProxySession>): Reg
  {
    if ch == 0 || !hasTarget then r
    else if ch in r.proxies && r.proxies[ch] !in r.proxyClosed then
      RegisterIn(r, h, ch, OfProxy(r.proxies[ch])).(proxyHub := r.proxyHub[r.proxies[ch] := h])
    else if dialed.None? then r
    else
      RegisterIn(r, h, ch, OfProxy(dialed.value))
      .(proxies := r.proxies[ch := dialed.value], proxyHub := r.proxyHub[dialed.value := h])
  }

  function CloseProxyIn(r: Reg, h: Hub, ch: uint16): Reg
  {
    RemoveProxyIn(UnregisterIn(r, h, ch), ch)
  }

  /** The handlers of a map of PTYs, each under its key. */
  ghost function PtyHandlers(ptys: map<uint16, Session>): (hs: map<uint16, Handler>)
    ensures hs.Keys == ptys.Keys
    ensures forall ch | ch in ptys :: hs[ch] == OfPty(ptys[ch])
    decreases |ptys|
  {
    if ptys == map[] then map[]
    else
      var ch: uint16 :| ch in ptys;
      assert (ptys - {ch}).Keys == ptys.Keys - {ch};
      PtyHandlers(ptys - {ch})[ch := OfPty(ptys[ch])]
  }

  ghost function ProxyHandlers(proxies: map<uint16, PortProxySession>): (hs: map<uint16, Handler>)
    ensures hs.Keys == proxies.Keys
    ensures forall ch | ch in proxies :: hs[ch] == OfProxy(proxies[ch])
    decreases |proxies|
  {
    if proxies == map[] then map[]
    else
      var ch: uint16 :| ch in proxies;
      assert (proxies - {ch}).Keys == proxies.Keys - {ch};
      ProxyHandlers(proxies - {ch})[ch := OfProxy(proxies[ch])]
  }

  /** m with every proxy of ps sent to h. */
  ghost function SendAllTo(m: map<PortProxySession, Hub>, ps: set<PortProxySession>, h: Hub)
    : (r: map<PortProxySession, Hub>)
    ensures r.Keys == m.Keys + ps
    ensures forall p | p in r :: r[p] == if p in ps then h else m[p]
  {
    if ps == {} then m
    else
      var p :| p in ps;
      SendAllTo(m, ps - {p}, h)[p := h]
  }

  ghost function RegisterPtysIn(r: Reg, h: Hub): Reg
  {
    r.(handlers := r.handlers[h := HandlersOf(r, h) + PtyHandlers(r.ptys)])
  }

  ghost function RegisterProxiesIn(r: Reg, h: Hub): Reg
  {
    r.(handlers := r.handlers[h := HandlersOf(r, h) + ProxyHandlers(r.proxies)],
       proxyHub := SendAllTo(r.proxyHub, r.proxies.Values, h))
  }

  /** handleWS up to Run: control handler, PTYs, proxies (which also attach). */
  ghost function ConnectIn(r: Reg, h: Hub): Reg
  {
    RegisterProxiesIn(RegisterPtysIn(RegisterIn(r, h, 0, Control), h), h)
  }

  function CloseHubIn(r: Reg, h: Hub): Reg
  {
    r.(handlers := r.handlers[h := map[]])
  }

  /** detachHub and detachProxies: every session of the user, whatever hub it uses. */
  function DetachIn(r: Reg): Reg
  {
    r.(sender := r.sender - r.ptys.Values, proxyHub := r.proxyHub - r.proxies.Values)
  }

  // ---------------------------------------------------------------------
  // Hub

  /** Send with nothing happening between its two selects. */
  function SendAlone(h: HubState, g: nat, f: Frame): HubState
  {
    Next(Next(h, SendCheck(g, f)), SendSelect(g, false))
  }

  /** The object that closing a handler changes. */
  function Closes(hd: Handler): set<object>
  {
    match hd
    case Control => {}
    case OfPty(s) => {s}
    case OfProxy(p) => {p}
  }

  /** What closing a handler does. */
  twostate predicate Closed(hd: Handler, k: Kernel)
    reads Closes(hd), k
  {
    match hd
    case Control => k.kills == old(k.kills)
    case OfPty(s) =>
      && s.closed && s.sender == old(s.sender) && s.produced == old(s.produced)
      && k.kills == if old(s.closed) then old(k.kills) else old(k.kills) + [s]
    case OfProxy(p) => p.closed && p.h == old(p.h) && k.kills == old(k.kills)
  }

  /** What the writer's select finds ready, and how the write ends. */
  datatype WriterEvent = Stop | Data(ok: bool) | Tick(ok: bool)

  class Hub {
    var handlers: map<uint16, Handler>
    var writeCh: seq<Msg>
    var done: bool
    ghost var out: HubState // the hub machine's state, wire and call log included

    ghost predicate Valid()
      reads this
    {
      && out.queue == writeCh
      && out.done == done
      && Conserved(out)
      && out.sending == map[]
    }

    constructor ()
      ensures Valid() && out == NEW_HUB && handlers == map[]
    {
      handlers, writeCh, done := map[], [], false;
      out := NEW_HUB;
      new;
      RunConserves([]);
    }

    method Register(ch: uint16, hd: Handler)
      modifies this`handlers
      ensures handlers == old(handlers)[ch := hd]
    {
      handlers := handlers[ch := hd];
    }

    /** Removes a handler and closes it, whatever it is. */
    method Unregister(ch: uint16, k: Kernel)
      modifies this`handlers, k
      modifies if ch in handlers then Closes(handlers[ch]) else {}
      ensures handlers == old(handlers) - {ch}
      ensures if ch in old(handlers) then Closed(old(handlers)[ch], k) else k.kills == old(k.kills)
    {
      if ch in handlers {
        var hd := handlers[ch];
        handlers := handlers - {ch};
        match hd {
          case Control =>
          case OfPty(s) => s.Close(k);
          case OfProxy(p) => p.Close();
        }
      }
    }

    /** Queues a frame; full queues lose it and still report success. */
    method Send(g: nat, f: Frame) returns (ok: bool)
      requires Valid()
      modifies this`writeCh, this`out
      ensures Valid()
      ensures out == SendAlone(old(out), g, f)
      ensures ok <==> !done
      ensures writeCh == if !done && |old(writeCh)| < WRITE_CHAN_SIZE then old(writeCh) + [Encode(f)] else old(writeCh)
    {
      hide Encode, Conserved;
      StepConserves(out, SendCheck(g, f));
      StepConserves(Next(out, SendCheck(g, f)), SendSelect(g, false));
      out := SendAlone(out, g, f);
      assert out.sending == map[];
      if done {
        return false;
      }
      var data := Encode(f);
      if |writeCh| < WRITE_CHAN_SIZE {
        writeCh := writeCh + [data];
      }
      return true;
    }

    /** Runs once: marks the hub done and forgets its handlers, without closing them. */
    method Close()
      requires Valid()
      modifies this
      ensures Valid() && done
      ensures out == Next(old(out), HubFifo.Close) && writeCh == old(writeCh)
      ensures handlers == if old(done) then old(handlers) else map[]
    {
      hide Conserved;
      StepConserves(out, HubFifo.Close);
      out := Next(out, HubFifo.Close);
      if !done {
        done := true;
        handlers := map[];
      }
    }

    /** One iteration of the writer goroutine; the event is one that is ready. */
    method WriterIteration(ev: WriterEvent) returns (exit: bool)
      requires Valid() && out.writer.Ready?
      requires ev.Stop? ==> done
      requires ev.Data? ==> writeCh != []
      modifies this
      ensures Valid()
      ensures out == match ev
                     case Stop => Next(old(out), WriterStop)
                     case Data(ok) => Next(Next(old(out), WriterTake), WriterWrite(ok))
                     case Tick(ok) => if ok then old(out) else Next(old(out), PingFailed)
      ensures exit <==> out.writer.Exited?
      ensures ev.Data? && ev.ok ==> out.written == old(out.written) + [old(writeCh)[0]]
      ensures handlers == if done && !old(done) then map[] else old(handlers)
    {
      hide Conserved, Encode;
      ghost var before := out;
      match ev {
        case Stop =>
          StepConserves(out, WriterStop);
          out := Next(out, WriterStop);
          exit := true;
        case Data(ok) =>
          var data := writeCh[0];
          writeCh := writeCh[1..];
          StepConserves(out, WriterTake);
          out := Next(out, WriterTake);
          StepConserves(out, WriterWrite(ok));
          out := Next(out, WriterWrite(ok));
          if !ok && !done {
            done := true;
            handlers := map[];
          }
          exit := !ok;
        case Tick(ok) =>
          if !ok {
            StepConserves(out, PingFailed);
            out := Next(out, PingFailed);
            if !done {
              done := true;
              handlers := map[];
            }
          }
          exit := !ok;
      }
    }
  }

  // ---------------------------------------------------------------------
  // PTY session

  /** Receives the SIGKILLs. */
  class Kernel {
    ghost var kills: seq<Session>

    constructor ()
      ensures kills == []
    {
      kills := [];
    }
  }

  class Session {
    const chanID: uint16
    const ring: RingBuffer
    var sender: Hub?
    var closed: bool
    ghost var produced: seq<byte>

    ghost predicate Valid()
      reads this, ring, ring.buf
    {
      && ring.Valid()
      && ring.cap == RING_CAP
      && ring.Contents() == LastN(produced, RING_CAP)
    }

    constructor (ch: uint16)
      ensures Valid() && fresh(ring) && fresh(ring.buf)
      ensures chanID == ch && sender == null && !closed && produced == []
    {
      chanID := ch;
      ring := new RingBuffer(RING_CAP);
      sender, closed := null, false;
      produced := [];
    }

    /** Replays the ring, if it holds anything, then goes live. */
    method Attach(h: Hub)
      requires Valid() && h.Valid()
      modifies this`sender, h`writeCh, h`out
      ensures Valid() && h.Valid()
      ensures sender == h
      ensures h.out == if produced == [] then old(h.out)
                       else SendAlone(old(h.out), SESSION, Frame(FRAME_DATA, chanID, LastN(produced, RING_CAP)))
    {
      var data := ring.Bytes();
      if |data| > 0 {
        var _ := h.Send(SESSION, Frame(FRAME_DATA, chanID, data));
      }
      sender := h;
    }

    method Detach()
      modifies this`sender
      ensures sender == null
    {
      sender := null;
    }

    /** The reader's critical section for one read. */
    method Forward(data: seq<byte>)
      requires Valid() && 0 < |data| <= READ_SIZE
      requires sender != null ==> sender.Valid()
      modifies ring, ring.buf, this`produced
      modifies if sender == null then {} else {sender}
      ensures Valid()
      ensures produced == old(produced) + data
      ensures sender != null ==>
                sender.Valid() && sender.handlers == old(sender.handlers)
                && sender.out == SendAlone(old(sender.out), SESSION, Frame(FRAME_DATA, chanID, data))
    {
      LastNAppend(produced, data, RING_CAP);
      ring.Write(data);
      produced := produced + data;
      if sender != null {
        var _ := sender.Send(SESSION, Frame(FRAME_DATA, chanID, data));
      }
    }

    /** Kills the process group, once. */
    method Close(k: Kernel)
      modifies this`closed, k
      ensures closed
      ensures k.kills == if old(closed) then old(k.kills) else old(k.kills) + [this]
    {
      if !closed {
        closed := true;
        k.kills := k.kills + [this];
      }
    }
  }

  /** The methods are the session's steps of module Replay, run without
      interference: Attach and Forward do to the hub what lock, Send and unlock do there, and
      Detach clears the sender. */
  lemma SessionMethodsAreSteps(s: Sys, h: nat, data: seq<byte>)
    requires Inv(s) && s.lock.Free? && h in s.hubs && 0 < |data| <= READ_SIZE
    ensures var a := Apply(Apply(s, SysStep.Attach(h)), Select(false));
            && a.lock.Free? && a.sender == Some(h)
            && a.hubs == if s.produced == [] then s.hubs
                         else s.hubs[h := SendAlone(s.hubs[h], SESSION,
                                                    Frame(FRAME_DATA, s.chan, LastN(s.produced, RING_CAP)))]
    ensures var o := Apply(Apply(s, Output(data)), Select(false));
            && o.lock.Free? && o.sender == s.sender && o.produced == s.produced + data
            && o.hubs == if s.sender.None? then s.hubs
                         else s.hubs[s.sender.value := SendAlone(s.hubs[s.sender.value], SESSION,
                                                                 Frame(FRAME_DATA, s.chan, data))]
    ensures Apply(s, SysStep.Detach) == s.(sender := None)
  {
    hide Encode, Conserved, Covered, LastN;
    assert HubOk(s.chan, s.lock, h, s.hubs[h]);
    if s.sender.Some? {
      assert HubOk(s.chan, s.lock, s.sender.value, s.hubs[s.sender.value]);
    }
  }

  // ---------------------------------------------------------------------
  // Port proxy

  const FRAME_CLOSE_PROXY: byte := 0x10
  const PROXY_READ: nat := 32 * 1024
  const PROXY: nat := 2 // the goroutine of readLoop

  class PortProxySession {
    const chanID: uint16
    var h: Hub?
    var taken: Hub? // readLoop's own copy of h, from reading it to the end of Send
    var closed: bool

    constructor (ch: uint16, hub: Hub)
      ensures chanID == ch && h == hub && taken == null && !closed
    {
      chanID, h, taken, closed := ch, hub, null, false;
    }

    method Attach(hub: Hub)
      modifies this`h
      ensures h == hub
    {
      h := hub;
    }

    method Detach()
      modifies this`h
      ensures h == null
    {
      h := null;
    }

    /** readLoop reads the hub under hubMu, before each Send. */
    method TakeHub()
      modifies this`taken
      ensures taken == h
    {
      taken := h;
    }

    /** readLoop sends a read after releasing hubMu: to the hub it took, which may have
        been detached or replaced since, or to nobody. */
    method Forward(data: seq<byte>)
      requires taken != null ==> taken.Valid()
      requires |data| <= PROXY_READ
      modifies this`taken
      modifies if taken == null then {} else {taken}
      ensures taken == null
      ensures var to := old(taken);
              to != null ==>
                to.Valid() && to.handlers == old(to.handlers)
                && to.out == if data == [] then old(to.out)
                             else SendAlone(old(to.out), PROXY, Frame(FRAME_DATA, chanID, data))
    {
      if |data| > 0 && taken != null {
        var _ := taken.Send(PROXY, Frame(FRAME_DATA, chanID, data));
      }
      taken := null;
    }

    /** The end of readLoop: tell the client behind the hub that was taken, then close. */
    method EndOfInput(notice: seq<byte>)
      requires taken != null ==> taken.Valid()
      modifies this`taken, this`closed
      modifies if taken == null then {} else {taken}
      ensures taken == null && closed
      ensures var to := old(taken);
              to != null ==>
                to.Valid() && to.handlers == old(to.handlers)
                && to.out == SendAlone(old(to.out), PROXY, Frame(FRAME_CLOSE_PROXY, chanID, notice))
    {
      if taken != null {
        var _ := taken.Send(PROXY, Frame(FRAME_CLOSE_PROXY, chanID, notice));
      }
      taken := null;
      closed := true;
    }

    method Close()
      modifies this`closed
      ensures closed
    {
      closed := true;
    }
  }
}
