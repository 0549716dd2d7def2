/** The relay: devices connect by web socket, callers dispatch to them, and results find their way back. */
module Relay {
  import opened Wrappers
  import opened Bytes
  import opened Ids

  datatype RelayError =
    | InvalidActionRequest
    | RemoteActionNotAllowed
    | DeviceOffline
    | DuplicateRequest
    | ActionTimeout

  /** A request as the wire layer reads it, if it can. */
  datatype Canonical = Canonical(requestId: string, deviceId: string, action: string, digest: Digest32)

  /** What a signed approval says it is for. */
  datatype Challenge = Challenge(requestId: string, digest: Digest32)

  /** What a caller asks for; `approval` is there for `dispatch_approved_action` only, and may be unreadable. */
  datatype Request = Request(requestId: string, canonical: Option<Canonical>, approval: Option<Option<Challenge>>)

  datatype ActionResult = ActionResult(requestId: string, body: seq<byte>)

  /** Which actions may go to a device at all, without and with an approval. */
  datatype Policy = Policy(plain: string -> bool, approved: string -> bool)

  datatype Session = Session(id: nat, conn: nat)

  /** The two shared maps: the session of each device, and who waits for which result. */
  datatype Hub = Hub(devices: map<string, Session>, pending: map<(string, string), nat>)

  // -------------------------------------------------------------------- the shared maps

  function Registered(hub: Hub, device: string, session: Session): Hub {
    hub.(devices := hub.devices[device := session])
  }

  function Unregistered(hub: Hub, device: string, sessionId: nat): Hub {
    if device in hub.devices && hub.devices[device].id == sessionId then hub.(devices := hub.devices - {device}) else hub
  }

  function Enlisted(hub: Hub, key: (string, string), ticket: nat): Option<Hub> {
    if key in hub.pending then None else Some(hub.(pending := hub.pending[key := ticket]))
  }

  function Withdrawn(hub: Hub, key: (string, string)): Hub {
    hub.(pending := hub.pending - {key})
  }

  /** Who waits for a result of this device, and the hub once it is handed over. */
  function Claimed(hub: Hub, device: string, result: ActionResult): (Option<nat>, Hub) {
    var key := (device, result.requestId);
    if key in hub.pending then (Some(hub.pending[key]), Withdrawn(hub, key)) else (None, hub)
  }

  /** Whether a request may go to the device at all. */
  function Refusal(policy: Policy, device: string, request: Request): Option<RelayError> {
    if request.canonical.None? || request.approval == Some(None) then Some(InvalidActionRequest)
    else
      var canonical := request.canonical.value;
      if canonical.deviceId != device || Blank(request.requestId) then Some(InvalidActionRequest)
      else
        match request.approval
        case None =>
          if policy.plain(canonical.action) || policy.approved(canonical.action) then None else Some(RemoteActionNotAllowed)
        case Some(signed) =>
          if signed.value != Challenge(canonical.requestId, canonical.digest) then Some(InvalidActionRequest)
          else if policy.approved(canonical.action) then None else Some(RemoteActionNotAllowed)
  }

  /** The request can be read, names this device, and has an id and, if any, a readable approval. */
  ghost predicate Addressed(device: string, request: Request) {
    && request.canonical.Some? && request.canonical.value.deviceId == device && HasText(request.requestId)
    && request.approval != Some(None)
  }

  /** A request that says it is approved bears an approval of that very request. */
  predicate ApprovedAsSaid(request: Request)
    requires request.canonical.Some?
  {
    request.approval.Some? && request.approval.value.Some? ==>
      && request.approval.value.value.requestId == request.canonical.value.requestId
      && request.approval.value.value.digest == request.canonical.value.digest
  }

  /** What may go to a device, and why the rest is refused: as malformed, or for what it asks to be done. */
  lemma RefusalExactly(policy: Policy, device: string, request: Request)
    ensures var refusal := Refusal(policy, device, request);
            var sound := Addressed(device, request) && ApprovedAsSaid(request);
            && (refusal == Some(InvalidActionRequest) <==> !sound)
            && (sound ==>
                 var action := request.canonical.value.action;
                 var allowed := policy.approved(action) || (request.approval.None? && policy.plain(action));
                 refusal == if allowed then None else Some(RemoteActionNotAllowed))
  {
    BlankExactly(request.requestId);
  }

  /** How the wait on the one-shot channel ends: with a result, with the sender dropped, or out of time. */
  datatype Ending = Arrived(result: ActionResult) | SenderDropped | RanOut

  /** The hub as the source has it: two maps changed in place. */
  class RelayHub {
    var devices: map<string, Session>
    var pending: map<(string, string), nat>

    constructor ()
      ensures Contents() == Hub(map[], map[])
    {
      devices := map[];
      pending := map[];
    }

    function Contents(): Hub
      reads this
    {
      Hub(devices, pending)
    }

    method Register(device: string, sessionId: nat, conn: nat)
      modifies this`devices
      ensures Contents() == Registered(old(Contents()), device, Session(sessionId, conn))
    {
      devices := devices[device := Session(sessionId, conn)];
    }

    method Unregister(device: string, sessionId: nat)
      modifies this`devices
      ensures Contents() == Unregistered(old(Contents()), device, sessionId)
    {
      if device in devices && devices[device].id == sessionId {
        devices := devices - {device};
      }
    }

    /** The waiter a result is for, who is taken off the list. */
    method CompleteResult(device: string, result: ActionResult) returns (ticket: Option<nat>)
      modifies this`pending
      ensures (ticket, Contents()) == Claimed(old(Contents()), device, result)
    {
      var key := (device, result.requestId);
      if key !in pending {
        return None;
      }
      ticket := Some(pending[key]);
      pending := pending - {key};
    }

    /** Up to the wait: a request that may go, to a device that is there, and not asked for already. */
    method Enlist(policy: Policy, device: string, request: Request, ticket: nat) returns (r: Result<Session, RelayError>)
      modifies this`pending
      ensures var refusal := Refusal(policy, device, request);
              var key := (device, request.requestId);
              && (r.Err? ==> Contents() == old(Contents()))
              && (refusal.Some? ==> r == Err(refusal.value))
              && (refusal.None? && device !in devices ==> r == Err(DeviceOffline))
              && (refusal.None? && device in devices && key in old(pending) ==> r == Err(DuplicateRequest))
              && (refusal.None? && device in devices && key !in old(pending) ==>
                    r == Ok(devices[device]) && Enlisted(old(Contents()), key, ticket) == Some(Contents()))
    {
      var refusal := Refusal(policy, device, request);
      if refusal.Some? {
        return Err(refusal.value);
      }
      if device !in devices {
        return Err(DeviceOffline);
      }
      var key := (device, request.requestId);
      if key in pending {
        return Err(DuplicateRequest);
      }
      pending := pending[key := ticket];
      r := Ok(devices[device]);
    }

    method Withdraw(key: (string, string))
      modifies this`pending
      ensures Contents() == Withdrawn(old(Contents()), key)
    {
      pending := pending - {key};
    }

    /** From the sending of the frame on: only a result leaves the list as it is by then. */
    method AwaitResult(key: (string, string), sent: bool, ending: Ending) returns (r: Result<ActionResult, RelayError>)
      modifies this`pending
      ensures r.Ok? <==> sent && ending.Arrived?
      ensures r.Ok? ==> r.value == ending.result && Contents() == old(Contents())
      ensures r.Err? ==>
                && r.error == (if sent && ending.RanOut? then ActionTimeout else DeviceOffline)
                && Contents() == Withdrawn(old(Contents()), key)
    {
      if !sent {
        Withdraw(key);
        return Err(DeviceOffline);
      }
      match ending {
        case Arrived(result) =>
          r := Ok(result);
        case SenderDropped =>
          Withdraw(key);
          r := Err(DeviceOffline);
        case RanOut =>
          Withdraw(key);
          r := Err(ActionTimeout);
      }
    }
  }

  // ------------------------------------------------------- connections and waiting callers

  datatype Payload = Hello(deviceId: string) | Heartbeat | ResultFrame(result: ActionResult) | OtherFrame

  datatype Stage = Open | Closing | Closed

  /** One web socket, authenticated as `device` when it was opened; frames for it queue up until it is bound. */
  datatype Conn = Conn(
    device: string,
    session: Option<nat>,
    stage: Stage,
    queue: seq<Request>,
    sent: seq<Request>,
    accepted: seq<Payload>
  )

  datatype Wait =
    | Admitted(session: Session)
    | Listed(session: Session)
    | Waiting
    | Failing(error: RelayError)
    | Answered(outcome: Result<ActionResult, RelayError>)
    | Dropped

  /** A caller of dispatch, dropped if whoever asked went away; `slot` is what has been put into its one-shot channel. */
  datatype Waiter = Waiter(device: string, request: Request, wait: Wait, slot: Option<ActionResult>)

  /** A result accepted from a connection, and the caller it was handed to. */
  datatype Delivery = Delivery(conn: nat, result: ActionResult, ticket: nat)

  datatype World = World(
    hub: Hub,
    conns: map<nat, Conn>,
    waiters: map<nat, Waiter>,
    sessions: set<nat>,
    deliveries: seq<Delivery>
  )

  datatype Action =
    | Connect(conn: nat, device: string)
    | Frame(conn: nat, frameDevice: string, passes: bool, payload: Payload, session: nat, acked: bool)
    | Send(conn: nat)
    | Hang(conn: nat)
    | Finish(conn: nat)
    | Dispatch(ticket: nat, device: string, request: Request)
    | List(ticket: nat)
    | Forward(ticket: nat)
    | Fail(ticket: nat)
    | Receive(ticket: nat)
    | Timeout(ticket: nat)
    | Abandon(ticket: nat)
    | Drop(ticket: nat)

  function Key(w: Waiter): (string, string) {
    (w.device, w.request.requestId)
  }

  /** A caller that still listens; one that timed out has dropped its channel. */
  predicate Listening(w: Waiter) {
    w.wait.Listed? || w.wait.Waiting? || (w.wait.Failing? && w.wait.error.DeviceOffline?)
  }

  function SetConn(w: World, c: nat, conn: Conn): World {
    w.(conns := w.conns[c := conn])
  }

  function SetWait(w: World, t: nat, wait: Wait): World
    requires t in w.waiters
  {
    w.(waiters := w.waiters[t := w.waiters[t].(wait := wait)])
  }

  /** A result that has come in on a bound connection; `None` if nobody waits for it. */
  function HandOver(w: World, c: nat, result: ActionResult): (bool, World)
    requires c in w.conns
  {
    var (ticket, hub) := Claimed(w.hub, w.conns[c].device, result);
    var n := w.(hub := hub);
    if ticket.None? || ticket.value !in w.waiters || !Listening(w.waiters[ticket.value]) then (false, n)
    else
      var t := ticket.value;
      (true, n.(waiters := n.waiters[t := n.waiters[t].(slot := Some(result))],
                deliveries := n.deliveries + [Delivery(c, result, t)]))
  }

  /** A frame from the device: what it does, and whether it is accepted. */
  function Processed(w: World, a: Action): (bool, World)
    requires a.Frame? && a.conn in w.conns
  {
    var me := w.conns[a.conn];
    if !a.passes || a.frameDevice != me.device then (false, w)
    else if me.session.None? then
      if a.payload == Hello(me.device) && a.session !in w.sessions then
        (true, SetConn(w, a.conn, me.(session := Some(a.session)))
               .(hub := Registered(w.hub, me.device, Session(a.session, a.conn)), sessions := w.sessions + {a.session}))
      else (false, w)
    else
      match a.payload
      case Heartbeat => (true, w)
      case Hello(device) => (device == me.device, w)
      case ResultFrame(result) => HandOver(w, a.conn, result)
      case OtherFrame => (false, w)
  }

  /** A refused frame, or an acknowledgement that cannot be sent, ends the connection. */
  function FrameStep(w: World, a: Action): World
    requires a.Frame? && a.conn in w.conns
  {
    var (ok, n) := Processed(w, a);
    if a.conn !in n.conns then n
    else
      var me := n.conns[a.conn];
      SetConn(n, a.conn, me.(accepted := if ok then me.accepted + [a.payload] else me.accepted,
                             stage := if ok && a.acked then Open else Closing))
  }

  /** The end of a connection takes its own session away, and no other. */
  function FinishStep(w: World, c: nat): World
    requires c in w.conns
  {
    var me := w.conns[c];
    SetConn(w, c, me.(stage := Closed))
    .(hub := if me.session.Some? then Unregistered(w.hub, me.device, me.session.value) else w.hub)
  }

  /** Somebody is listed for this device and request, and still there to take the result. */
  predicate Awaited(w: World, device: string, requestId: string) {
    && (device, requestId) in w.hub.pending
    && var t := w.hub.pending[(device, requestId)];
       && t in w.waiters
       && (w.waiters[t].wait.Listed? || w.waiters[t].wait.Waiting? || w.waiters[t].wait == Failing(DeviceOffline))
  }

  /** Which frames are accepted: first of all a greeting of the device's own, then signs of life, greetings and awaited results. */
  predicate Welcome(w: World, a: Action)
    requires a.Frame? && a.conn in w.conns
  {
    var me := w.conns[a.conn];
    && a.passes && a.frameDevice == me.device
    && match a.payload
       case Hello(device) => device == me.device && (me.session.None? ==> a.session !in w.sessions)
       case Heartbeat => me.session.Some?
       case ResultFrame(result) => me.session.Some? && Awaited(w, me.device, result.requestId)
       case OtherFrame => false
  }

  lemma ListeningExactly(me: Waiter)
    ensures Listening(me) <==> me.wait.Listed? || me.wait.Waiting? || me.wait == Failing(DeviceOffline)
  {}

  /** A frame is accepted exactly if it is welcome; the connection stays open exactly if that can be acknowledged too. */
  lemma FrameExactly(w: World, a: Action)
    requires a.Frame? && a.conn in w.conns
    ensures var me, n := w.conns[a.conn], FrameStep(w, a);
            && a.conn in n.conns && n.conns[a.conn].device == me.device
            && n.conns[a.conn].accepted == (if Welcome(w, a) then me.accepted + [a.payload] else me.accepted)
            && n.conns[a.conn].stage == (if Welcome(w, a) && a.acked then Open else Closing)
            && n.conns[a.conn].session == (if me.session.None? && Welcome(w, a) then Some(a.session) else me.session)
            && n.hub.devices == (if me.session.None? && Welcome(w, a)
                                 then w.hub.devices[me.device := Session(a.session, a.conn)] else w.hub.devices)
  {
    if a.payload.ResultFrame? {
      var key := (w.conns[a.conn].device, a.payload.result.requestId);
      if key in w.hub.pending && w.hub.pending[key] in w.waiters {
        ListeningExactly(w.waiters[w.hub.pending[key]]);
      }
    }
  }

  function ConnStep(w: World, a: Action): World
    requires (a.Frame? || a.Send? || a.Hang? || a.Finish?) && a.conn in w.conns
  {
    var me := w.conns[a.conn];
    match a
    case Frame(_, _, _, _, _, _) => if me.stage.Open? then FrameStep(w, a) else w
    case Send(c) =>
      if me.stage.Open? && me.session.Some? && me.queue != [] then
        SetConn(w, c, me.(queue := me.queue[1..], sent := me.sent + [me.queue[0]]))
      else w
    case Hang(c) => if me.stage.Open? then SetConn(w, c, me.(stage := Closing)) else w
    case Finish(c) => if me.stage.Closing? then FinishStep(w, c) else w
  }

  function DispatchStep(policy: Policy, w: World, t: nat, device: string, request: Request): World {
    var refusal := Refusal(policy, device, request);
    var wait := if refusal.Some? then Answered(Err(refusal.value))
                else if device !in w.hub.devices then Answered(Err(DeviceOffline))
                else Admitted(w.hub.devices[device]);
    w.(waiters := w.waiters[t := Waiter(device, request, wait, None)])
  }

  function ListStep(w: World, t: nat): World
    requires t in w.waiters && w.waiters[t].wait.Admitted?
  {
    match Enlisted(w.hub, Key(w.waiters[t]), t)
    case None => SetWait(w, t, Answered(Err(DuplicateRequest)))
    case Some(hub) => SetWait(w, t, Listed(w.waiters[t].wait.session)).(hub := hub)
  }

  /** The frame goes into the connection's queue, unless the connection has gone for good. */
  function ForwardStep(w: World, t: nat): World
    requires t in w.waiters && w.waiters[t].wait.Listed?
  {
    var c := w.waiters[t].wait.session.conn;
    if c !in w.conns || w.conns[c].stage.Closed? then SetWait(w, t, Failing(DeviceOffline))
    else SetWait(SetConn(w, c, w.conns[c].(queue := w.conns[c].queue + [w.waiters[t].request])), t, Waiting)
  }

  function WaitStep(w: World, a: Action): World
    requires (a.List? || a.Forward? || a.Fail? || a.Receive? || a.Timeout? || a.Abandon? || a.Drop?) && a.ticket in w.waiters
  {
    var t := a.ticket;
    var me := w.waiters[t];
    match a
    case List(_) => if me.wait.Admitted? then ListStep(w, t) else w
    case Forward(_) => if me.wait.Listed? then ForwardStep(w, t) else w
    case Receive(_) => if me.wait.Waiting? && me.slot.Some? then SetWait(w, t, Answered(Ok(me.slot.value))) else w
    case Abandon(_) =>
      if me.wait.Waiting? && me.slot.None? && (Key(me) !in w.hub.pending || w.hub.pending[Key(me)] != t) then
        SetWait(w, t, Failing(DeviceOffline))
      else w
    case Timeout(_) => if me.wait.Waiting? then SetWait(w, t, Failing(ActionTimeout)) else w
    case Drop(_) => if me.wait.Answered? then w else SetWait(w, t, Dropped)
    case Fail(_) =>
      if me.wait.Failing? then SetWait(w, t, Answered(Err(me.wait.error))).(hub := Withdrawn(w.hub, Key(me))) else w
  }

  /** One step of one connection or one caller. */
  function Step(policy: Policy, w: World, a: Action): World {
    match a
    case Connect(c, device) => if c in w.conns then w else SetConn(w, c, Conn(device, None, Open, [], [], []))
    case Dispatch(t, device, request) => if t in w.waiters then w else DispatchStep(policy, w, t, device, request)
    case Frame(c, _, _, _, _, _) => if c in w.conns then ConnStep(w, a) else w
    case Send(c) => if c in w.conns then ConnStep(w, a) else w
    case Hang(c) => if c in w.conns then ConnStep(w, a) else w
    case Finish(c) => if c in w.conns then ConnStep(w, a) else w
    case List(t) => if t in w.waiters then WaitStep(w, a) else w
    case Forward(t) => if t in w.waiters then WaitStep(w, a) else w
    case Fail(t) => if t in w.waiters then WaitStep(w, a) else w
    case Receive(t) => if t in w.waiters then WaitStep(w, a) else w
    case Timeout(t) => if t in w.waiters then WaitStep(w, a) else w
    case Abandon(t) => if t in w.waiters then WaitStep(w, a) else w
    case Drop(t) => if t in w.waiters then WaitStep(w, a) else w
  }

  function Run(policy: Policy, w: World, actions: seq<Action>): World {
    if actions == [] then w
    else Step(policy, Run(policy, w, actions[..|actions| - 1]), actions[|actions| - 1])
  }

  function Start(): World {
    World(Hub(map[], map[]), map[], map[], {}, [])
  }

  // ----------------------------------------------------------------- what always holds

  /** A request in a connection's hands is for the device it is authenticated as, and was allowed to go there. */
  predicate Routed(policy: Policy, device: string, request: Request) {
    Refusal(policy, device, request).None?
  }

  ghost predicate ConnSound(policy: Policy, w: World, c: nat)
    requires c in w.conns
  {
    var me := w.conns[c];
    && (forall r | r in me.queue + me.sent :: Routed(policy, me.device, r))
    && (me.session.None? ==> me.accepted == [] && me.sent == [])
    && (me.session.Some? ==> me.accepted != [])
    && (me.accepted != [] ==> me.accepted[0] == Hello(me.device))
    && (me.session.Some? ==> me.session.value in w.sessions)
    && (me.stage.Closed? ==> forall d | d in w.hub.devices :: w.hub.devices[d].conn != c)
  }

  ghost predicate ConnsSound(policy: Policy, w: World) {
    forall c | c in w.conns :: ConnSound(policy, w, c)
  }

  /** The session of a device is one of a connection of that device that has not finished. */
  ghost predicate DevicesSound(w: World) {
    && (forall d | d in w.hub.devices ::
          var s := w.hub.devices[d];
          s.conn in w.conns && w.conns[s.conn].device == d && w.conns[s.conn].session == Some(s.id))
    && (forall b, c | b in w.conns && c in w.conns && b != c && w.conns[b].session.Some? ::
          w.conns[b].session != w.conns[c].session)
  }

  /** What a caller got, or is about to get, is a result of its own device with its own request id. */
  ghost predicate Earned(w: World, t: nat, result: ActionResult)
    requires t in w.waiters
  {
    exists d | d in w.deliveries ::
      && d.ticket == t && d.result == result && d.conn in w.conns && w.conns[d.conn].session.Some?
      && w.conns[d.conn].device == w.waiters[t].device && result.requestId == w.waiters[t].request.requestId
  }

  ghost predicate WaiterSound(policy: Policy, w: World, t: nat)
    requires t in w.waiters
  {
    var me := w.waiters[t];
    && (me.slot.Some? ==> Earned(w, t, me.slot.value))
    && (me.wait.Admitted? || me.wait.Listed? || me.wait.Waiting? ==> Routed(policy, me.device, me.request))
    && (me.wait.Admitted? ==> me.slot.None? && forall key | key in w.hub.pending :: w.hub.pending[key] != t)
    && (me.wait.Admitted? || me.wait.Listed? ==> SessionOf(w, me.device, me.wait.session))
    && (me.wait.Answered? && me.wait.outcome.Ok? ==> me.slot == Some(me.wait.outcome.value))
  }

  /** The session was, when it was looked up, one of a connection of this device. */
  predicate SessionOf(w: World, device: string, s: Session) {
    s.conn in w.conns && w.conns[s.conn].device == device
  }

  ghost predicate WaitersSound(policy: Policy, w: World) {
    forall t | t in w.waiters :: WaiterSound(policy, w, t)
  }

  /** A caller is listed under its own key only, has no result while it is, and is handed at most one. */
  ghost predicate PendingSound(w: World) {
    && (forall key | key in w.hub.pending ::
          var t := w.hub.pending[key];
          t in w.waiters && Key(w.waiters[t]) == key && w.waiters[t].slot.None?)
    && (forall i, j | 0 <= i < j < |w.deliveries| :: w.deliveries[i].ticket != w.deliveries[j].ticket)
    && (forall d | d in w.deliveries :: d.ticket in w.waiters && w.waiters[d.ticket].slot == Some(d.result))
  }

  ghost predicate Inv(policy: Policy, w: World) {
    ConnsSound(policy, w) && DevicesSound(w) && WaitersSound(policy, w) && PendingSound(w)
  }

  /** Connections come and change, but keep their device, and their session once they have one. */
  ghost predicate ConnsGrow(w: World, n: World) {
    forall c | c in w.conns ::
      && c in n.conns && n.conns[c].device == w.conns[c].device
      && (w.conns[c].session.Some? ==> n.conns[c].session == w.conns[c].session)
  }

  lemma WaitersKeep(policy: Policy, w: World, n: World)
    requires WaitersSound(policy, w) && ConnsGrow(w, n) && n.waiters == w.waiters && w.deliveries == n.deliveries
    requires forall key | key in n.hub.pending :: key in w.hub.pending && n.hub.pending[key] == w.hub.pending[key]
    ensures WaitersSound(policy, n)
  {
    forall t | t in n.waiters
      ensures WaiterSound(policy, n, t)
    {
      assert WaiterSound(policy, w, t);
      if w.waiters[t].slot.Some? {
        EarnedStays(w, n, t, w.waiters[t].slot.value);
      }
    }
  }

  lemma EarnedStays(w: World, n: World, t: nat, result: ActionResult)
    requires t in w.waiters && Earned(w, t, result) && ConnsGrow(w, n) && w.deliveries <= n.deliveries
    requires t in n.waiters && n.waiters[t].device == w.waiters[t].device && n.waiters[t].request == w.waiters[t].request
    ensures Earned(n, t, result)
  {
    var d :| d in w.deliveries
      && d.ticket == t && d.result == result && d.conn in w.conns && w.conns[d.conn].session.Some?
      && w.conns[d.conn].device == w.waiters[t].device && result.requestId == w.waiters[t].request.requestId;
    assert d in n.deliveries;
  }

  /** A step of one connection that leaves the hub, the callers and everyone else's connection alone. */
  lemma ConnAloneKeeps(policy: Policy, w: World, c: nat, conn: Conn)
    requires Inv(policy, w)
    requires c in w.conns ==> w.conns[c].device == conn.device && w.conns[c].session == conn.session
    requires c !in w.conns ==> conn.session.None?
    requires ConnSound(policy, SetConn(w, c, conn), c)
    ensures Inv(policy, SetConn(w, c, conn))
  {
    var n := SetConn(w, c, conn);
    forall b | b in n.conns && b != c
      ensures ConnSound(policy, n, b)
    {
      assert ConnSound(policy, w, b);
    }
    WaitersKeep(policy, w, n);
  }

  lemma ConnectKeeps(policy: Policy, w: World, c: nat, device: string)
    requires Inv(policy, w) && c !in w.conns
    ensures Inv(policy, SetConn(w, c, Conn(device, None, Open, [], [], [])))
  {
    ConnAloneKeeps(policy, w, c, Conn(device, None, Open, [], [], []));
  }

  lemma RegisterKeeps(policy: Policy, w: World, c: nat, id: nat, n: World)
    requires Inv(policy, w) && c in w.conns && w.conns[c].session.None? && w.conns[c].stage.Open? && id !in w.sessions
    requires var me := w.conns[c];
             n == SetConn(w, c, me.(session := Some(id), accepted := [Hello(me.device)]))
                  .(hub := Registered(w.hub, me.device, Session(id, c)), sessions := w.sessions + {id})
    ensures Inv(policy, n)
  {
    assert ConnSound(policy, w, c);
    forall b | b in n.conns
      ensures ConnSound(policy, n, b)
    {
      assert ConnSound(policy, w, b);
    }
    forall b | b in w.conns && w.conns[b].session.Some?
      ensures w.conns[b].session != Some(id)
    {
      assert ConnSound(policy, w, b);
    }
    WaitersKeep(policy, w, n);
  }

  /** Taking a caller off the list. */
  lemma WithdrawKeeps(policy: Policy, w: World, key: (string, string))
    requires Inv(policy, w)
    ensures Inv(policy, w.(hub := Withdrawn(w.hub, key)))
  {
    var n := w.(hub := Withdrawn(w.hub, key));
    forall c | c in n.conns
      ensures ConnSound(policy, n, c)
    {
      assert ConnSound(policy, w, c);
    }
    WaitersKeep(policy, w, n);
  }

  lemma HandedPending(policy: Policy, w: World, c: nat, result: ActionResult, t: nat, n: World)
    requires Inv(policy, w) && c in w.conns
    requires var key := (w.conns[c].device, result.requestId);
             && key in w.hub.pending && w.hub.pending[key] == t
             && t in w.waiters
             && n == w.(hub := Withdrawn(w.hub, key), waiters := w.waiters[t := w.waiters[t].(slot := Some(result))],
                        deliveries := w.deliveries + [Delivery(c, result, t)])
    ensures PendingSound(n)
  {
    forall i, j | 0 <= i < j < |n.deliveries|
      ensures n.deliveries[i].ticket != n.deliveries[j].ticket
    {
      assert w.deliveries[i] in w.deliveries;
    }
    forall k | k in n.hub.pending
      ensures var u := n.hub.pending[k]; u in n.waiters && Key(n.waiters[u]) == k && n.waiters[u].slot.None?
    {
      assert k in w.hub.pending;
    }
  }

  lemma HandedWaiters(policy: Policy, w: World, c: nat, result: ActionResult, t: nat, n: World)
    requires Inv(policy, w) && c in w.conns && w.conns[c].session.Some?
    requires var key := (w.conns[c].device, result.requestId);
             && key in w.hub.pending && w.hub.pending[key] == t
             && t in w.waiters
             && n == w.(hub := Withdrawn(w.hub, key), waiters := w.waiters[t := w.waiters[t].(slot := Some(result))],
                        deliveries := w.deliveries + [Delivery(c, result, t)])
    ensures WaitersSound(policy, n)
  {
    assert w.deliveries <= n.deliveries;
    var d := Delivery(c, result, t);
    assert n.deliveries[|w.deliveries|] == d;
    assert Key(w.waiters[t]) == (w.conns[c].device, result.requestId);
    assert Earned(n, t, result);
    forall u | u in n.waiters
      ensures WaiterSound(policy, n, u)
    {
      assert WaiterSound(policy, w, u);
      if u != t && w.waiters[u].slot.Some? {
        EarnedStays(w, n, u, w.waiters[u].slot.value);
      }
    }
  }

  lemma HandOverKeeps(policy: Policy, w: World, c: nat, result: ActionResult)
    requires Inv(policy, w) && c in w.conns && w.conns[c].session.Some?
    ensures Inv(policy, HandOver(w, c, result).1)
    ensures HandOver(w, c, result).1.conns == w.conns
  {
    var key := (w.conns[c].device, result.requestId);
    var (ok, n) := HandOver(w, c, result);
    if key in w.hub.pending {
      WithdrawKeeps(policy, w, key);
      if ok {
        HandedPending(policy, w, c, result, w.hub.pending[key], n);
        HandedWaiters(policy, w, c, result, w.hub.pending[key], n);
        forall b | b in n.conns
          ensures ConnSound(policy, n, b)
        {
          assert ConnSound(policy, w, b);
        }
      }
    }
  }

  lemma HelloKeeps(policy: Policy, w: World, a: Action)
    requires Inv(policy, w) && a.Frame? && a.conn in w.conns && w.conns[a.conn].stage.Open? && w.conns[a.conn].session.None?
    requires Processed(w, a).0
    ensures Inv(policy, FrameStep(w, a))
  {
    var me := w.conns[a.conn];
    assert ConnSound(policy, w, a.conn);
    var bound := me.(session := Some(a.session), accepted := [Hello(me.device)]);
    var m := SetConn(w, a.conn, bound)
             .(hub := Registered(w.hub, me.device, Session(a.session, a.conn)), sessions := w.sessions + {a.session});
    RegisterKeeps(policy, w, a.conn, a.session, m);
    assert ConnSound(policy, m, a.conn);
    var last := bound.(stage := if a.acked then Open else Closing);
    ConnAloneKeeps(policy, m, a.conn, last);
    assert me.accepted + [a.payload] == [Hello(me.device)];
    assert FrameStep(w, a).conns == SetConn(m, a.conn, last).conns;
  }

  lemma FrameKeeps(policy: Policy, w: World, a: Action)
    requires Inv(policy, w) && a.Frame? && a.conn in w.conns && w.conns[a.conn].stage.Open?
    ensures Inv(policy, FrameStep(w, a))
  {
    var me := w.conns[a.conn];
    var (ok, n) := Processed(w, a);
    if ok && me.session.None? {
      HelloKeeps(policy, w, a);
    } else {
      if a.passes && a.frameDevice == me.device && me.session.Some? && a.payload.ResultFrame? {
        HandOverKeeps(policy, w, a.conn, a.payload.result);
      }
      assert n.conns == w.conns && Inv(policy, n);
      assert ConnSound(policy, n, a.conn);
      var last := me.(accepted := if ok then me.accepted + [a.payload] else me.accepted,
                      stage := if ok && a.acked then Open else Closing);
      AcceptingKeepsConn(policy, n, a.conn, ok, a.payload, last.stage);
      ConnAloneKeeps(policy, n, a.conn, last);
    }
  }

  lemma AcceptingKeepsConn(policy: Policy, w: World, c: nat, ok: bool, payload: Payload, stage: Stage)
    requires c in w.conns && ConnSound(policy, w, c) && !stage.Closed?
    requires ok ==> w.conns[c].session.Some? && (w.conns[c].accepted == [] ==> payload == Hello(w.conns[c].device))
    ensures var me := w.conns[c];
            var accepted := if ok then me.accepted + [payload] else me.accepted;
            ConnSound(policy, SetConn(w, c, me.(accepted := accepted, stage := stage)), c)
  {}

  lemma UnregisteredSessionGone(w: World, c: nat)
    requires DevicesSound(w) && c in w.conns
    ensures forall d | d in FinishStep(w, c).hub.devices :: w.hub.devices[d].conn != c
  {
    forall d | d in FinishStep(w, c).hub.devices
      ensures w.hub.devices[d].conn != c
    {
      assert d in w.hub.devices;
    }
  }

  lemma FinishKeeps(policy: Policy, w: World, c: nat)
    requires Inv(policy, w) && c in w.conns
    ensures Inv(policy, FinishStep(w, c))
  {
    var n := FinishStep(w, c);
    UnregisteredSessionGone(w, c);
    forall b | b in n.conns
      ensures ConnSound(policy, n, b)
    {
      assert ConnSound(policy, w, b);
    }
    WaitersKeep(policy, w, n);
  }

  /** One caller moves on; the list, the results and the connections stay. */
  lemma WaitAloneKeeps(policy: Policy, w: World, t: nat, wait: Wait)
    requires Inv(policy, w) && t in w.waiters && WaiterSound(policy, SetWait(w, t, wait), t)
    ensures Inv(policy, SetWait(w, t, wait))
  {
    var n := SetWait(w, t, wait);
    forall c | c in n.conns
      ensures ConnSound(policy, n, c)
    {
      assert ConnSound(policy, w, c);
    }
    forall u | u in n.waiters && u != t
      ensures WaiterSound(policy, n, u)
    {
      assert WaiterSound(policy, w, u);
      if w.waiters[u].slot.Some? {
        EarnedStays(w, n, u, w.waiters[u].slot.value);
      }
    }
  }

  /** Moving on never costs a caller the result it has. */
  lemma StillEarned(policy: Policy, w: World, t: nat, wait: Wait)
    requires t in w.waiters && WaiterSound(policy, w, t)
    ensures w.waiters[t].slot.Some? ==> Earned(SetWait(w, t, wait), t, w.waiters[t].slot.value)
  {
    if w.waiters[t].slot.Some? {
      EarnedStays(w, SetWait(w, t, wait), t, w.waiters[t].slot.value);
    }
  }

  lemma DispatchKeeps(policy: Policy, w: World, t: nat, device: string, request: Request)
    requires Inv(policy, w) && t !in w.waiters
    ensures Inv(policy, DispatchStep(policy, w, t, device, request))
  {
    var n := DispatchStep(policy, w, t, device, request);
    forall c | c in n.conns
      ensures ConnSound(policy, n, c)
    {
      assert ConnSound(policy, w, c);
    }
    forall u | u in n.waiters
      ensures WaiterSound(policy, n, u)
    {
      if u != t {
        assert WaiterSound(policy, w, u);
        if w.waiters[u].slot.Some? {
          EarnedStays(w, n, u, w.waiters[u].slot.value);
        }
      }
    }
  }

  lemma ListKeeps(policy: Policy, w: World, t: nat)
    requires Inv(policy, w) && t in w.waiters && w.waiters[t].wait.Admitted?
    ensures Inv(policy, ListStep(w, t))
  {
    var me := w.waiters[t];
    assert WaiterSound(policy, w, t);
    if Key(me) in w.hub.pending {
      WaitAloneKeeps(policy, w, t, Answered(Err(DuplicateRequest)));
    } else {
      var m := SetWait(w, t, Listed(me.wait.session));
      WaitAloneKeeps(policy, w, t, Listed(me.wait.session));
      ListedKeeps(policy, m, t);
      assert ListStep(w, t) == m.(hub := m.hub.(pending := m.hub.pending[Key(me) := t]));
    }
  }

  lemma ListedKeeps(policy: Policy, m: World, t: nat)
    requires Inv(policy, m) && t in m.waiters && m.waiters[t].wait.Listed? && m.waiters[t].slot.None?
    ensures Inv(policy, m.(hub := m.hub.(pending := m.hub.pending[Key(m.waiters[t]) := t])))
  {
    var n := m.(hub := m.hub.(pending := m.hub.pending[Key(m.waiters[t]) := t]));
    forall c | c in n.conns
      ensures ConnSound(policy, n, c)
    {
      assert ConnSound(policy, m, c);
    }
    forall u | u in n.waiters
      ensures WaiterSound(policy, n, u)
    {
      assert WaiterSound(policy, m, u);
      if m.waiters[u].slot.Some? {
        EarnedStays(m, n, u, m.waiters[u].slot.value);
      }
    }
  }

  lemma ForwardKeeps(policy: Policy, w: World, t: nat)
    requires Inv(policy, w) && t in w.waiters && w.waiters[t].wait.Listed?
    ensures Inv(policy, ForwardStep(w, t))
  {
    var me := w.waiters[t];
    var c := me.wait.session.conn;
    assert WaiterSound(policy, w, t);
    if w.conns[c].stage.Closed? {
      StillEarned(policy, w, t, Failing(DeviceOffline));
      WaitAloneKeeps(policy, w, t, Failing(DeviceOffline));
    } else {
      var conn := w.conns[c].(queue := w.conns[c].queue + [me.request]);
      assert ConnSound(policy, w, c);
      QueueingKeepsConn(policy, w, c, me.request);
      ConnAloneKeeps(policy, w, c, conn);
      var m := SetConn(w, c, conn);
      assert WaiterSound(policy, m, t);
      StillEarned(policy, m, t, Waiting);
      WaitAloneKeeps(policy, m, t, Waiting);
    }
  }

  lemma QueueingKeepsConn(policy: Policy, w: World, c: nat, request: Request)
    requires c in w.conns && ConnSound(policy, w, c) && Routed(policy, w.conns[c].device, request)
    ensures ConnSound(policy, SetConn(w, c, w.conns[c].(queue := w.conns[c].queue + [request])), c)
  {
    var me := w.conns[c];
    var queue := me.queue + [request];
    forall r | r in queue + me.sent
      ensures Routed(policy, me.device, r)
    {
      assert r != request ==> r in me.queue + me.sent;
    }
  }

  lemma SendKeeps(policy: Policy, w: World, c: nat)
    requires Inv(policy, w) && c in w.conns && w.conns[c].session.Some? && w.conns[c].queue != []
    ensures var me := w.conns[c];
            Inv(policy, SetConn(w, c, me.(queue := me.queue[1..], sent := me.sent + [me.queue[0]])))
  {
    var me := w.conns[c];
    assert ConnSound(policy, w, c);
    var next := me.(queue := me.queue[1..], sent := me.sent + [me.queue[0]]);
    forall r | r in next.queue + next.sent
      ensures Routed(policy, me.device, r)
    {
      assert r in me.queue + me.sent;
    }
    ConnAloneKeeps(policy, w, c, next);
  }

  lemma FailKeeps(policy: Policy, w: World, t: nat)
    requires Inv(policy, w) && t in w.waiters && w.waiters[t].wait.Failing?
    ensures var me := w.waiters[t];
            Inv(policy, SetWait(w, t, Answered(Err(me.wait.error))).(hub := Withdrawn(w.hub, Key(me))))
  {
    var me := w.waiters[t];
    assert WaiterSound(policy, w, t);
    StillEarned(policy, w, t, Answered(Err(me.wait.error)));
    WaitAloneKeeps(policy, w, t, Answered(Err(me.wait.error)));
    WithdrawKeeps(policy, SetWait(w, t, Answered(Err(me.wait.error))), Key(me));
  }

  lemma WaitKeeps(policy: Policy, w: World, a: Action)
    requires Inv(policy, w)
    requires (a.List? || a.Forward? || a.Fail? || a.Receive? || a.Timeout? || a.Abandon? || a.Drop?) && a.ticket in w.waiters
    ensures Inv(policy, WaitStep(w, a))
  {
    if WaitStep(w, a) != w {
      var t := a.ticket;
      var me := w.waiters[t];
      assert WaiterSound(policy, w, t);
      match a
      case List(_) => ListKeeps(policy, w, t);
      case Forward(_) => ForwardKeeps(policy, w, t);
      case Fail(_) => FailKeeps(policy, w, t);
      case Receive(_) =>
        StillEarned(policy, w, t, Answered(Ok(me.slot.value)));
        WaitAloneKeeps(policy, w, t, Answered(Ok(me.slot.value)));
      case Timeout(_) =>
        StillEarned(policy, w, t, Failing(ActionTimeout));
        WaitAloneKeeps(policy, w, t, Failing(ActionTimeout));
      case Abandon(_) => WaitAloneKeeps(policy, w, t, Failing(DeviceOffline));
      case Drop(_) =>
        StillEarned(policy, w, t, Dropped);
        WaitAloneKeeps(policy, w, t, Dropped);
    }
  }

  lemma ConnKeeps(policy: Policy, w: World, a: Action)
    requires Inv(policy, w) && (a.Frame? || a.Send? || a.Hang? || a.Finish?) && a.conn in w.conns
    ensures Inv(policy, ConnStep(w, a))
  {
    if ConnStep(w, a) != w {
      assert ConnSound(policy, w, a.conn);
      match a
      case Frame(_, _, _, _, _, _) => FrameKeeps(policy, w, a);
      case Send(c) => SendKeeps(policy, w, c);
      case Hang(c) => ConnAloneKeeps(policy, w, c, w.conns[c].(stage := Closing));
      case Finish(c) => FinishKeeps(policy, w, c);
    }
  }

  lemma StepKeeps(policy: Policy, w: World, a: Action)
    requires Inv(policy, w)
    ensures Inv(policy, Step(policy, w, a))
  {
    if Step(policy, w, a) != w {
      if a.Connect? {
        ConnectKeeps(policy, w, a.conn, a.device);
      } else if a.Dispatch? {
        DispatchKeeps(policy, w, a.ticket, a.device, a.request);
      } else if a.Frame? || a.Send? || a.Hang? || a.Finish? {
        ConnKeeps(policy, w, a);
      } else {
        WaitKeeps(policy, w, a);
      }
    }
  }

  lemma {:induction false} RelayAlways(policy: Policy, actions: seq<Action>)
    ensures Inv(policy, Run(policy, Start(), actions))
  {
    if actions == [] {
    } else {
      var n := |actions| - 1;
      RelayAlways(policy, actions[..n]);
      StepKeeps(policy, Run(policy, Start(), actions[..n]), actions[n]);
    }
  }

  // ------------------------------------------------------------------- what it comes to

  /**
   * Under any interleaving: a caller that gets a result gets one that came in on a bound connection of the
   * device it asked, with the request id it asked with; and no result, nor caller, is served twice.
   */
  lemma ResultsFindTheirCallers(policy: Policy, actions: seq<Action>, t: nat)
    requires var w := Run(policy, Start(), actions);
             t in w.waiters && w.waiters[t].wait.Answered? && w.waiters[t].wait.outcome.Ok?
    ensures var w := Run(policy, Start(), actions);
            Earned(w, t, w.waiters[t].wait.outcome.value)
    ensures var all := Run(policy, Start(), actions).deliveries;
            forall i, j | 0 <= i < j < |all| :: all[i].ticket != all[j].ticket
  {
    RelayAlways(policy, actions);
    assert WaiterSound(policy, Run(policy, Start(), actions), t);
  }

  /** Whatever reaches a device was sent to that device and allowed, and an approved action carries its own approval. */
  lemma DevicesGetTheirOwn(policy: Policy, actions: seq<Action>, c: nat, request: Request)
    requires var w := Run(policy, Start(), actions); c in w.conns && request in w.conns[c].sent
    ensures var device := Run(policy, Start(), actions).conns[c].device;
            && request.canonical.Some? && request.canonical.value.deviceId == device && !Blank(request.requestId)
            && (request.approval.Some? ==>
                  && policy.approved(request.canonical.value.action)
                  && request.approval.value
                     == Some(Challenge(request.canonical.value.requestId, request.canonical.value.digest)))
            && (policy.plain(request.canonical.value.action) || policy.approved(request.canonical.value.action))
  {
    RelayAlways(policy, actions);
    var w := Run(policy, Start(), actions);
    assert ConnSound(policy, w, c);
    assert request in w.conns[c].queue + w.conns[c].sent;
  }

  /**
   * Nothing but a greeting of the device's own is accepted first, and nothing is sent to a device before; a
   * device's session is one of a connection of its own; and a finished connection's session is gone.
   */
  lemma SessionsAreLive(policy: Policy, actions: seq<Action>, c: nat)
    requires c in Run(policy, Start(), actions).conns
    ensures var w := Run(policy, Start(), actions);
            var me := w.conns[c];
            && (me.accepted != [] ==> me.accepted[0] == Hello(me.device))
            && (me.session.None? ==> me.accepted == [] && me.sent == [])
            && (me.stage.Closed? && me.session.Some? ==>
                  forall d | d in w.hub.devices :: w.hub.devices[d].id != me.session.value)
  {
    RelayAlways(policy, actions);
    assert ConnSound(policy, Run(policy, Start(), actions), c);
  }

  /** A connection that ends late leaves the session of the one that took its place where it is. */
  lemma StaleEndSparesSuccessor(policy: Policy, actions: seq<Action>, c: nat, device: string)
    requires var w := Run(policy, Start(), actions);
             c in w.conns && w.conns[c].stage.Closing? && device in w.hub.devices && w.hub.devices[device].conn != c
    ensures var w := Run(policy, Start(), actions);
            var n := Step(policy, w, Finish(c));
            device in n.hub.devices && n.hub.devices[device] == w.hub.devices[device]
  {
    RelayAlways(policy, actions);
    var w := Run(policy, Start(), actions);
    assert w.conns[w.hub.devices[device].conn].session == Some(w.hub.devices[device].id);
  }

  /** The caller waits on the list for a result of this device and request. */
  predicate Expects(w: World, t: nat) {
    && t in w.waiters && w.waiters[t].wait.Waiting? && w.waiters[t].slot.None?
    && Key(w.waiters[t]) in w.hub.pending && w.hub.pending[Key(w.waiters[t])] == t
  }

  /**
   * A result reaches the caller that waits for it: sent in on a bound connection of the device asked, with the
   * request id asked for, it is what the caller returns, and a second copy of it is not accepted.
   */
  lemma ResultIsDelivered(policy: Policy, w: World, t: nat, c: nat, result: ActionResult, session: nat, acked: bool)
    requires Expects(w, t) && c in w.conns && w.conns[c].stage.Open? && w.conns[c].session.Some?
    requires w.conns[c].device == w.waiters[t].device && result.requestId == w.waiters[t].request.requestId
    ensures var frame := Frame(c, w.conns[c].device, true, ResultFrame(result), session, acked);
            var handed := Step(policy, w, frame);
            var n := Step(policy, handed, Receive(t));
            && n.waiters[t].wait == Answered(Ok(result))
            && (forall u | u in w.waiters && u != t :: n.waiters[u] == w.waiters[u])
            && Key(w.waiters[t]) !in n.hub.pending && n.hub.devices == w.hub.devices
            && n.conns[c].stage == (if acked then Open else Closing)
            && (acked ==> Step(policy, n, frame).conns[c].stage.Closing?)
  {
    var frame := Frame(c, w.conns[c].device, true, ResultFrame(result), session, acked);
    assert Key(w.waiters[t]) == (w.conns[c].device, result.requestId);
    var (ok, m) := HandOver(w, c, result);
    assert ok && m.conns == w.conns && m.waiters == w.waiters[t := w.waiters[t].(slot := Some(result))];
    var handed := Step(policy, w, frame);
    assert handed.waiters == m.waiters && handed.hub == m.hub;
  }

  /** What the wait is for: a caller that is on the list has had its request put in its device's queue. */
  lemma ForwardingQueues(policy: Policy, w: World, t: nat)
    requires t in w.waiters && w.waiters[t].wait.Admitted? && Key(w.waiters[t]) !in w.hub.pending
    requires w.waiters[t].slot.None?
    requires var c := w.waiters[t].wait.session.conn; c in w.conns && !w.conns[c].stage.Closed?
    ensures var c := w.waiters[t].wait.session.conn;
            var n := Step(policy, Step(policy, w, List(t)), Forward(t));
            && Expects(n, t) && n.conns[c].queue == w.conns[c].queue + [w.waiters[t].request]
            && forall b | b in w.conns && b != c :: n.conns[b] == w.conns[b]
  {}

  // ------------------------------------------------------------------ losing one's entry

  /** The caller is on the list, under its own key. */
  predicate OnList(w: World, t: nat) {
    && t in w.waiters && !w.waiters[t].wait.Admitted?
    && Key(w.waiters[t]) in w.hub.pending && w.hub.pending[Key(w.waiters[t])] == t
  }

  /** A result for this device and request that comes in on an open and bound connection of the device. */
  predicate ResultComesIn(w: World, a: Action, key: (string, string)) {
    && a.Frame? && a.conn in w.conns && w.conns[a.conn].stage.Open? && w.conns[a.conn].session.Some?
    && a.passes && a.frameDevice == w.conns[a.conn].device && a.payload.ResultFrame?
    && (a.frameDevice, a.payload.result.requestId) == key
  }

  /** A caller with this device and request gives up; nothing makes it the caller that is on the list. */
  predicate SomeoneGivesUp(w: World, a: Action, key: (string, string)) {
    a.Fail? && a.ticket in w.waiters && w.waiters[a.ticket].wait.Failing? && Key(w.waiters[a.ticket]) == key
  }

  predicate TakesOff(w: World, a: Action, t: nat)
    requires t in w.waiters
  {
    ResultComesIn(w, a, Key(w.waiters[t])) || SomeoneGivesUp(w, a, Key(w.waiters[t]))
  }

  lemma FrameTakesOff(policy: Policy, w: World, a: Action, t: nat)
    requires OnList(w, t) && a.Frame?
    ensures OnList(Step(policy, w, a), t) <==> !ResultComesIn(w, a, Key(w.waiters[t]))
  {
    if a.conn in w.conns && w.conns[a.conn].stage.Open? {
      var (ok, m) := Processed(w, a);
      assert FrameStep(w, a).hub == m.hub && FrameStep(w, a).waiters == m.waiters;
      if a.payload.ResultFrame? {
        assert HandOver(w, a.conn, a.payload.result).1.hub == Claimed(w.hub, w.conns[a.conn].device, a.payload.result).1;
      }
    }
  }

  lemma WaitTakesOff(policy: Policy, w: World, a: Action, t: nat)
    requires OnList(w, t) && (a.List? || a.Forward? || a.Fail? || a.Receive? || a.Timeout? || a.Abandon? || a.Drop?)
    ensures OnList(Step(policy, w, a), t) <==> !SomeoneGivesUp(w, a, Key(w.waiters[t]))
  {}

  lemma TakenOffByOneStep(policy: Policy, w: World, a: Action, t: nat)
    requires OnList(w, t)
    ensures OnList(Step(policy, w, a), t) <==> !TakesOff(w, a, t)
    ensures t in Step(policy, w, a).waiters && Key(Step(policy, w, a).waiters[t]) == Key(w.waiters[t])
  {
    StaysItself(policy, w, a, t);
    if a.Frame? {
      FrameTakesOff(policy, w, a, t);
    } else if a.List? || a.Forward? || a.Fail? || a.Receive? || a.Timeout? || a.Abandon? || a.Drop? {
      WaitTakesOff(policy, w, a, t);
    }
  }

  lemma FrameStaysItself(policy: Policy, w: World, a: Action, t: nat)
    requires t in w.waiters && a.Frame?
    ensures var n := Step(policy, w, a);
            && t in n.waiters && Key(n.waiters[t]) == Key(w.waiters[t]) && n.waiters[t].wait == w.waiters[t].wait
            && (OnList(n, t) ==> OnList(w, t))
  {}

  lemma WaitStaysItself(policy: Policy, w: World, a: Action, t: nat)
    requires (a.List? || a.Forward? || a.Fail? || a.Receive? || a.Timeout? || a.Abandon? || a.Drop?) && a.ticket in w.waiters
    requires t in w.waiters
    ensures var n := WaitStep(w, a);
            && t in n.waiters && Key(n.waiters[t]) == Key(w.waiters[t])
            && (!w.waiters[t].wait.Admitted? ==> !n.waiters[t].wait.Admitted? && (OnList(n, t) ==> OnList(w, t)))
  {}

  /** A caller keeps its device and request, and once past being admitted it does not come back to that. */
  lemma StaysItself(policy: Policy, w: World, a: Action, t: nat)
    requires t in w.waiters
    ensures t in Step(policy, w, a).waiters && Key(Step(policy, w, a).waiters[t]) == Key(w.waiters[t])
    ensures !w.waiters[t].wait.Admitted? ==> !Step(policy, w, a).waiters[t].wait.Admitted?
    ensures !w.waiters[t].wait.Admitted? && OnList(Step(policy, w, a), t) ==> OnList(w, t)
  {
    if a.Frame? {
      FrameStaysItself(policy, w, a, t);
    } else if a.List? || a.Forward? || a.Fail? || a.Receive? || a.Timeout? || a.Abandon? || a.Drop? {
      if a.ticket in w.waiters {
        WaitStaysItself(policy, w, a, t);
      }
    }
  }

  lemma {:induction false} StaysItselfOver(policy: Policy, w: World, actions: seq<Action>, t: nat)
    requires t in w.waiters && !w.waiters[t].wait.Admitted?
    ensures var n := Run(policy, w, actions);
            t in n.waiters && Key(n.waiters[t]) == Key(w.waiters[t]) && !n.waiters[t].wait.Admitted?
  {
    if actions != [] {
      var n := |actions| - 1;
      StaysItselfOver(policy, w, actions[..n], t);
      StaysItself(policy, Run(policy, w, actions[..n]), actions[n], t);
    }
  }

  /** Some step of the run takes a caller with this key off the list. */
  ghost predicate TakenOffIn(policy: Policy, w: World, actions: seq<Action>, key: (string, string)) {
    exists i | 0 <= i < |actions| ::
      || ResultComesIn(Run(policy, w, actions[..i]), actions[i], key)
      || SomeoneGivesUp(Run(policy, w, actions[..i]), actions[i], key)
  }

  lemma TakenOffSplit(policy: Policy, w: World, actions: seq<Action>, key: (string, string))
    requires actions != []
    ensures var n := |actions| - 1;
            var before := Run(policy, w, actions[..n]);
            (TakenOffIn(policy, w, actions, key)
             <==> || TakenOffIn(policy, w, actions[..n], key)
                  || ResultComesIn(before, actions[n], key) || SomeoneGivesUp(before, actions[n], key))
  {
    var n := |actions| - 1;
    assert forall i | 0 <= i < n :: actions[..n][..i] == actions[..i] && actions[..n][i] == actions[i];
  }

  /**
   * When a waiting caller loses its place, over any run of anybody's steps: exactly when a result for its device
   * and request comes in on an open and bound connection of the device, or a caller with the same device and
   * request gives up, be it another one whose entry is long gone.
   */
  lemma {:induction false} StaysOnListExactly(policy: Policy, w: World, actions: seq<Action>, t: nat)
    requires OnList(w, t)
    ensures OnList(Run(policy, w, actions), t) <==> !TakenOffIn(policy, w, actions, Key(w.waiters[t]))
  {
    if actions != [] {
      var n := |actions| - 1;
      var before := Run(policy, w, actions[..n]);
      StaysOnListExactly(policy, w, actions[..n], t);
      StaysItselfOver(policy, w, actions[..n], t);
      TakenOffSplit(policy, w, actions, Key(w.waiters[t]));
      StaysItself(policy, before, actions[n], t);
      if OnList(before, t) {
        TakenOffByOneStep(policy, before, actions[n], t);
      }
    }
  }

  /**
   * And as long as it keeps its place, be it dropped long ago by whoever asked, everyone else with the same device
   * and request is turned away as a duplicate.
   */
  lemma OnListTurnsAway(policy: Policy, w: World, actions: seq<Action>, t: nat, u: nat)
    requires OnList(w, t) && !TakenOffIn(policy, w, actions, Key(w.waiters[t]))
    requires var n := Run(policy, w, actions);
             u in n.waiters && n.waiters[u].wait.Admitted? && Key(n.waiters[u]) == Key(w.waiters[t])
    ensures Step(policy, Run(policy, w, actions), List(u)).waiters[u].wait == Answered(Err(DuplicateRequest))
  {
    StaysOnListExactly(policy, w, actions, t);
    StaysItselfOver(policy, w, actions, t);
  }

  /**
   * It happens to the innocent: a caller `u` has run out of time, its result comes in after all, another caller
   * asks with the same request id, and then `u` gives up. The other is off the list, and never had its result.
   */
  lemma LateCallerEvictsNext(policy: Policy, w: World, u: nat, t: nat, c: nat, result: ActionResult, session: nat)
    requires OnList(w, u) && w.waiters[u].wait == Failing(ActionTimeout)
    requires t in w.waiters && w.waiters[t].wait.Admitted? && w.waiters[t].slot.None? && Key(w.waiters[t]) == Key(w.waiters[u])
    requires c in w.conns && w.conns[c].stage.Open? && w.conns[c].session.Some?
    requires (w.conns[c].device, result.requestId) == Key(w.waiters[u])
    ensures var late := Step(policy, w, Frame(c, w.conns[c].device, true, ResultFrame(result), session, true));
            var listed := Step(policy, late, List(t));
            var n := Step(policy, listed, Fail(u));
            && late.conns[c].stage.Closing?
            && OnList(listed, t) && n.waiters[u].wait == Answered(Err(ActionTimeout))
            && n.waiters[t].wait.Listed? && n.waiters[t].slot.None? && !OnList(n, t)
  {
    var frame := Frame(c, w.conns[c].device, true, ResultFrame(result), session, true);
    var late := Step(policy, w, frame);
    var (ok, m) := HandOver(w, c, result);
    assert !ok && m.waiters == w.waiters && m.hub == Withdrawn(w.hub, Key(w.waiters[u]));
    assert late.waiters == m.waiters && late.hub == m.hub;
  }
}
