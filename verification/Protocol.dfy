/** The client as a step machine: any number of calls on any threads, one I/O thread, one agent.

    Each event is one critical section or one unlocked access of the program, so a run is any
    interleaving of them. Calls and subscription channels are never forgotten: they are identified
    by their position in `calls` and `subs`, and a request channel is identified by its call. */
module Protocol {
  import opened Options
  import opened Messages

  // ---------- data ----------

  datatype Kind = Typed | Plain | Subscribe(listener: ListenerKind) | Stop(target: nat)

  /** Where a call stands. `Waiting`: inside `consume`. `Checking`: `consume` has returned and
      `m_dataPending` is not read yet. `GaveUp`: it was read as false. `Answered`: it was read as
      true. `Closing`: only the return is left. `Returned`: the channel is destroyed. */
  datatype Phase = Waiting | Checking | GaveUp | Answered | Closing(r: SerfResponse) | Returned(r: SerfResponse)

  /** A call and its `ResultChannel`. `heard` is the message whose lookup found the channel;
      `whole` tells whether the decoder had the body when the channel asked for it. */
  datatype Call = Call(kind: Kind, nested: bool, epoch: nat, num: nat, sent: bool, phase: Phase,
                       heard: Option<nat>, pending: bool, hdr: ResponseHeader, data: Option<Object>, whole: bool)

  /** One `produce` of a subscription channel: the message, and whether its body had arrived. */
  datatype Receipt = Receipt(msg: nat, arrived: bool)

  /** A LOG, EVENT or QUERY channel. It was installed by call `caller` when `start` headers had been
      looked up on its connection, and removed when `stop` had. */
  datatype Sub = Sub(kind: ListenerKind, epoch: nat, num: nat, caller: nat, start: nat,
                     stop: Option<nat>, deletes: nat, got: seq<Receipt>)

  datatype Ref = Req(call: nat) | Chan(sub: nat)

  /** A message of the agent: a header, and a body object after it or not. */
  datatype Message = Message(hdr: ResponseHeader, body: Option<Object>, reply: bool)

  datatype Stage = Found | Erased | Producing

  /** The I/O thread between the lookup of message `msg` and the end of its `produce`.
      `cut`: another thread has removed `num` from the map since the lookup.
      `raced`: the owner has read `m_dataPending`, without the lock, while `produce` holds it. */
  datatype Io = Idle | Busy(stage: Stage, num: nat, ref: Ref, msg: nat, cut: bool, raced: bool)

  /** `read` headers of the connection's messages `log` have been taken by the decode loop; `mid`
      tells that the next object is still the body of the last of them. `owner` maps each
      sequence number the agent has received on this connection to its call, `replied` to its
      reply. `fault` is set when the I/O thread uses a channel that no longer exists. */
  datatype State = State(
    epoch: nat, counter: nat, handshake: Option<nat>,
    calls: seq<Call>, subs: seq<Sub>, registry: map<nat, Ref>,
    owner: map<nat, nat>, log: seq<Message>, replied: map<nat, nat>, open: set<nat>,
    read: nat, mid: bool, io: Io, fault: bool)

  datatype Event =
    | Send(kind: Kind, nested: bool, ok: bool)
    | EndWait(call: nat)
    | Check(call: nat)
    | Remove(call: nat)
    | Install(call: nat)
    | Cancel(call: nat)
    | Finish(call: nat)
    | Return(call: nat)
    | Reply(num: nat, error: string, body: Option<Object>)
    | Emit(num: nat, error: string, record: Object)
    | Lookup
    | Erase
    | Produce(arrived: bool, converts: bool)
    | EndProduce
    | Close

  function Init(): State {
    State(0, 0, None, [], [], map[], map[], [], map[], {}, 0, false, Idle, false)
  }

  // ---------- client side ----------

  predicate Is(s: State, c: nat, p: Phase) {
    c < |s.calls| && s.calls[c].phase == p
  }

  /** The I/O thread holds the mutex of this call's channel. */
  predicate MutexHeld(s: State, c: nat) {
    s.io.Busy? && s.io.stage == Producing && s.io.ref == Req(c)
  }

  /** The I/O thread is inside a listener callback. */
  predicate InCallback(s: State) {
    s.io.Busy? && s.io.stage == Producing && s.io.ref.Chan?
  }

  predicate ConnectDone(s: State) {
    s.handshake.Some? && s.handshake.value < |s.calls| && s.calls[s.handshake.value].phase.Returned?
  }

  /** The number was handed to the caller by a Monitor or Stream of this connection. */
  ghost predicate OwnSubscription(s: State, q: nat) {
    exists i :: 0 <= i < |s.subs| && s.subs[i].num == q && s.subs[i].epoch == s.epoch && s.subs[i].kind != QUERY
  }

  predicate NoError(c: Call) { c.hdr.Error == "" }

  function ResultOf(c: Call): SerfResponse {
    if NoError(c) then SUCCESS else FAILURE
  }

  function NewCall(s: State, e: Event): Call
    requires e.Send?
  {
    Call(e.kind, e.nested, s.epoch, s.counter, e.ok, if e.ok then Waiting else Closing(FAILURE),
         None, false, ResponseHeader(0, ""), None, true)
  }

  /** `sendData`: the number is burnt either way; only a successful send registers. */
  function AfterSend(s: State, e: Event): State
    requires e.Send?
  {
    var c := |s.calls|;
    var t := s.(counter := s.counter + 1, calls := s.calls + [NewCall(s, e)],
                handshake := if s.handshake.None? then Some(c) else s.handshake);
    if e.ok then t.(registry := t.registry[s.counter := Req(c)], owner := t.owner[s.counter := c]) else t
  }

  function SetPhase(s: State, c: nat, p: Phase): State
    requires c < |s.calls|
  {
    s.(calls := s.calls[c := s.calls[c].(phase := p)])
  }

  function AfterCheck(s: State, c: nat): State
    requires c < |s.calls|
  {
    var t := SetPhase(s, c, if s.calls[c].pending then Answered else GaveUp);
    if MutexHeld(s, c) then t.(io := s.io.(raced := true)) else t
  }

  /** `removeChannel`: erase the entry, and delete the object when it is a subscription. */
  function RemoveChannel(s: State, q: nat): State {
    var t := s.(registry := s.registry - {q});
    if q in s.registry && s.registry[q].Chan? && s.registry[q].sub < |s.subs| then
      var i := s.registry[q].sub;
      t.(subs := s.subs[i := s.subs[i].(deletes := s.subs[i].deletes + 1, stop := Some(s.read))])
    else t
  }

  /** `removeChannel` called by a client thread; it may fall into the I/O thread's window. */
  function ClientRemove(s: State, q: nat): State {
    var t := RemoveChannel(s, q);
    if s.io.Busy? && s.io.num == q then t.(io := s.io.(cut := true)) else t
  }

  function AfterInstall(s: State, c: nat): State
    requires c < |s.calls| && s.calls[c].kind.Subscribe?
  {
    var q := s.calls[c].hdr.Seq;
    var t := SetPhase(s, c, Closing(SUCCESS));
    t.(subs := s.subs + [Sub(s.calls[c].kind.listener, s.epoch, q, c, s.read, None, 0, [])],
       registry := s.registry[q := Chan(|s.subs|)])
  }

  // ---------- I/O thread ----------

  predicate Dead(s: State, r: Ref) {
    match r
    case Req(c) => c < |s.calls| && s.calls[c].phase.Returned?
    case Chan(i) => i < |s.subs| && s.subs[i].deletes > 0
  }

  /** The next object the decoder gives, and the position after it. */
  predicate HasNext(s: State) {
    s.read <= |s.log| && (s.mid ==> 0 < s.read && s.log[s.read - 1].body.Some?) && (s.mid || s.read < |s.log|)
  }

  function NextObject(s: State): Object
    requires HasNext(s)
  {
    if s.mid then s.log[s.read - 1].body.value else PackHeader(s.log[s.read].hdr)
  }

  function Take(s: State): State
    requires HasNext(s)
  {
    if s.mid then s.(mid := false) else s.(read := s.read + 1, mid := s.log[s.read].body.Some?)
  }

  /** One turn of the decode loop up to the map lookup: the next object is taken for a header. */
  function AfterLookup(s: State): State
    requires HasNext(s)
  {
    var t := Take(s);
    match AsHeader(NextObject(s))
    case None => t
    case Some(h) =>
      if h.Seq !in s.registry then t else
      var r := s.registry[h.Seq];
      var k: nat := if s.mid then s.read - 1 else s.read;
      var u := t.(io := Busy(Found, h.Seq, r, k, false, false));
      if r.Req? && r.call < |s.calls| then
        u.(calls := s.calls[r.call := s.calls[r.call].(heard := Some(k))])
      else u
  }

  function AfterErase(s: State): State
    requires s.io.Busy?
  {
    if Dead(s, s.io.ref) then s.(fault := true)
    else s.(registry := s.registry - {s.io.num}, io := s.io.(stage := Erased))
  }

  /** `ResultChannel::produce` up to the notification. A typed channel asks the decoder for one
      more object; if that object does not convert, the exception leaves no data pending. */
  function AfterResult(s: State, c: nat, arrived: bool, converts: bool): State
    requires s.io.Busy? && c < |s.calls| && s.io.msg < |s.log|
    requires arrived ==> HasNext(s)
  {
    var call := s.calls[c].(hdr := s.log[s.io.msg].hdr);
    if !call.kind.Typed? then
      s.(calls := s.calls[c := call.(pending := true)], io := s.io.(stage := Producing))
    else if !arrived then
      s.(calls := s.calls[c := call.(pending := true, whole := false)], io := s.io.(stage := Producing))
    else if converts then
      Take(s).(calls := s.calls[c := call.(pending := true, data := Some(NextObject(s)))],
               io := s.io.(stage := Producing))
    else
      Take(s).(calls := s.calls[c := call], io := Idle)
  }

  function AfterRecord(s: State, i: nat, arrived: bool): State
    requires s.io.Busy? && i < |s.subs|
    requires arrived ==> HasNext(s)
  {
    var t := if arrived then Take(s) else s;
    t.(subs := s.subs[i := s.subs[i].(got := s.subs[i].got + [Receipt(s.io.msg, arrived)])],
       io := s.io.(stage := Producing))
  }

  function AfterProduce(s: State, arrived: bool, converts: bool): State
    requires s.io.Busy? && s.io.msg < |s.log|
    requires arrived ==> HasNext(s)
    requires match s.io.ref case Req(c) => c < |s.calls| case Chan(i) => i < |s.subs|
  {
    if Dead(s, s.io.ref) then s.(fault := true) else
    match s.io.ref
    case Req(c) => AfterResult(s, c, arrived, converts)
    case Chan(i) => AfterRecord(s, i, arrived)
  }

  /** The callback a receipt caused. */
  function CallbackOf(s: State, kind: ListenerKind, r: Receipt): Option<Callback>
    requires r.msg < |s.log|
  {
    CallbackFor(kind, if r.arrived then s.log[r.msg].body else None)
  }

  /** The callback in progress is `onQueryComplete`. */
  predicate Completing(s: State) {
    && InCallback(s) && s.io.ref.sub < |s.subs|
    && var sub := s.subs[s.io.ref.sub];
       0 < |sub.got| && sub.got[|sub.got| - 1].msg < |s.log| &&
       CallbackOf(s, sub.kind, sub.got[|sub.got| - 1]) == Some(OnComplete)
  }

  /** The end of `produce`: a request channel unlocks its mutex, a completed query deregisters
      itself, any other listener just returns. */
  function AfterEndProduce(s: State): State
    requires s.io.Busy?
  {
    if s.io.ref.Req? || Completing(s) then
      if Dead(s, s.io.ref) then s.(fault := true)
      else if Completing(s) then RemoveChannel(s, s.io.num).(io := Idle)
      else s.(io := Idle)
    else s.(io := Idle)
  }

  predicate NoCallInCallback(s: State) {
    forall c :: 0 <= c < |s.calls| && s.calls[c].nested ==> s.calls[c].phase.Returned?
  }

  // ---------- the machine ----------

  /** When each event can happen. The conditions on `Reply` and `Emit` are what is assumed of the
      agent: it mentions only numbers it received on this connection, answers each at most once
      (with a body exactly for typed requests), sends records only after a successful reply to the
      subscription, each with a body, and no body reads as a header with a number of its own. */
  ghost predicate Enabled(s: State, e: Event) {
    !s.fault &&
    match e
    case Send(kind, nested, ok) =>
      && s.counter + 1 < U64
      && (if s.handshake.None? then kind == Plain && !nested else ConnectDone(s))
      && (nested ==> InCallback(s))
      && (kind.Stop? ==> OwnSubscription(s, kind.target))
    case EndWait(c) => Is(s, c, Waiting) && !MutexHeld(s, c)
    case Check(c) => Is(s, c, Checking)
    case Remove(c) => Is(s, c, GaveUp)
    case Install(c) => Is(s, c, Answered) && s.calls[c].kind.Subscribe? && NoError(s.calls[c])
    case Cancel(c) => Is(s, c, Answered) && s.calls[c].kind.Stop? && NoError(s.calls[c])
    case Finish(c) =>
      && Is(s, c, Answered)
      && ((s.calls[c].kind.Subscribe? || s.calls[c].kind.Stop?) ==> !NoError(s.calls[c]))
    case Return(c) => c < |s.calls| && s.calls[c].phase.Closing?
    case Reply(q, _, body) =>
      && q in s.owner && q !in s.replied && s.owner[q] < |s.calls|
      && (body.Some? <==> s.calls[s.owner[q]].kind.Typed?)
      && (body.Some? ==> Unroutable(body.value))
    case Emit(q, _, body) => q in s.open && Unroutable(body)
    case Lookup => s.io.Idle? && HasNext(s)
    case Erase => s.io.Busy? && s.io.stage == Found && s.io.ref.Req?
    case Produce(arrived, _) =>
      && s.io.Busy? && s.io.msg < |s.log|
      && (match s.io.ref
          case Req(c) => s.io.stage == Erased && c < |s.calls|
          case Chan(i) => s.io.stage == Found && i < |s.subs|)
      && (arrived ==> HasNext(s))
    case EndProduce => s.io.Busy? && s.io.stage == Producing && (s.io.ref.Chan? ==> NoCallInCallback(s))
    case Close => s.io.Idle? && s.handshake.Some? && forall c :: 0 <= c < |s.calls| ==> s.calls[c].phase.Returned?
  }

  ghost function Apply(s: State, e: Event): State
    requires Enabled(s, e)
  {
    match e
    case Send(_, _, _) => AfterSend(s, e)
    case EndWait(c) => SetPhase(s, c, Checking)
    case Check(c) => AfterCheck(s, c)
    case Remove(c) => SetPhase(ClientRemove(s, s.calls[c].num), c, Closing(TIMEOUT))
    case Install(c) => AfterInstall(s, c)
    case Cancel(c) => SetPhase(ClientRemove(s, s.calls[c].kind.target), c, Closing(SUCCESS))
    case Finish(c) => SetPhase(s, c, Closing(ResultOf(s.calls[c])))
    case Return(c) => SetPhase(s, c, Returned(s.calls[c].phase.r))
    case Reply(q, err, body) =>
      s.(log := s.log + [Message(ResponseHeader(q, err), body, true)],
         replied := s.replied[q := |s.log|],
         open := if err == "" && s.calls[s.owner[q]].kind.Subscribe? then s.open + {q} else s.open)
    case Emit(q, err, body) => s.(log := s.log + [Message(ResponseHeader(q, err), Some(body), false)])
    case Lookup => AfterLookup(s)
    case Erase => AfterErase(s)
    case Produce(arrived, converts) => AfterProduce(s, arrived, converts)
    case EndProduce => AfterEndProduce(s)
    case Close =>
      s.(epoch := s.epoch + 1, counter := 0, handshake := None, owner := map[], log := [],
         replied := map[], open := {}, read := 0, mid := false)
  }

  // ---------- runs ----------

  /** The state after a run, or `None` if some event of it could not happen. */
  ghost function Exec(es: seq<Event>): Option<State> {
    if es == [] then Some(Init())
    else
      var before := Exec(es[..|es| - 1]);
      var e := es[|es| - 1];
      if before.Some? && Enabled(before.value, e) then Some(Apply(before.value, e)) else None
  }
}
