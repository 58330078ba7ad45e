/** Runs that really reach the situations the theorems speak of. */
module ProtocolWitnesses {
  import opened Options
  import opened Messages
  import opened Sequences
  import opened Protocol
  import opened ProtocolInvariant
  import opened ProtocolTheorems
  import opened ProtocolWindows
  import opened ProtocolHeap

  // ---------- one exchange, from any quiet state ----------

  /** Nothing is in the stream, and a call of this kind may start. */
  ghost predicate CanAsk(s: State, kind: Kind) {
    && s.io.Idle? && !s.fault && !s.mid && s.read == |s.log| && s.counter + 1 < U64
    && s.counter !in s.registry && s.counter !in s.owner && s.counter !in s.replied
    && (if s.handshake.None? then kind == Plain else ConnectDone(s))
    && (kind.Stop? ==> OwnSubscription(s, kind.target))
  }

  function Waiter(s: State, kind: Kind, heard: Option<nat>): Call {
    Call(kind, false, s.epoch, s.counter, true, Waiting, heard, false, ResponseHeader(0, ""), None, true)
  }

  /** After the send. */
  function Requested(s: State, kind: Kind): State {
    s.(counter := s.counter + 1, calls := s.calls + [Waiter(s, kind, None)],
       handshake := if s.handshake.None? then Some(|s.calls|) else s.handshake,
       registry := s.registry[s.counter := Req(|s.calls|)], owner := s.owner[s.counter := |s.calls|])
  }

  /** After the agent's reply. */
  function Replied(s: State, kind: Kind, body: Option<Object>): State {
    Requested(s, kind).(log := s.log + [Message(ResponseHeader(s.counter, ""), body, true)],
                   replied := s.replied[s.counter := |s.log|],
                   open := if kind.Subscribe? then s.open + {s.counter} else s.open)
  }

  /** After the lookup, or after the erase, which leaves the map as it was before the send. */
  function Fetched(s: State, kind: Kind, body: Option<Object>, erased: bool): State {
    Replied(s, kind, body).(calls := s.calls + [Waiter(s, kind, Some(|s.log|))], read := |s.log| + 1, mid := body.Some?,
                            registry := if erased then s.registry else s.registry[s.counter := Req(|s.calls|)],
                            io := Busy(if erased then Erased else Found, s.counter, Req(|s.calls|), |s.log|,
                                       false, false))
  }

  lemma Sends(s: State, kind: Kind)
    requires CanAsk(s, kind)
    ensures Enabled(s, Send(kind, false, true)) && Apply(s, Send(kind, false, true)) == Requested(s, kind)
  {
  }

  lemma Replies(s: State, kind: Kind, body: Option<Object>)
    requires CanAsk(s, kind) && (body.Some? <==> kind.Typed?) && (body.Some? ==> Unroutable(body.value))
    ensures var t, e := Requested(s, kind), Reply(s.counter, "", body);
            Enabled(t, e) && Apply(t, e) == Replied(s, kind, body)
  {
  }

  /** The last header of the stream is looked up and finds a channel. */
  lemma Finds(s: State, q: nat)
    requires s.io.Idle? && !s.fault && !s.mid && s.read + 1 == |s.log| && s.log[s.read].hdr == ResponseHeader(q, "")
    requires q < U64 && q in s.registry
    ensures Enabled(s, Lookup)
    ensures var t := s.(read := s.read + 1, mid := s.log[s.read].body.Some?,
                        io := Busy(Found, q, s.registry[q], s.read, false, false));
            Apply(s, Lookup) == if s.registry[q].Req? && s.registry[q].call < |s.calls| then
                                  var c := s.registry[q].call;
                                  t.(calls := s.calls[c := s.calls[c].(heard := Some(s.read))])
                                else t
  {
    HeaderRoundTrip(ResponseHeader(q, ""));
  }

  lemma LooksUp(s: State, kind: Kind, body: Option<Object>)
    requires CanAsk(s, kind)
    ensures var t := Replied(s, kind, body); Enabled(t, Lookup) && Apply(t, Lookup) == Fetched(s, kind, body, false)
  {
    Finds(Replied(s, kind, body), s.counter);
  }

  lemma Erases(s: State, kind: Kind, body: Option<Object>)
    requires CanAsk(s, kind)
    ensures var t := Fetched(s, kind, body, false); Enabled(t, Erase) && Apply(t, Erase) == Fetched(s, kind, body, true)
  {
    assert s.registry[s.counter := Req(|s.calls|)] - {s.counter} == s.registry;
  }

  /** A request is sent and answered, and its reply is looked up. */
  lemma Asked(es: seq<Event>, s: State, kind: Kind, body: Option<Object>) returns (es': seq<Event>)
    requires Exec(es) == Some(s) && CanAsk(s, kind)
    requires (body.Some? <==> kind.Typed?) && (body.Some? ==> Unroutable(body.value))
    ensures Exec(es') == Some(Fetched(s, kind, body, true))
  {
    Sends(s, kind);
    es' := Longer(es, s, Send(kind, false, true));
    Replies(s, kind, body);
    es' := Longer(es', Requested(s, kind), Reply(s.counter, "", body));
    LooksUp(s, kind, body);
    es' := Longer(es', Replied(s, kind, body), Lookup);
    Erases(s, kind, body);
    es' := Longer(es', Fetched(s, kind, body, false), Erase);
  }

  lemma Longer(es: seq<Event>, s: State, e: Event) returns (es': seq<Event>)
    requires Exec(es) == Some(s) && Enabled(s, e)
    ensures Exec(es') == Some(Apply(s, e))
  {
    es' := es + [e];
    Extend(es, e, s);
  }

  /** After `produce`: the call has its answer and has not looked at it. */
  function Notified(s: State, kind: Kind): State {
    var call := Waiter(s, kind, Some(|s.log|)).(pending := true, hdr := ResponseHeader(s.counter, ""));
    Fetched(s, kind, None, true).(calls := s.calls + [call], io := Idle)
  }

  function Notifying(s: State, kind: Kind): State {
    Notified(s, kind).(io := Busy(Producing, s.counter, Req(|s.calls|), |s.log|, false, false))
  }

  lemma Produces(s: State, kind: Kind)
    requires CanAsk(s, kind) && !kind.Typed?
    ensures var t := Fetched(s, kind, None, true);
            Enabled(t, Produce(false, true)) && Apply(t, Produce(false, true)) == Notifying(s, kind)
  {
  }

  lemma Unlocks(s: State, kind: Kind)
    requires CanAsk(s, kind)
    ensures var t := Notifying(s, kind); Enabled(t, EndProduce) && Apply(t, EndProduce) == Notified(s, kind)
  {
  }

  /** A request is sent, answered with a header alone, and has its answer. */
  lemma Answers(es: seq<Event>, s: State, kind: Kind) returns (es': seq<Event>)
    requires Exec(es) == Some(s) && CanAsk(s, kind) && !kind.Typed?
    ensures Exec(es') == Some(Notified(s, kind))
  {
    es' := Asked(es, s, kind, None);
    Produces(s, kind);
    es' := Longer(es', Fetched(s, kind, None, true), Produce(false, true));
    Unlocks(s, kind);
    es' := Longer(es', Notifying(s, kind), EndProduce);
  }

  // ---------- a connection ----------

  /** The handshake has returned. */
  function Connected(): State {
    SetPhase(Notified(Init(), Plain), 0, Returned(SUCCESS))
  }

  lemma Connects() returns (es: seq<Event>)
    ensures Exec(es) == Some(Connected())
  {
    assert Exec([]) == Some(Init());
    es := Answers([], Init(), Plain);
    var more := AnswerIsReturned(es, Notified(Init(), Plain), 0);
    es := es + more;
  }

  // ---------- a split reply ----------

  /** What the agent sends after the header of a reply to `join`. */
  function JoinBody(n: int): Object { Map(map["Num" := Int(n)]) }

  /** A run in which a typed call returns SUCCESS with the default data, although its reply had a body: the
      first call of a connection, whose body comes one batch after its header. */
  lemma SplitRun(n: int) returns (es: seq<Event>, t: State)
    ensures Exec(es) == Some(t) && !t.fault && |t.calls| == 2 && |t.log| == 2
    ensures t.calls[1].kind == Typed && t.calls[1].phase == Returned(SUCCESS) && t.calls[1].data.None?
    ensures t.calls[1].heard == Some(1) && t.log[1].body == Some(JoinBody(n))
  {
    var s := Fetched(Connected(), Typed, Some(JoinBody(n)), true);
    OrphanBodyIsDefaultHeader(Join, JoinBody(n));
    es := Connects();
    es := Asked(es, Connected(), Typed, Some(JoinBody(n)));
    var more;
    more, t := SplitReplySucceedsWithDefault(es, s, 1, true);
    es := es + [Produce(false, true)] + more;
  }

  lemma FirstCallIsServed(body: Object)
    ensures var s := Fetched(Connected(), Typed, Some(body), true);
            && !s.fault && s.mid && s.io == Busy(Erased, 1, Req(1), 1, false, false)
            && |s.calls| == 2 && s.calls[1].kind == Typed && s.calls[1].phase == Waiting
            && |s.log| == 2 && s.log[1].hdr.Error == "" && s.log[1].body == Some(body)
    ensures CanAsk(Connected(), Typed)
  {
  }

  /** And one in which the body comes with its header and is what the call returns. */
  lemma WholeRun(n: int) returns (es: seq<Event>, t: State)
    ensures Exec(es) == Some(t) && !t.fault && |t.calls| == 2
    ensures t.calls[1].kind == Typed && t.calls[1].phase == Returned(SUCCESS)
    ensures t.calls[1].data == Some(Map(map["Num" := Int(n)]))
  {
    hide Fetched, Connected, CanAsk, Exec, AsHeader, SetPhase, Enabled, Apply;
    FirstCallIsServed(JoinBody(n));
    var s := Fetched(Connected(), Typed, Some(JoinBody(n)), true);
    OrphanBodyIsDefaultHeader(Join, JoinBody(n));
    es := Connects();
    es := Asked(es, Connected(), Typed, Some(JoinBody(n)));
    var more;
    more, t := WholeReplyIsReturned(es, s, 1);
    es := es + [Produce(true, true)] + more;
  }

  // ---------- a Stop in the window of a record ----------

  /** A subscription has its answer and has looked at it. */
  function Subscribing(kind: ListenerKind): State {
    SetPhase(Notified(Connected(), Subscribe(kind)), 1, Answered)
  }

  /** It has returned, and its listener has number 1. */
  function Subscribed(kind: ListenerKind): State {
    SetPhase(AfterInstall(Subscribing(kind), 1), 1, Returned(SUCCESS))
  }

  function Monitored(): State { Subscribed(LOG) }

  lemma Subscribes(kind: ListenerKind) returns (es: seq<Event>)
    ensures Exec(es) == Some(Subscribed(kind))
  {
    es := Connects();
    es := Answers(es, Connected(), Subscribe(kind));
    var more := AnswerIsRead(es, Notified(Connected(), Subscribe(kind)), 1);
    es := Longer(es + more, Subscribing(kind), Install(1));
    InstallReturns(kind);
    es := Longer(es, AfterInstall(Subscribing(kind), 1), Return(1));
  }

  lemma InstallReturns(kind: ListenerKind)
    ensures var t := AfterInstall(Subscribing(kind), 1);
            Enabled(t, Return(1)) && Apply(t, Return(1)) == Subscribed(kind)
  {
  }

  /** The Stop has its answer, and the listener's agent has sent a record. */
  function Recorded(record: Object): State {
    var t := Notified(Monitored(), Stop(1));
    t.(log := t.log + [Message(ResponseHeader(1, ""), Some(record), false)])
  }

  /** The record is looked up. */
  function Windowed(record: Object): State {
    var t := Recorded(record);
    t.(read := |t.log|, mid := true, io := Busy(Found, 1, Chan(0), |t.log| - 1, false, false))
  }

  lemma StopMayStart()
    ensures CanAsk(Monitored(), Stop(1))
  {
    assert Monitored().subs[0].num == 1;
  }

  lemma Records(record: Object)
    requires Unroutable(record)
    ensures var t, e := Notified(Monitored(), Stop(1)), Emit(1, "", record);
            Enabled(t, e) && Apply(t, e) == Recorded(record)
  {
  }

  lemma RecordIsFound(record: Object)
    ensures Enabled(Recorded(record), Lookup) && Apply(Recorded(record), Lookup) == Windowed(record)
  {
    Finds(Recorded(record), 1);
  }

  lemma WindowIsDoomed(record: Object)
    ensures Doomed(Windowed(record)) && |Windowed(record).calls| == 3 && Windowed(record).calls[2].phase == Waiting
  {
    assert Stopper(Windowed(record), 2);
  }

  /** A run that enters the window of a record while a Stop has an answer it has not looked at yet, so that
      the window is doomed. */
  lemma DoomedRun(record: Object) returns (es: seq<Event>, s: State)
    requires Unroutable(record)
    ensures Exec(es) == Some(s) && Doomed(s) && |s.calls| == 3 && s.calls[2].phase == Waiting && !s.io.cut
  {
    es := Subscribes(LOG);
    StopMayStart();
    es := Answers(es, Monitored(), Stop(1));
    Records(record);
    es := Longer(es, Notified(Monitored(), Stop(1)), Emit(1, "", record));
    RecordIsFound(record);
    es := Longer(es, Recorded(record), Lookup);
    WindowIsDoomed(record);
    s := Windowed(record);
  }

  // ---------- a query that is never completed ----------

  /** The agent has sent the record that completes the query; its header has been looked up or not, its body is in
      the same batch or not, and the listener has been told of it or not. */
  function Finishing(done: Object, taken: bool): State {
    var t := Subscribed(QUERY);
    t.(log := t.log + [Message(ResponseHeader(1, ""), Some(done), false)],
       read := if taken then |t.log| + 1 else |t.log|, mid := taken, io := if taken then AtQuery(Found) else Idle)
  }

  function AtQuery(stage: Stage): Io { Busy(stage, 1, Chan(0), |Subscribed(QUERY).log|, false, false) }

  function ToldOfNothing(done: Object, io: Io, mid: bool): State {
    var t := Finishing(done, true);
    t.(subs := [t.subs[0].(got := [Receipt(|t.log| - 1, false)])], mid := mid, io := io)
  }

  lemma DoneIsSent(done: Object)
    requires Unroutable(done)
    ensures var t, e := Subscribed(QUERY), Emit(1, "", done); Enabled(t, e) && Apply(t, e) == Finishing(done, false)
  {
  }

  lemma DoneIsFound(done: Object)
    ensures Enabled(Finishing(done, false), Lookup) && Apply(Finishing(done, false), Lookup) == Finishing(done, true)
  {
    Finds(Finishing(done, false), 1);
  }

  lemma DoneIsMissed(done: Object)
    ensures var t, e := Finishing(done, true), Produce(false, true);
            Enabled(t, e) && Apply(t, e) == ToldOfNothing(done, AtQuery(Producing), true)
  {
    var t := Finishing(done, true);
    var told := t.subs[0].(got := [Receipt(|t.log| - 1, false)]);
    assert t.subs[0].got == [] && t.subs[0].got + [Receipt(|t.log| - 1, false)] == told.got;
    assert |t.subs| == 1 && t.subs[0 := told] == [told];
  }

  lemma ServiceIsOver(done: Object)
    ensures var t := ToldOfNothing(done, AtQuery(Producing), true);
            Enabled(t, EndProduce) && Apply(t, EndProduce) == ToldOfNothing(done, Idle, true)
  {
  }

  lemma DoneIsDropped(done: Object)
    requires Unroutable(done)
    ensures var t := ToldOfNothing(done, Idle, true);
            Enabled(t, Lookup) && Apply(t, Lookup) == ToldOfNothing(done, Idle, false)
  {
  }

  lemma QueryIsLeft(done: Object)
    ensures var s := ToldOfNothing(done, Idle, false);
            && !s.fault && s.io.Idle? && !s.mid && s.read == |s.log| && s.log != []
            && |s.subs| == 1 && s.subs[0].kind == QUERY && s.subs[0].epoch == s.epoch && s.subs[0].deletes == 0
            && Registered(s, s.subs[0].num, Chan(0))
            && var m := s.log[|s.log| - 1]; m.hdr.Seq == s.subs[0].num && m.body == Some(done)
  {
  }

  /** A run in which the agent completes a query, and every object of the stream is taken, but the listener is not told
      and the query stays registered: its record comes one batch after the header. */
  lemma UncompletedRun() returns (es: seq<Event>, s: State)
    ensures Exec(es) == Some(s) && !s.fault && s.io.Idle? && !s.mid && s.read == |s.log|
    ensures |s.subs| == 1 && s.subs[0].kind == QUERY && s.subs[0].epoch == s.epoch && s.subs[0].deletes == 0
    ensures Registered(s, s.subs[0].num, Chan(0)) && s.log != []
    ensures var m := s.log[|s.log| - 1]; m.hdr.Seq == s.subs[0].num && m.body == Some(PackRecord(OnComplete))
  {
    hide Subscribed, Finishing, ToldOfNothing, Apply, Enabled, Exec, PackRecord, CallbackFor, AsHeader;
    var done := PackRecord(OnComplete);
    RecordRoundTrip(OnComplete);
    es := Subscribes(QUERY);
    DoneIsSent(done);
    es := Longer(es, Subscribed(QUERY), Emit(1, "", done));
    DoneIsFound(done);
    es := Longer(es, Finishing(done, false), Lookup);
    DoneIsMissed(done);
    es := Longer(es, Finishing(done, true), Produce(false, true));
    ServiceIsOver(done);
    es := Longer(es, ToldOfNothing(done, AtQuery(Producing), true), EndProduce);
    DoneIsDropped(done);
    es := Longer(es, ToldOfNothing(done, Idle, true), Lookup);
    s := ToldOfNothing(done, Idle, false);
    QueryIsLeft(done);
  }

  /** The listener has been told of the completion, which may still be in progress. */
  function ToldOfEnd(done: Object, io: Io): State {
    var t := Finishing(done, true);
    t.(subs := [t.subs[0].(got := [Receipt(|t.log| - 1, true)])], mid := false, io := io)
  }

  function Completed(done: Object): State {
    var t := ToldOfEnd(done, Idle);
    t.(subs := [t.subs[0].(deletes := 1, stop := Some(t.read))], registry := t.registry - {1})
  }

  lemma DoneIsHeard(done: Object)
    ensures var t, e := Finishing(done, true), Produce(true, true);
            Enabled(t, e) && Apply(t, e) == ToldOfEnd(done, AtQuery(Producing))
  {
    var t := Finishing(done, true);
    var told := t.subs[0].(got := [Receipt(|t.log| - 1, true)]);
    assert t.subs[0].got == [] && t.subs[0].got + [Receipt(|t.log| - 1, true)] == told.got;
    assert |t.subs| == 1 && t.subs[0 := told] == [told];
  }

  lemma QueryIsOver(done: Object)
    requires CallbackFor(QUERY, Some(done)) == Some(OnComplete)
    ensures var t := ToldOfEnd(done, AtQuery(Producing));
            Enabled(t, EndProduce) && Apply(t, EndProduce) == Completed(done)
  {
    hide CallbackFor;
    var t := ToldOfEnd(done, AtQuery(Producing));
    var gone := t.subs[0].(deletes := 1, stop := Some(t.read));
    assert t.subs[0 := gone] == [gone] && Completing(t);
  }

  /** The same record, when it comes whole, completes the query: its channel is deleted and registered nowhere. */
  lemma CompletedRun() returns (es: seq<Event>, s: State)
    ensures Exec(es) == Some(s) && !s.fault && s.io.Idle? && !s.mid && s.read == |s.log| && s.log != []
    ensures |s.subs| == 1 && s.subs[0].kind == QUERY && s.subs[0].epoch == s.epoch && s.subs[0].deletes == 1
    ensures s.subs[0].num !in s.registry && s.subs[0].got == [Receipt(|s.log| - 1, true)]
    ensures s.log[|s.log| - 1].body == Some(Map(map["Type" := Str("done")]))
  {
    hide Subscribed, Finishing, ToldOfEnd, Apply, Enabled, Exec, CallbackFor;
    var done := Map(map["Type" := Str("done")]);
    AnswersAreHeard("", []);
    OrphanBodyIsDefaultHeader(NodeBase, done);
    es := Subscribes(QUERY);
    DoneIsSent(done);
    es := Longer(es, Subscribed(QUERY), Emit(1, "", done));
    DoneIsFound(done);
    es := Longer(es, Finishing(done, false), Lookup);
    DoneIsHeard(done);
    es := Longer(es, Finishing(done, true), Produce(true, true));
    QueryIsOver(done);
    es := Longer(es, ToldOfEnd(done, AtQuery(Producing)), EndProduce);
    s := Completed(done);
    QueryIsGone(done);
  }

  lemma QueryIsGone(done: Object)
    ensures var s := Completed(done);
            && !s.fault && s.io.Idle? && !s.mid && s.read == |s.log| && s.log != []
            && |s.subs| == 1 && s.subs[0].kind == QUERY && s.subs[0].epoch == s.epoch && s.subs[0].deletes == 1
            && s.subs[0].num !in s.registry && s.subs[0].got == [Receipt(|s.log| - 1, true)]
            && s.log[|s.log| - 1].body == Some(done)
  {
  }

  // ---------- a leak ----------

  /** The connection of the Monitor is closed, and a new one has its handshake done. */
  function Disconnected(): State {
    Monitored().(epoch := 1, counter := 0, handshake := None, owner := map[], log := [], replied := map[], open := {},
                 read := 0, mid := false)
  }

  function Reconnected(): State {
    SetPhase(Notified(Disconnected(), Plain), 2, Returned(SUCCESS))
  }

  lemma MonitoredCloses()
    ensures Enabled(Monitored(), Close) && Apply(Monitored(), Close) == Disconnected()
  {
  }

  lemma Reconnects() returns (es: seq<Event>)
    ensures Exec(es) == Some(Reconnected())
  {
    es := Disconnects();
    es := Answers(es, Disconnected(), Plain);
    HandshakeIsAnswered();
    var more := AnswerIsReturned(es, Notified(Disconnected(), Plain), 2);
    es := es + more;
  }

  lemma HandshakeIsAnswered()
    ensures var t := Notified(Disconnected(), Plain);
            && !t.fault && t.io.Idle? && |t.calls| == 3 && t.calls[2].pending && t.calls[2].phase == Waiting
            && t.calls[2].kind == Plain && ResultOf(t.calls[2]) == SUCCESS
  {
  }

  lemma Disconnects() returns (es: seq<Event>)
    ensures Exec(es) == Some(Disconnected()) && CanAsk(Disconnected(), Plain)
  {
    es := Subscribes(LOG);
    MonitoredCloses();
    es := Longer(es, Monitored(), Close);
  }

  /** A run that leaks the listener of a Monitor: nobody stops it, the connection closes, and the second request
      of the next one is sent with its number. */
  lemma LeakRun() returns (es: seq<Event>, s: State)
    ensures Exec(es) == Some(s) && |s.subs| == 1 && s.subs[0].deletes == 0 && !s.fault
    ensures !Registered(s, s.subs[0].num, Chan(0)) && Overwritten(s, 0)
  {
    es := Reconnects();
    SendOverwrites();
    es := Longer(es, Reconnected(), Send(Plain, false, true));
    s := Apply(Reconnected(), Send(Plain, false, true));
    assert TakesNumber(s, 0, 3);
  }

  lemma SendOverwrites()
    ensures Enabled(Reconnected(), Send(Plain, false, true))
    ensures var t := Apply(Reconnected(), Send(Plain, false, true));
            && |t.subs| == 1 && t.subs[0].num == 1 && t.subs[0].epoch == 0 && t.subs[0].deletes == 0 && !t.fault
            && |t.calls| == 4 && t.calls[3].sent && t.calls[3].num == 1 && t.calls[3].epoch == 1
            && Registered(t, 1, Req(3))
  {
  }
}
