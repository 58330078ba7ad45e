/** What holds of the client over every run, and exactly when the unsafe access happens. */
module ProtocolTheorems {
  import opened Options
  import opened Messages
  import opened Protocol
  import opened ProtocolInvariant
  import opened ProtocolPreservation
  import opened Sequences

  /** `s` is the state after the first `n` events of a run. */
  ghost predicate At(es: seq<Event>, n: nat, s: State) {
    n <= |es| && Exec(es[..n]) == Some(s)
  }

  ghost predicate Reachable(s: State) {
    exists es :: Exec(es) == Some(s)
  }

  lemma ReachableIsSound(s: State)
    requires Reachable(s)
    ensures Inv(s)
  {
    var es :| Exec(es) == Some(s);
    RunKeeps(es);
  }

  /** One event before: the state it happened in, and what the event did. */
  lemma Before(es: seq<Event>, n: nat, t: State) returns (s: State)
    requires 0 < n && At(es, n, t)
    ensures At(es, n - 1, s) && Inv(s) && !s.fault && Stepped(s, es[n - 1], t)
  {
    assert es[..n][..n - 1] == es[..n - 1];
    s := Exec(es[..n - 1]).value;
    RunKeeps(es[..n - 1]);
    StepIsStepped(s, es[n - 1]);
  }

  lemma AtStart(es: seq<Event>, s: State)
    requires At(es, 0, s)
    ensures s == Init()
  {
    assert es[..0] == [];
  }

  // ---------- correlation ----------

  /** Every call that has its answer has it from the reply with its own number: header and, for a
      typed call, the body right behind that header, or default data when the decoder did not have
      that body yet. */
  lemma Correlation(s: State, c: nat)
    requires Reachable(s) && c < |s.calls|
    requires s.calls[c].epoch == s.epoch && s.calls[c].pending
    ensures var call := s.calls[c];
            && call.heard.Some? && call.heard.value < |s.log|
            && var m := s.log[call.heard.value];
               && m.reply && m.hdr.Seq == call.num && call.hdr == m.hdr
               && (call.kind.Typed? && call.whole ==> m.body.Some? && call.data == m.body)
               && (!call.kind.Typed? || !call.whole ==> call.data.None?)
  {
    ReachableIsSound(s);
    assert CallOk(s, c);
  }

  /** No reply serves two calls. */
  lemma NoReplyServesTwo(s: State, c: nat, d: nat)
    requires Reachable(s) && c < |s.calls| && d < |s.calls| && c != d
    requires s.calls[c].epoch == s.epoch && s.calls[d].epoch == s.epoch
    requires s.calls[c].heard.Some? && s.calls[d].heard.Some?
    ensures s.calls[c].heard != s.calls[d].heard
  {
    ReachableIsSound(s);
    assert CallOk(s, c) && CallOk(s, d);
  }

  /** What the caller is told: SUCCESS only on a reply without error, FAILURE only on a failed send
      or a reply with an error, TIMEOUT only after a send that worked. */
  lemma ResultIsHonest(s: State, c: nat)
    requires Reachable(s) && c < |s.calls| && s.calls[c].phase.Returned?
    ensures match s.calls[c].phase.r
            case SUCCESS => s.calls[c].sent && s.calls[c].pending && s.calls[c].hdr.Error == ""
            case FAILURE => !s.calls[c].sent || (s.calls[c].pending && s.calls[c].hdr.Error != "")
            case TIMEOUT => s.calls[c].sent
  {
    ReachableIsSound(s);
    assert CallOk(s, c);
  }

  /** Default data reaches a caller only when the decoder lacked the body at that call's own `produce`. */
  lemma {:induction false} DefaultDataNeedsSplit(es: seq<Event>, n: nat, s: State, c: nat) returns (j: nat, u: State)
    requires At(es, n, s) && c < |s.calls| && !s.calls[c].whole
    ensures j < n && At(es, j, u) && u.io.Busy? && u.io.ref == Req(c)
    ensures es[j].Produce? && !es[j].arrived
    decreases n
  {
    if n == 0 { AtStart(es, s); }
    u := Before(es, n, s);
    if c < |u.calls| && !u.calls[c].whole { j, u := DefaultDataNeedsSplit(es, n - 1, u, c); }
    else { j := n - 1; OnlyProduceSplits(u, es[n - 1], s, c); }
  }

  lemma OnlyProduceSplits(s: State, e: Event, t: State, c: nat)
    requires Stepped(s, e, t) && c < |t.calls| && !t.calls[c].whole
    requires c < |s.calls| ==> s.calls[c].whole
    ensures s.io.Busy? && s.io.ref == Req(c) && e.Produce? && !e.arrived
  {
  }

  /** What a `produce` leaves a typed call with: default data exactly when the decoder lacked the body, the
      body exactly when it was there and converted, and no answer at all when it did not convert. */
  lemma DefaultDataExactlyWhen(s: State, c: nat, arrived: bool, converts: bool)
    requires Reachable(s) && Enabled(s, Produce(arrived, converts)) && s.io.ref == Req(c)
    requires !Dead(s, s.io.ref) && s.calls[c].kind.Typed?
    ensures var call := Apply(s, Produce(arrived, converts)).calls[c];
            && (call.pending && call.data.None? <==> !arrived)
            && (call.pending && call.data.Some? <==> arrived && converts)
            && (call.data.Some? ==> call.data == s.log[s.io.msg].body)
  {
    ReachableIsSound(s);
    assert CallOk(s, c);
    StepIsStepped(s, Produce(arrived, converts));
  }

  /** And the caller is not told: when the body of an error-free reply has not arrived, a call that is still
      waiting, or has just stopped, can return SUCCESS with the default data. */
  lemma SplitReplySucceedsWithDefault(es: seq<Event>, s: State, c: nat, v: bool) returns (more: seq<Event>, t: State)
    requires Exec(es) == Some(s) && !s.fault && c < |s.calls|
    requires s.io.Busy? && s.io.stage == Erased && s.io.ref == Req(c) && s.io.msg < |s.log|
    requires s.calls[c].kind.Typed? && s.log[s.io.msg].hdr.Error == ""
    requires s.calls[c].phase == Waiting || s.calls[c].phase == Checking
    ensures Exec(es + [Produce(false, v)] + more) == Some(t)
    ensures !t.fault && t.log == s.log && |t.calls| == |s.calls| && t.calls[c].data.None?
    ensures t.calls[c] == s.calls[c].(hdr := s.log[s.io.msg].hdr, pending := true, whole := false,
                                      phase := Returned(SUCCESS))
  {
    RunKeeps(es);
    SplitProduce(s, c, v);
    var u := Apply(s, Produce(false, v));
    Extend(es, Produce(false, v), s);
    EndsProduce(u, c);
    Extend(es + [Produce(false, v)], EndProduce, u);
    var later := AnswerIsReturned(es + [Produce(false, v)] + [EndProduce], u.(io := Idle), c);
    more := [EndProduce] + later;
    Assoc(es + [Produce(false, v)], [EndProduce], later);
    t := SetPhase(u.(io := Idle), c, Returned(SUCCESS));
  }

  lemma SplitProduce(s: State, c: nat, v: bool)
    requires Inv(s) && !s.fault && c < |s.calls|
    requires s.io.Busy? && s.io.stage == Erased && s.io.ref == Req(c) && s.io.msg < |s.log|
    requires s.calls[c].kind.Typed? && !s.calls[c].phase.Returned?
    ensures Enabled(s, Produce(false, v))
    ensures var t := Apply(s, Produce(false, v));
            && MutexHeld(t, c) && !t.fault && |t.calls| == |s.calls| && t.log == s.log
            && t.calls[c] == s.calls[c].(hdr := s.log[s.io.msg].hdr, pending := true, whole := false)
            && t.calls[c].data.None?
  {
    assert CallOk(s, c);
  }

  /** When the body is there and converts, the call returns it, with what the header says. */
  lemma WholeReplyIsReturned(es: seq<Event>, s: State, c: nat) returns (more: seq<Event>, t: State)
    requires Exec(es) == Some(s) && !s.fault && c < |s.calls|
    requires s.io.Busy? && s.io.stage == Erased && s.io.ref == Req(c) && s.io.msg < |s.log|
    requires s.calls[c].kind.Typed? && s.mid
    requires s.calls[c].phase == Waiting || s.calls[c].phase == Checking
    ensures Exec(es + [Produce(true, true)] + more) == Some(t)
    ensures !t.fault && t.log == s.log && |t.calls| == |s.calls| && t.calls[c].pending && t.calls[c].whole
    ensures t.calls[c].kind == Typed && t.calls[c].hdr == s.log[s.io.msg].hdr
    ensures t.calls[c].data == s.log[s.io.msg].body && t.calls[c].data.Some?
    ensures t.calls[c].phase == Returned(if s.log[s.io.msg].hdr.Error == "" then SUCCESS else FAILURE)
  {
    RunKeeps(es);
    WholeProduce(s, c);
    var u := Apply(s, Produce(true, true));
    Extend(es, Produce(true, true), s);
    EndsProduce(u, c);
    Extend(es + [Produce(true, true)], EndProduce, u);
    var later := AnswerIsReturned(es + [Produce(true, true)] + [EndProduce], u.(io := Idle), c);
    more := [EndProduce] + later;
    Assoc(es + [Produce(true, true)], [EndProduce], later);
    t := SetPhase(u.(io := Idle), c, Returned(ResultOf(u.calls[c])));
  }

  lemma WholeProduce(s: State, c: nat)
    requires Inv(s) && !s.fault && c < |s.calls|
    requires s.io.Busy? && s.io.stage == Erased && s.io.ref == Req(c) && s.io.msg < |s.log|
    requires s.calls[c].kind.Typed? && !s.calls[c].phase.Returned? && s.mid
    ensures Enabled(s, Produce(true, true))
    ensures var t := Apply(s, Produce(true, true));
            && MutexHeld(t, c) && !t.fault && |t.calls| == |s.calls| && t.log == s.log
            && t.calls[c] == s.calls[c].(hdr := s.log[s.io.msg].hdr, pending := true, data := s.log[s.io.msg].body)
            && t.calls[c].data.Some? && t.calls[c].whole
  {
    assert CallOk(s, c);
  }

  lemma EndsProduce(s: State, c: nat)
    requires MutexHeld(s, c) && !s.fault && c < |s.calls| && !s.calls[c].phase.Returned?
    ensures Enabled(s, EndProduce) && Apply(s, EndProduce) == s.(io := Idle)
  {
  }

  /** A call that has its answer goes on to return it. */
  lemma AnswerIsReturned(es: seq<Event>, s: State, c: nat) returns (more: seq<Event>)
    requires Exec(es) == Some(s) && !s.fault && s.io.Idle? && c < |s.calls| && s.calls[c].pending
    requires s.calls[c].phase == Waiting || s.calls[c].phase == Checking
    requires !s.calls[c].kind.Subscribe? && !s.calls[c].kind.Stop?
    ensures Exec(es + more) == Some(SetPhase(s, c, Returned(ResultOf(s.calls[c]))))
  {
    var u := SetPhase(s, c, Answered);
    more := AnswerIsRead(es, s, c);
    assert Enabled(u, Finish(c)) && Apply(u, Finish(c)) == SetPhase(s, c, Closing(ResultOf(s.calls[c])));
    Extend(es + more, Finish(c), u);
    CallCloses(es + more + [Finish(c)], s, c, ResultOf(s.calls[c]));
    Assoc(es, more, [Finish(c)]);
    Assoc(es, more + [Finish(c)], [Return(c)]);
    more := more + [Finish(c)] + [Return(c)];
  }

  lemma AnswerIsRead(es: seq<Event>, s: State, c: nat) returns (more: seq<Event>)
    requires Exec(es) == Some(s) && !s.fault && !MutexHeld(s, c) && c < |s.calls| && s.calls[c].pending
    requires s.calls[c].phase == Waiting || s.calls[c].phase == Checking
    ensures Exec(es + more) == Some(SetPhase(s, c, Answered))
  {
    var u := SetPhase(s, c, Checking);
    if s.calls[c].phase == Waiting {
      Extend(es, EndWait(c), s);
      assert Apply(u, Check(c)) == SetPhase(s, c, Answered);
      Extend(es + [EndWait(c)], Check(c), u);
      Assoc(es, [EndWait(c)], [Check(c)]);
      more := [EndWait(c)] + [Check(c)];
    } else {
      more := [Check(c)];
      Extend(es, Check(c), s);
    }
  }

  lemma CallCloses(es: seq<Event>, s: State, c: nat, r: SerfResponse)
    requires c < |s.calls| && !s.fault && Exec(es) == Some(SetPhase(s, c, Closing(r)))
    ensures Exec(es + [Return(c)]) == Some(SetPhase(s, c, Returned(r)))
  {
    var u := SetPhase(s, c, Closing(r));
    assert Apply(u, Return(c)) == SetPhase(s, c, Returned(r));
    Extend(es, Return(c), u);
  }

  // ---------- what lies behind a result ----------

  /** The call has looked at its channel and found no answer. */
  predicate GivenUp(p: Phase) { p == GaveUp || p == Closing(TIMEOUT) || p == Returned(TIMEOUT) }

  /** TIMEOUT is returned only after the call itself looked and found nothing pending. */
  lemma {:induction false} TimeoutFoundNothing(es: seq<Event>, n: nat, s: State, c: nat) returns (j: nat, u: State)
    requires At(es, n, s) && c < |s.calls| && GivenUp(s.calls[c].phase)
    ensures j < n && At(es, j, u) && es[j] == Check(c) && c < |u.calls| && !u.calls[c].pending
    decreases n
  {
    if n == 0 { AtStart(es, s); }
    u := Before(es, n, s);
    OnlyCheckGivesUp(u, es[n - 1], s, c);
    if GivenUp(u.calls[c].phase) { j, u := TimeoutFoundNothing(es, n - 1, u, c); } else { j := n - 1; }
  }

  lemma OnlyCheckGivesUp(s: State, e: Event, t: State, c: nat)
    requires Stepped(s, e, t) && c < |t.calls| && GivenUp(t.calls[c].phase)
    ensures c < |s.calls| && (GivenUp(s.calls[c].phase) || (e == Check(c) && !s.calls[c].pending))
  {
  }

  /** Data reaches a caller only from an object that was there at that call's own `produce` and converted. */
  lemma {:induction false} DataWasConverted(es: seq<Event>, n: nat, s: State, c: nat) returns (j: nat, u: State)
    requires At(es, n, s) && c < |s.calls| && s.calls[c].data.Some?
    ensures j < n && At(es, j, u) && u.io.Busy? && u.io.ref == Req(c) && es[j] == Produce(true, true)
    decreases n
  {
    if n == 0 { AtStart(es, s); }
    u := Before(es, n, s);
    if c < |u.calls| && u.calls[c].data.Some? { j, u := DataWasConverted(es, n - 1, u, c); }
    else { j := n - 1; OnlyProduceConverts(u, es[n - 1], s, c); }
  }

  lemma OnlyProduceConverts(s: State, e: Event, t: State, c: nat)
    requires Stepped(s, e, t) && c < |t.calls| && t.calls[c].data.Some?
    requires c < |s.calls| ==> s.calls[c].data.None?
    ensures s.io.Busy? && s.io.ref == Req(c) && e == Produce(true, true)
  {
  }

  // ---------- the decoder stays aligned ----------

  /** Whatever the decode loop takes for a header is a header of the agent, routed by its own
      number, or an orphan body, which is dropped without touching anything else. */
  lemma HeadersAreHeaders(s: State)
    requires Reachable(s) && Enabled(s, Lookup)
    ensures var t := Apply(s, Lookup);
            if s.mid then t == s.(mid := false)
            else
              && t.read == s.read + 1 && t.mid == s.log[s.read].body.Some?
              && t.registry == s.registry && t.subs == s.subs
              && t.io == (var q := s.log[s.read].hdr.Seq;
                          if q in s.registry then Busy(Found, q, s.registry[q], s.read, false, false) else Idle)
  {
    ReachableIsSound(s);
    StepIsStepped(s, Lookup);
  }

  /** Whatever a channel takes for its body is the body of the message whose header found it, and
      the decoder is left at the next header. */
  lemma BodiesAreBodies(s: State)
    requires Reachable(s) && s.io.Busy? && s.io.stage != Producing && HasNext(s)
    requires s.io.ref.Chan? || (s.io.ref.call < |s.calls| && s.calls[s.io.ref.call].kind.Typed?)
    ensures s.io.msg < |s.log| && Some(NextObject(s)) == s.log[s.io.msg].body
    ensures Take(s) == s.(mid := false)
  {
    ReachableIsSound(s);
    BodyIsNext(s);
  }

  lemma BodyIsNext(s: State)
    requires IoOk(s) && LogOk(s) && CallsOk(s) && s.io.Busy? && s.io.stage != Producing
    requires s.io.ref.Chan? || (s.io.ref.call < |s.calls| && s.calls[s.io.ref.call].kind.Typed?)
    ensures s.mid
  {
    assert MessageOk(s, s.io.msg);
    if s.io.ref.Req? { assert CallOk(s, s.io.ref.call); }
  }

  // ---------- the map ----------

  /** Every REQUEST entry belongs to a call that has not returned and has not been answered; its
      key is a number of this connection below the counter. */
  lemma NoReturnedCallStaysRegistered(s: State, q: nat)
    requires Reachable(s) && q in s.registry && s.registry[q].Req?
    ensures var c := s.registry[q].call;
            && c < |s.calls| && s.calls[c].num == q && s.calls[c].epoch == s.epoch
            && Active(s.calls[c].phase) && !s.calls[c].pending && q < s.counter
  {
    ReachableIsSound(s);
    assert EntryOk(s, q);
    assert CallOk(s, s.registry[q].call);
  }

  /** A reply at the head of the stream finds its call's channel, unless that call's own
      `removeChannel` came first. */
  lemma NoReplyOutrunsRegistration(s: State)
    requires Reachable(s) && s.io.Idle? && !s.mid && s.read < |s.log| && s.log[s.read].reply
    ensures ReplyFinds(s, s.log[s.read].hdr.Seq)
  {
    ReachableIsSound(s);
    HeadReplyFinds(s);
  }

  ghost predicate ReplyFinds(s: State, q: nat) {
    && q in s.owner && s.owner[q] < |s.calls|
    && var c := s.owner[q];
       if Active(s.calls[c].phase) then Registered(s, q, Req(c))
       else (s.calls[c].phase.Closing? || s.calls[c].phase.Returned?) && s.calls[c].phase.r == TIMEOUT
  }

  lemma HeadReplyFinds(s: State)
    requires OwnerOk(s) && LogOk(s) && CallsOk(s) && !s.mid && s.read < |s.log| && s.log[s.read].reply
    ensures ReplyFinds(s, s.log[s.read].hdr.Seq)
  {
    assert MessageOk(s, s.read);
    var c := s.owner[s.log[s.read].hdr.Seq];
    assert CallOk(s, c) && CallHeard(s, s.calls[c]);
    assert s.calls[c].heard.Some? ==> MessageOk(s, s.calls[c].heard.value);
  }

  /** Reply handling takes out the entry it looked up or nothing, and never a listener. */
  lemma EraseBeforeProduce(s: State)
    requires Reachable(s) && Enabled(s, Erase) && !Dead(s, s.io.ref)
    ensures var t := Apply(s, Erase);
            && t.registry == s.registry - {s.io.num}
            && (s.io.num in s.registry ==> s.registry[s.io.num] == s.io.ref)
            && ChansKept(s, t)
  {
    ReachableIsSound(s);
    EraseIsExact(s);
  }

  /** A listener leaves the map only by a Stop of its number, by its own query's completion, or,
      when its connection has closed, by a new request taking its number. */
  lemma ListenerLeavesOnlyBy(s: State, e: Event, q: nat)
    requires Reachable(s) && Enabled(s, e) && q in s.registry && s.registry[q].Chan?
    ensures Registered(Apply(s, e), q, s.registry[q]) || Leaves(s, e, q)
  {
    ReachableIsSound(s);
    StepIsStepped(s, e);
    ListenerOwned(s, q);
    ListenerLeaves(s, e, Apply(s, e), q);
  }

  lemma ListenerOwned(s: State, q: nat)
    requires RegistryOk(s) && SubsOk(s) && CallsOk(s) && q in s.registry && s.registry[q].Chan?
    ensures s.registry[q].sub < |s.subs| && (Stale(s, q) || q in s.owner)
  {
    EntryFacts(s, q);
    assert EntryOk(s, q) && SubShape(s, s.registry[q].sub);
    if !Stale(s, q) { SubFacts(s, s.registry[q].sub); }
  }

  ghost predicate Leaves(s: State, e: Event, q: nat) {
    || (e.Cancel? && e.call < |s.calls| && s.calls[e.call].kind == Stop(q))
    || (e.EndProduce? && Completing(s) && s.io.num == q)
    || (e.Send? && e.ok && s.counter == q && Stale(s, q))
  }

  ghost predicate Stale(s: State, q: nat) {
    && q in s.registry && s.registry[q].Chan? && s.registry[q].sub < |s.subs|
    && s.subs[s.registry[q].sub].epoch < s.epoch
  }

  lemma ListenerLeaves(s: State, e: Event, t: State, q: nat)
    requires Stepped(s, e, t) && OwnerOk(s) && IoOk(s) && SubsOk(s)
    requires q in s.registry && s.registry[q].Chan? && s.registry[q].sub < |s.subs|
    requires Stale(s, q) || q in s.owner
    ensures Registered(t, q, s.registry[q]) || Leaves(s, e, q)
  {
    assert SubShape(s, s.registry[q].sub);
    if e.Erase? || e.EndProduce? { ListenerOutlasts(s, e, t, q); }
    else if !MapEvent(e) { OthersKeepMap(s, e, t); }
  }

  lemma ListenerOutlasts(s: State, e: Event, t: State, q: nat)
    requires Stepped(s, e, t) && (e.Erase? || e.EndProduce?) && IoOk(s) && q in s.registry && s.registry[q].Chan?
    ensures Registered(t, q, s.registry[q]) || Leaves(s, e, q)
  {
  }

  predicate MapEvent(e: Event) {
    e.Send? || e.Remove? || e.Install? || e.Cancel? || e.Erase? || e.EndProduce?
  }

  lemma OthersKeepMap(s: State, e: Event, t: State)
    requires Stepped(s, e, t) && !MapEvent(e)
    ensures t.registry == s.registry
  {
  }

  // ---------- use of a dead channel ----------

  /** The two things that can pull a channel from under the I/O thread: another thread's
      `removeChannel` of the number it is serving, and the owner's unlocked read of `m_dataPending`
      while `produce` still holds the channel's mutex. */
  ghost predicate Pulls(s: State, e: Event) {
    && s.io.Busy?
    && match e
       case Remove(c) => c < |s.calls| && s.calls[c].num == s.io.num
       case Cancel(c) => c < |s.calls| && s.calls[c].kind == Stop(s.io.num)
       case Check(c) => MutexHeld(s, c)
       case _ => false
  }

  /** The I/O thread is in the window of message `k` in every state of the run from `j` to `n`. */
  ghost predicate InWindowOf(es: seq<Event>, j: nat, n: nat, k: nat) {
    forall l: nat, v :: j <= l <= n && At(es, l, v) ==> v.io.Busy? && v.io.msg == k
  }

  /** Whenever the I/O thread touches a channel that is gone, one of those two happened earlier in
      the very window, between its lookup and the access. */
  lemma FaultHasCause(es: seq<Event>, s: State) returns (j: nat, u: State)
    requires At(es, |es|, s) && s.fault
    ensures s.io.Busy? && Dead(s, s.io.ref)
    ensures j < |es| && At(es, j, u) && Pulls(u, es[j]) && InWindowOf(es, j, |es|, s.io.msg)
  {
    FaultIsFlagged(es, s);
    j, u := FlagHasCause(es, |es|, s);
  }

  lemma FaultIsFlagged(es: seq<Event>, s: State)
    requires At(es, |es|, s) && s.fault
    ensures s.io.Busy? && Dead(s, s.io.ref) && Flagged(s)
  {
    RunKeeps(es[..|es|]);
    DeadIsFlagged(s);
  }

  lemma DeadIsFlagged(s: State)
    requires IoOk(s) && SubsOk(s) && s.io.Busy? && Dead(s, s.io.ref)
    ensures Flagged(s)
  {
    if s.io.ref.Chan? { assert SubShape(s, s.io.ref.sub); }
  }

  ghost predicate Flagged(s: State) {
    s.io.Busy? && (s.io.cut || s.io.raced)
  }

  lemma {:induction false} FlagHasCause(es: seq<Event>, n: nat, s: State) returns (j: nat, u: State)
    requires At(es, n, s) && Flagged(s)
    ensures j < n && At(es, j, u) && Pulls(u, es[j]) && InWindowOf(es, j, n, s.io.msg)
    decreases n
  {
    u := FlagBefore(es, n, s);
    WindowStarts(es, n - 1, u);
    if Flagged(u) { j, u := FlagHasCause(es, n - 1, u); } else { j := n - 1; }
    WindowGrows(es, j, n, s);
  }

  lemma FlagBefore(es: seq<Event>, n: nat, t: State) returns (s: State)
    requires At(es, n, t) && Flagged(t)
    ensures 0 < n && At(es, n - 1, s) && s.io.Busy? && s.io.msg == t.io.msg
    ensures Flagged(s) || Pulls(s, es[n - 1])
  {
    if n == 0 { AtStart(es, t); }
    s := Before(es, n, t);
    FlagStep(s, es[n - 1], t);
  }

  lemma WindowStarts(es: seq<Event>, n: nat, s: State)
    requires At(es, n, s) && s.io.Busy?
    ensures InWindowOf(es, n, n, s.io.msg)
  {
  }

  lemma WindowGrows(es: seq<Event>, j: nat, n: nat, s: State)
    requires 0 < n && At(es, n, s) && s.io.Busy? && InWindowOf(es, j, n - 1, s.io.msg)
    ensures InWindowOf(es, j, n, s.io.msg)
  {
  }

  lemma FlagStep(s: State, e: Event, t: State)
    requires Stepped(s, e, t) && Flagged(t)
    ensures s.io.Busy? && s.io.msg == t.io.msg
    ensures Flagged(s) || Pulls(s, e)
  {
  }

  lemma Extend(es: seq<Event>, e: Event, s: State)
    requires Exec(es) == Some(s) && Enabled(s, e)
    ensures Exec(es + [e]) == Some(Apply(s, e))
  {
    assert (es + [e])[..|es|] == es;
  }

  /** The event uses the channel that was looked up: the type test before the erase, `produce`, the unlock
      of a result channel's mutex, the deregistration of a completed query. */
  ghost predicate Touches(s: State, e: Event) {
    s.io.Busy? && (e.Erase? || e.Produce? || (e.EndProduce? && (s.io.ref.Req? || Completing(s))))
  }

  /** Exactly when the I/O thread uses a channel that is gone: it touches one whose number was removed by
      another thread since the lookup, or whose call removed it or read its answer too early, and for a
      call's channel that call has returned. */
  lemma FaultsExactlyWhen(s: State, e: Event)
    requires Reachable(s) && Enabled(s, e)
    ensures Apply(s, e).fault <==>
              && Touches(s, e)
              && match s.io.ref
                 case Chan(_) => s.io.cut
                 case Req(c) => c < |s.calls| && s.calls[c].phase.Returned? && (s.io.cut || s.io.raced)
  {
    ReachableIsSound(s);
    StepIsStepped(s, e);
    FaultIsTouch(s, e, Apply(s, e));
    if s.io.Busy? {
      if s.io.ref.Chan? { assert SubShape(s, s.io.ref.sub); }
    }
  }

  lemma FaultIsTouch(s: State, e: Event, t: State)
    requires Stepped(s, e, t) && !s.fault
    ensures t.fault <==> Touches(s, e) && Dead(s, s.io.ref)
  {
  }

  /** The I/O thread's next access to the channel it found. */
  function Access(io: Io): Event
    requires io.Busy?
  {
    if io.stage == Found && io.ref.Req? then Erase
    else if io.stage == Producing then EndProduce
    else Produce(false, false)
  }

  /** A call's own next step. */
  function NextOf(s: State, c: nat): Event
    requires c < |s.calls|
  {
    var call := s.calls[c];
    match call.phase
    case Waiting => EndWait(c)
    case Checking => Check(c)
    case GaveUp => Remove(c)
    case Answered =>
      if call.kind.Subscribe? && NoError(call) then Install(c)
      else if call.kind.Stop? && NoError(call) then Cancel(c)
      else Finish(c)
    case _ => Return(c)
  }

  function StepsLeft(p: Phase): nat {
    match p
    case Waiting => 5
    case Checking => 4
    case GaveUp => 3
    case Answered => 3
    case Closing(_) => 2
    case Returned(_) => 0
  }

  /** The I/O thread has found the channel of call `c` and has not finished with it. */
  ghost predicate Serving(s: State, c: nat) {
    s.io.Busy? && s.io.ref == Req(c) && c < |s.calls| && s.io.msg < |s.log| && !s.fault
  }

  /** The call took a step, and is being served as before. */
  ghost predicate WentOn(s: State, c: nat, t: State)
    requires c < |s.calls|
  {
    && Serving(t, c)
    && t.calls[c].phase != Waiting && StepsLeft(t.calls[c].phase) < StepsLeft(s.calls[c].phase)
  }

  /** The call waits on the mutex that `produce` holds. */
  ghost predicate Blocked(s: State, c: nat) { MutexHeld(s, c) && Is(s, c, Waiting) }

  /** Otherwise no lock keeps the call from going on. */
  lemma CallGoesOn(s: State, c: nat)
    requires Serving(s, c) && !s.calls[c].phase.Returned? && !Blocked(s, c)
    ensures Enabled(s, NextOf(s, c)) && WentOn(s, c, Apply(s, NextOf(s, c)))
  {
    match NextOf(s, c) {
      case EndWait(_) => WaiterGoesOn(s, c);
      case Check(_) => CheckerGoesOn(s, c);
      case Remove(_) => RemoverGoesOn(s, c);
      case Install(_) => InstallerGoesOn(s, c);
      case Cancel(_) => StopperGoesOn(s, c);
      case Finish(_) => FinisherGoesOn(s, c);
      case Return(_) => CloserGoesOn(s, c);
    }
  }

  lemma WaiterGoesOn(s: State, c: nat)
    requires Serving(s, c) && s.calls[c].phase == Waiting && !Blocked(s, c)
    ensures Enabled(s, EndWait(c)) && WentOn(s, c, Apply(s, EndWait(c)))
  {
  }

  lemma CheckerGoesOn(s: State, c: nat)
    requires Serving(s, c) && s.calls[c].phase == Checking
    ensures Enabled(s, Check(c)) && WentOn(s, c, Apply(s, Check(c)))
  {
  }

  lemma InstallerGoesOn(s: State, c: nat)
    requires Serving(s, c) && s.calls[c].phase == Answered && s.calls[c].kind.Subscribe? && NoError(s.calls[c])
    ensures Enabled(s, Install(c)) && WentOn(s, c, Apply(s, Install(c)))
  {
  }

  lemma StopperGoesOn(s: State, c: nat)
    requires Serving(s, c) && s.calls[c].phase == Answered && s.calls[c].kind.Stop? && NoError(s.calls[c])
    ensures Enabled(s, Cancel(c)) && WentOn(s, c, Apply(s, Cancel(c)))
  {
  }

  lemma FinisherGoesOn(s: State, c: nat)
    requires Serving(s, c) && NextOf(s, c) == Finish(c)
    ensures Enabled(s, Finish(c)) && WentOn(s, c, Apply(s, Finish(c)))
  {
  }

  lemma CloserGoesOn(s: State, c: nat)
    requires Serving(s, c) && s.calls[c].phase.Closing?
    ensures Enabled(s, Return(c)) && WentOn(s, c, Apply(s, Return(c)))
  {
  }

  lemma RemoverGoesOn(s: State, c: nat)
    requires Serving(s, c) && s.calls[c].phase == GaveUp
    ensures Enabled(s, Remove(c)) && WentOn(s, c, Apply(s, Remove(c)))
  {
  }

  lemma NextState(es: seq<Event>, s: State, c: nat) returns (t: State)
    requires Exec(es) == Some(s) && Serving(s, c) && !s.calls[c].phase.Returned? && !Blocked(s, c)
    ensures Exec(es + [NextOf(s, c)]) == Some(t) && WentOn(s, c, t)
  {
    CallGoesOn(s, c);
    t := Apply(s, NextOf(s, c));
    Extend(es, NextOf(s, c), s);
  }

  lemma {:induction false} CallReturns(es: seq<Event>, s: State, c: nat) returns (more: seq<Event>, t: State)
    requires Exec(es) == Some(s) && Serving(s, c) && !Blocked(s, c)
    ensures Exec(es + more) == Some(t) && Serving(t, c) && t.calls[c].phase.Returned?
    decreases StepsLeft(s.calls[c].phase)
  {
    if s.calls[c].phase.Returned? {
      more, t := [], s;
      assert es + more == es;
    } else {
      var e := NextOf(s, c);
      var u := NextState(es, s, c);
      more, t := CallReturns(es + [e], u, c);
      Assoc(es, [e], more);
      more := [e] + more;
    }
  }

  /** And the window is open to it: from any state in which the I/O thread serves a reply, unless the call
      waits on the very mutex that `produce` holds, the call alone can time out, or be answered early, and
      return, and the I/O thread's next access then uses its destroyed channel. */
  lemma ServedCallCanFault(es: seq<Event>, s: State, c: nat) returns (more: seq<Event>)
    requires Exec(es) == Some(s) && Serving(s, c) && !Blocked(s, c)
    ensures Exec(es + more).Some? && Exec(es + more).value.fault
  {
    var first, t := CallReturns(es, s, c);
    DeadCallFaults(t, c);
    Extend(es + first, Access(t.io), t);
    Assoc(es, first, [Access(t.io)]);
    more := first + [Access(t.io)];
  }

  lemma DeadCallFaults(s: State, c: nat)
    requires Serving(s, c) && s.calls[c].phase.Returned?
    ensures Enabled(s, Access(s.io)) && Apply(s, Access(s.io)).fault
  {
  }

  /** In the one case left nothing can go wrong: a call that waits while `produce` holds its mutex stays
      there, whatever the other threads do, until `produce` is over. */
  lemma WaiterIsSafe(s: State, e: Event, c: nat)
    requires Reachable(s) && Enabled(s, e) && Blocked(s, c)
    ensures !Apply(s, e).fault && (e.EndProduce? || Blocked(Apply(s, e), c))
  {
    ReachableIsSound(s);
    StepIsStepped(s, e);
    WaiterStays(s, e, c, Apply(s, e));
  }

  lemma WaiterStays(s: State, e: Event, c: nat, t: State)
    requires Stepped(s, e, t) && Blocked(s, c) && !s.fault && e != EndWait(c)
    ensures !t.fault && (e.EndProduce? || Blocked(t, c))
  {
  }

  /** The window is really entered: the very first exchange of a connection gets there. */
  lemma WindowIsReachable()
    ensures var es := [Send(Plain, false, true)] + [Reply(0, "", None)] + [Lookup];
            && Exec(es).Some? && !Exec(es).value.fault
            && var s := Exec(es).value;
               && |s.calls| == 1 && s.io.Busy? && s.io.stage == Found && s.io.ref == Req(0)
               && s.calls[0].phase == Waiting && !s.calls[0].pending
  {
    var e := Send(Plain, false, true);
    var s1 := AfterSend(Init(), e);
    Extend([], e, Init());
    assert [] + [e] == [e];
    var s2 := Apply(s1, Reply(0, "", None));
    Extend([e], Reply(0, "", None), s1);
    HeaderRoundTrip(s2.log[0].hdr);
    Extend([e] + [Reply(0, "", None)], Lookup, s2);
  }

  // ---------- listener traces ----------

  lemma {:induction false} PositionsExact(log: seq<Message>, q: nat, lo: nat, hi: nat)
    requires hi <= |log|
    ensures Exact(log, q, lo, hi, Positions(log, q, lo, hi))
    decreases hi
  {
    if lo < hi {
      PositionsExact(log, q, lo, hi - 1);
      OnePositionMore(log, q, lo, hi, Positions(log, q, lo, hi - 1));
    }
  }

  /** Exactly the positions of the messages with number `q` in that range, in order. */
  ghost predicate Exact(log: seq<Message>, q: nat, lo: nat, hi: nat, p: seq<nat>)
    requires hi <= |log|
  {
    && (forall k :: k in p <==> lo <= k < hi && log[k].hdr.Seq == q)
    && (forall a, b :: 0 <= a < b < |p| ==> p[a] < p[b])
  }

  lemma OnePositionMore(log: seq<Message>, q: nat, lo: nat, hi: nat, p: seq<nat>)
    requires lo < hi <= |log| && Exact(log, q, lo, hi - 1, p)
    ensures Exact(log, q, lo, hi, p + if log[hi - 1].hdr.Seq == q then [hi - 1] else [])
  {
    var more := p + if log[hi - 1].hdr.Seq == q then [hi - 1] else [];
    assert forall k :: k in more <==> k in p || (k == hi - 1 && log[hi - 1].hdr.Seq == q);
    assert forall a :: 0 <= a < |p| ==> p[a] in p;
  }

  /** What a listener's channel has been given, with the message just looked up for it, is exactly
      the records the agent sent on its number between installation and removal: all of them, once
      each, in order, and nothing else. */
  lemma ListenerTrace(s: State, i: nat)
    requires Reachable(s) && i < |s.subs| && s.subs[i].epoch == s.epoch
    ensures var b := s.subs[i]; var p := Indices(b.got) + InWindow(s, i);
            && s.read <= |s.log| && b.start <= Until(s, i) <= s.read
            && (forall k :: k in p <==> b.start <= k < Until(s, i) && s.log[k].hdr.Seq == b.num)
            && (forall x, y :: 0 <= x < y < |p| ==> p[x] < p[y])
            && (forall k :: k in p ==> 0 <= k < |s.log| && !s.log[k].reply && s.log[k].body.Some?)
  {
    ReachableIsSound(s);
    TraceIsExact(s, i);
  }

  lemma TraceIsExact(s: State, i: nat)
    requires LogOk(s) && SubsOk(s) && CallsOk(s) && TracesOk(s) && i < |s.subs| && s.subs[i].epoch == s.epoch
    ensures var b := s.subs[i]; var p := Indices(b.got) + InWindow(s, i);
            && b.start <= Until(s, i) <= s.read
            && (forall k :: k in p <==> b.start <= k < Until(s, i) && s.log[k].hdr.Seq == b.num)
            && (forall x, y :: 0 <= x < y < |p| ==> p[x] < p[y])
            && (forall k :: k in p ==> 0 <= k < |s.log| && !s.log[k].reply && s.log[k].body.Some?)
  {
    var b := s.subs[i];
    assert TraceOk(s, i) && SubShape(s, i) && CallOk(s, b.caller);
    PositionsExact(s.log, b.num, b.start, Until(s, i));
    var h := s.calls[b.caller].heard.value;
    assert MessageOk(s, h);
    forall k | b.start <= k < Until(s, i) && s.log[k].hdr.Seq == b.num
      ensures !s.log[k].reply && s.log[k].body.Some?
    { assert MessageOk(s, k); }
  }

  // ---------- query traces ----------

  /** The callbacks a channel has made, in order. */
  ghost function Callbacks(s: State, kind: ListenerKind, got: seq<Receipt>): seq<Callback>
    requires forall j :: 0 <= j < |got| ==> got[j].msg < |s.log|
  {
    if got == [] then []
    else
      Callbacks(s, kind, got[..|got| - 1]) +
      match CallbackOf(s, kind, got[|got| - 1]) case Some(c) => [c] case None => []
  }

  /** `(ack | response)* complete?` */
  ghost predicate QueryWord(cs: seq<Callback>) {
    forall j :: 0 <= j < |cs| ==> cs[j].OnAck? || cs[j].OnResponse? || (cs[j].OnComplete? && j == |cs| - 1)
  }

  /** Every query's callbacks form such a word, and once it has completed and the callback is over
      its channel is deleted and its number has no entry. */
  lemma QueryTraceGrammar(s: State, i: nat)
    requires Reachable(s) && i < |s.subs| && s.subs[i].epoch == s.epoch && s.subs[i].kind == QUERY
    ensures forall j :: 0 <= j < |s.subs[i].got| ==> s.subs[i].got[j].msg < |s.log|
    ensures var cs := Callbacks(s, QUERY, s.subs[i].got);
            && QueryWord(cs)
            && (OnComplete in cs && !(InCallback(s) && s.io.ref == Chan(i)) ==>
                  s.subs[i].deletes == 1 && !Registered(s, s.subs[i].num, Chan(i)))
  {
    ReachableIsSound(s);
    CompletionEndsTrace(s, i);
  }

  lemma CompletionEndsTrace(s: State, i: nat)
    requires LogOk(s) && RegistryOk(s) && TracesOk(s) && CompletionsOk(s)
    requires i < |s.subs| && s.subs[i].epoch == s.epoch && s.subs[i].kind == QUERY
    ensures forall j :: 0 <= j < |s.subs[i].got| ==> s.subs[i].got[j].msg < |s.log|
    ensures var cs := Callbacks(s, QUERY, s.subs[i].got);
            && QueryWord(cs)
            && (OnComplete in cs && !(InCallback(s) && s.io.ref == Chan(i)) ==>
                  s.subs[i].deletes == 1 && !Registered(s, s.subs[i].num, Chan(i)))
  {
    var got := s.subs[i].got;
    assert TraceOk(s, i) && CompletionOk(s, i);
    if got != [] {
      forall j | 0 <= j < |got| - 1 ensures CallbackOf(s, QUERY, got[j]) != Some(OnComplete) {
        assert !Completes(s, i, j);
      }
      NoCompletionInside(s, got[..|got| - 1]);
      assert Completes(s, i, |got| - 1) <==> CallbackOf(s, QUERY, got[|got| - 1]) == Some(OnComplete);
    }
    if s.subs[i].num in s.registry { assert EntryOk(s, s.subs[i].num); }
  }

  lemma {:induction false} NoCompletionInside(s: State, got: seq<Receipt>)
    requires forall j :: 0 <= j < |got| ==> got[j].msg < |s.log| && CallbackOf(s, QUERY, got[j]) != Some(OnComplete)
    ensures var cs := Callbacks(s, QUERY, got);
            OnComplete !in cs && forall j :: 0 <= j < |cs| ==> cs[j].OnAck? || cs[j].OnResponse?
  {
    if got != [] { NoCompletionInside(s, got[..|got| - 1]); }
  }

  // ---------- the heap ----------

  /** No subscription channel is deleted twice, a deleted one has no entry, and an entry is found
      only under the channel's own number; on the present connection each is mapped exactly once
      or deleted exactly once. */
  lemma HeapConservation(s: State, i: nat)
    requires Reachable(s) && i < |s.subs|
    ensures s.subs[i].deletes <= 1
    ensures forall q :: Registered(s, q, Chan(i)) ==> q == s.subs[i].num && s.subs[i].deletes == 0
    ensures s.subs[i].epoch == s.epoch ==> (Registered(s, s.subs[i].num, Chan(i)) <==> s.subs[i].deletes == 0)
  {
    ReachableIsSound(s);
    assert SubShape(s, i);
    forall q | Registered(s, q, Chan(i)) ensures q == s.subs[i].num && s.subs[i].deletes == 0 { assert EntryOk(s, q); }
  }

  // ---------- reconnection ----------

  /** Once its connection has closed, a subscription channel is never handed a record and never
      deleted, whatever the later connections do. */
  lemma {:induction false} ReconnectIsolation(es: seq<Event>, n: nat, m: nat, s: State, t: State, i: nat)
    requires n <= m && At(es, n, s) && At(es, m, t)
    requires i < |s.subs| && s.subs[i].epoch < s.epoch
    ensures i < |t.subs| && t.subs[i] == s.subs[i] && s.epoch <= t.epoch
    decreases m
  {
    if n < m {
      var u := StaleBefore(es, m, t);
      ReconnectIsolation(es, n, m - 1, s, u, i);
    }
  }

  /** The last event changed no channel of an earlier connection. */
  lemma StaleBefore(es: seq<Event>, n: nat, t: State) returns (s: State)
    requires 0 < n && At(es, n, t)
    ensures At(es, n - 1, s) && s.epoch <= t.epoch && |s.subs| <= |t.subs|
    ensures forall i :: 0 <= i < |s.subs| && s.subs[i].epoch < s.epoch ==> t.subs[i] == s.subs[i]
  {
    s := Before(es, n, t);
    StaleStep(s, es[n - 1], t);
  }

  lemma StaleStep(s: State, e: Event, t: State)
    requires IoOk(s) && RegistryOk(s) && Stepped(s, e, t)
    ensures s.epoch <= t.epoch && |s.subs| <= |t.subs|
    ensures forall i :: 0 <= i < |s.subs| && s.subs[i].epoch < s.epoch ==> t.subs[i] == s.subs[i]
  {
  }

  /** No channel of an earlier connection is even looked up. */
  lemma StaleIsNeverFound(s: State, i: nat)
    requires Reachable(s) && s.io.Busy? && s.io.ref == Chan(i)
    ensures i < |s.subs| && s.subs[i].epoch == s.epoch
  {
    ReachableIsSound(s);
  }

  // ---------- calls from callbacks, and late replies ----------

  /** A call made inside a listener callback is never answered, never told SUCCESS, and never stuck:
      its next step is always possible. FAILURE means exactly that the send failed. */
  lemma CallsFromCallbacks(s: State, c: nat)
    requires Reachable(s) && c < |s.calls| && s.calls[c].nested
    ensures !s.calls[c].pending && s.calls[c].heard.None? && s.calls[c].phase != Answered
    ensures s.calls[c].phase.Closing? || s.calls[c].phase.Returned? ==>
              s.calls[c].phase.r == (if s.calls[c].sent then TIMEOUT else FAILURE)
    ensures !s.calls[c].phase.Returned? && !s.fault ==> InCallback(s) && Enabled(s, NextOf(s, c))
  {
    ReachableIsSound(s);
    assert CallOk(s, c);
  }

  /** After a call has timed out its number has no entry for the rest of the connection, so its late
      reply, and every record after it, is skipped. */
  lemma LateRepliesAreSkipped(s: State, c: nat)
    requires Reachable(s) && c < |s.calls| && s.calls[c].epoch == s.epoch
    requires s.calls[c].phase == Closing(TIMEOUT) || s.calls[c].phase == Returned(TIMEOUT)
    ensures s.calls[c].num !in s.registry
  {
    ReachableIsSound(s);
    assert CallOk(s, c);
    TimedOutHasNoEntry(s, c);
  }

  lemma TimedOutHasNoEntry(s: State, c: nat)
    requires CallsOk(s) && RegistryOk(s) && SubsOk(s)
    requires c < |s.calls| && s.calls[c].epoch == s.epoch && s.calls[c].sent
    requires s.calls[c].phase == Closing(TIMEOUT) || s.calls[c].phase == Returned(TIMEOUT)
    ensures s.calls[c].num !in s.registry
  {
    assert CallOk(s, c);
    if s.calls[c].num in s.registry { EntryFacts(s, s.calls[c].num); }
  }

  // ---------- sequence numbers ----------

  ghost predicate NumbersGrow(s: State) {
    && (forall c :: 0 <= c < |s.calls| && s.calls[c].epoch == s.epoch ==> s.calls[c].num < s.counter)
    && (forall c, d :: 0 <= c < d < |s.calls| && s.calls[c].epoch == s.calls[d].epoch ==>
          s.calls[c].num < s.calls[d].num)
  }

  /** On one connection the numbers of the calls, in the order of their sends and over all threads,
      are strictly increasing and below the counter. */
  lemma {:induction false} SequenceDiscipline(es: seq<Event>, n: nat, s: State)
    requires At(es, n, s)
    ensures NumbersGrow(s)
  {
    if n == 0 { AtStart(es, s); } else {
      var u := NumbersBefore(es, n, s);
      SequenceDiscipline(es, n - 1, u);
    }
  }

  lemma NumbersBefore(es: seq<Event>, n: nat, t: State) returns (s: State)
    requires 0 < n && At(es, n, t)
    ensures At(es, n - 1, s) && (NumbersGrow(s) ==> NumbersGrow(t))
  {
    s := Before(es, n, t);
    if NumbersGrow(s) { NumbersStep(s, es[n - 1], t); }
  }

  ghost predicate SameNumbers(s: State, t: State) {
    && |t.calls| == |s.calls|
    && forall i :: 0 <= i < |s.calls| ==> t.calls[i].num == s.calls[i].num && t.calls[i].epoch == s.calls[i].epoch
  }

  lemma NumbersStep(s: State, e: Event, t: State)
    requires NumbersGrow(s) && CallsOk(s) && Stepped(s, e, t)
    ensures NumbersGrow(t)
  {
    forall i | 0 <= i < |s.calls| ensures s.calls[i].epoch <= s.epoch { assert CallOk(s, i); }
    if e.Send? { SendNumbers(s, e, t); } else { OthersKeepNumbers(s, e, t); }
  }

  lemma SendNumbers(s: State, e: Event, t: State)
    requires NumbersGrow(s) && CallsOk(s) && Sent(s, e, t)
    ensures NumbersGrow(t)
  {
    assert t.calls[|s.calls|].num == s.counter && t.calls[|s.calls|].epoch == s.epoch;
  }

  lemma OthersKeepNumbers(s: State, e: Event, t: State)
    requires Stepped(s, e, t) && !e.Send?
    ensures SameNumbers(s, t) && (e.Close? || (t.epoch == s.epoch && t.counter == s.counter))
  {
  }

  /** A failed send burns its number and leaves the map as it was. A successful one registers a number that
      no request of the connection has: it overwrites no waiting call, and no listener but one whose
      connection has closed. */
  lemma FailedSendOnlyBurns(s: State, e: Event)
    requires Reachable(s) && Enabled(s, e) && e.Send?
    ensures var t := AfterSend(s, e);
            && t.counter == s.counter + 1
            && (if e.ok then t.registry == s.registry[s.counter := Req(|s.calls|)] && s.counter !in s.owner
                else t.registry == s.registry && t.owner == s.owner)
    ensures s.counter in s.registry ==> Stale(s, s.counter)
  {
    ReachableIsSound(s);
    NextIsUnused(s);
  }

  lemma NextIsUnused(s: State)
    requires OwnerOk(s) && RegistryOk(s) && SubsOk(s) && CallsOk(s)
    ensures s.counter !in s.owner && (s.counter in s.registry ==> Stale(s, s.counter))
  {
    var q := s.counter;
    if q in s.registry {
      EntryFacts(s, q);
      if s.registry[q].Chan? { ListenerOwned(s, q); }
    }
  }
}
