/** The I/O thread between the lookup of a record and the end of its `produce` on the listener's channel:
    exactly when that channel can be pulled from under it. */
module ProtocolWindows {
  import opened Options
  import opened Messages
  import opened Sequences
  import opened Protocol
  import opened ProtocolInvariant
  import opened ProtocolPreservation
  import opened ProtocolTheorems

  /** The I/O thread serves a record to a listener. */
  ghost predicate ServesListener(s: State) { s.io.Busy? && s.io.ref.Chan? && !s.fault }

  /** A Stop of the number being served, answered without error, that has not removed it yet; whether it has
      looked at its answer makes no difference. */
  ghost predicate Stopper(s: State, c: nat) {
    && s.io.Busy? && c < |s.calls| && s.calls[c].kind == Stop(s.io.num) && s.calls[c].epoch == s.epoch
    && s.calls[c].pending && NoError(s.calls[c])
    && (s.calls[c].phase == Waiting || s.calls[c].phase == Checking || s.calls[c].phase == Answered)
  }

  /** The channel is removed already, or a call is about to. */
  ghost predicate Threatened(s: State) {
    s.io.Busy? && (s.io.cut || exists c :: Stopper(s, c))
  }

  /** And `produce`, which will use it, is still to come. */
  ghost predicate Doomed(s: State) {
    ServesListener(s) && s.io.stage == Found && Threatened(s)
  }

  // ---------- a query is never pulled ----------

  /** The I/O thread serves a record to a query. */
  ghost predicate ServesQuery(s: State) {
    ServesListener(s) && s.io.ref.sub < |s.subs| && s.subs[s.io.ref.sub].kind == QUERY
  }

  lemma OneKindEach(s: State, i: nat, j: nat)
    requires CallsOk(s) && SubsOk(s) && i < |s.subs| && j < |s.subs| && s.subs[i].num == s.subs[j].num
    requires s.subs[i].epoch == s.epoch && s.subs[j].epoch == s.epoch
    ensures s.subs[i].kind == s.subs[j].kind
  {
    assert SubShape(s, i) && SubShape(s, j);
    assert CallOk(s, s.subs[i].caller) && CallOk(s, s.subs[j].caller);
  }

  /** A query is no subscription that the client can stop. */
  lemma QueryHasNoStopper(s: State, c: nat)
    requires CallsOk(s) && SubsOk(s) && StopsOk(s) && IoOk(s) && ServesQuery(s)
    ensures !Stopper(s, c)
  {
    forall i | 0 <= i < |s.subs| && s.subs[i].num == s.io.num && s.subs[i].epoch == s.epoch
      ensures s.subs[i].kind == QUERY
    {
      OneKindEach(s, i, s.io.ref.sub);
    }
  }

  lemma {:induction false} QueryIsUncut(es: seq<Event>, n: nat, s: State)
    requires At(es, n, s) && ServesQuery(s)
    ensures !s.io.cut
    decreases n
  {
    if n == 0 { AtStart(es, s); }
    var u := Before(es, n, s);
    if ServesQuery(u) {
      QueryIsUncut(es, n - 1, u);
      QueryStaysUncut(u, es[n - 1], s);
    } else { QueryStartsUncut(u, es[n - 1], s); }
  }

  lemma QueryStartsUncut(s: State, e: Event, t: State)
    requires IoOk(s) && Stepped(s, e, t) && !s.fault && ServesQuery(t) && !ServesQuery(s)
    ensures !t.io.cut
  {
  }

  lemma QueryStaysUncut(s: State, e: Event, t: State)
    requires Inv(s) && Stepped(s, e, t) && ServesQuery(s) && ServesQuery(t) && !s.io.cut
    ensures !t.io.cut
  {
    forall c ensures !Stopper(s, c) { QueryHasNoStopper(s, c); }
    WindowHolds(s, e, t);
    if t.io.cut { NoCutArises(s, e, t); }
  }

  /** No query's channel is ever pulled from under the I/O thread, and no step of any thread uses one that is
      gone while it is served: its own removal on completion is safe. */
  lemma QueryIsNeverPulled(s: State, e: Event)
    requires Reachable(s) && ServesQuery(s)
    ensures !Threatened(s)
    ensures Enabled(s, e) ==> !Apply(s, e).fault
  {
    var es :| Exec(es) == Some(s);
    assert es[..|es|] == es;
    RunKeeps(es);
    QueryIsUncut(es, |es|, s);
    forall c ensures !Stopper(s, c) { QueryHasNoStopper(s, c); }
    if Enabled(s, e) { FaultsExactlyWhen(s, e); }
  }

  // ---------- a query that is never completed ----------

  /** This record told the query's listener of its completion. */
  ghost predicate Ends(s: State, r: Receipt) {
    r.msg < |s.log| && CallbackOf(s, QUERY, r) == Some(OnComplete)
  }

  /** A query that is deleted has been told of its completion last. */
  ghost predicate EndedIfDeleted(s: State, i: nat)
    requires i < |s.subs|
  {
    var got := s.subs[i].got;
    s.subs[i].epoch == s.epoch && s.subs[i].kind == QUERY && s.subs[i].deletes > 0 ==>
      got != [] && Ends(s, got[|got| - 1])
  }

  lemma {:induction false} AllEnded(es: seq<Event>, n: nat, s: State)
    requires At(es, n, s)
    ensures forall i :: 0 <= i < |s.subs| ==> EndedIfDeleted(s, i)
    decreases n
  {
    if n == 0 { AtStart(es, s); } else {
      var u := Before(es, n, s);
      AllEnded(es, n - 1, u);
      forall i | 0 <= i < |s.subs| ensures EndedIfDeleted(s, i) { StaysEnded(u, es[n - 1], s, i); }
    }
  }

  lemma StaysEnded(s: State, e: Event, t: State, i: nat)
    requires Inv(s) && !s.fault && Stepped(s, e, t) && i < |t.subs| && (i < |s.subs| ==> EndedIfDeleted(s, i))
    ensures EndedIfDeleted(t, i)
  {
    if e.Cancel? { StopEnds(s, e.call, t, i); }
    else if e.Close? { ClosedEnds(s, t, i); }
    else if e.Produce? || e.EndProduce? { ServiceEnds(s, e, t, i); }
    else { OthersEnd(s, e, t, i); }
  }

  /** A Stop does not delete a query. */
  lemma StopEnds(s: State, c: nat, t: State, i: nat)
    requires Inv(s) && Stepped(s, Cancel(c), t) && i < |t.subs| && (i < |s.subs| ==> EndedIfDeleted(s, i))
    ensures EndedIfDeleted(t, i)
  {
    hide CallbackFor, LogOk, OwnerOk, AgentOk, IoOk, TracesOk, CompletionsOk, RepliesOk;
    if s.subs[i].kind == QUERY && s.subs[i].epoch == s.epoch { StopSparesQuery(s, c, i); }
  }

  lemma StopSparesQuery(s: State, c: nat, i: nat)
    requires CallsOk(s) && SubsOk(s) && StopsOk(s)
    requires c < |s.calls| && s.calls[c].kind.Stop? && s.calls[c].phase == Answered
    requires i < |s.subs| && s.subs[i].kind == QUERY && s.subs[i].epoch == s.epoch
    ensures s.subs[i].num != s.calls[c].kind.target
  {
    assert CallOk(s, c);
    forall j | 0 <= j < |s.subs| && s.subs[j].num == s.subs[i].num && s.subs[j].epoch == s.epoch
      ensures s.subs[j].kind == QUERY
    {
      OneKindEach(s, i, j);
    }
  }

  lemma ClosedEnds(s: State, t: State, i: nat)
    requires Inv(s) && Stepped(s, Close, t) && i < |t.subs|
    ensures EndedIfDeleted(t, i)
  {
    assert SubShape(s, i);
  }

  lemma ServiceEnds(s: State, e: Event, t: State, i: nat)
    requires IoOk(s) && !s.fault && Stepped(s, e, t) && (e.Produce? || e.EndProduce?) && i < |t.subs|
    requires i < |s.subs| ==> EndedIfDeleted(s, i)
    ensures EndedIfDeleted(t, i)
  {
    hide EndedIfDeleted, Produced, Delivered, Ended, AtEnd, IoReq, IoChan;
    if t == s.(fault := true) { SameSubs(s, t, i); }
    else if e.EndProduce? { CallbackEnds(s, t, i); }
    else if s.io.ref.Chan? { DeliveryEnds(s, s.io.ref.sub, e.arrived, t, i); }
    else { AnswerEnds(s, s.io.ref.call, e.arrived, t, i); }
  }

  lemma SameSubs(s: State, t: State, i: nat)
    requires t.subs == s.subs && t.log == s.log && t.epoch == s.epoch && i < |s.subs| && EndedIfDeleted(s, i)
    ensures EndedIfDeleted(t, i)
  {
    hide CallbackFor;
  }

  lemma AnswerEnds(s: State, c: nat, arrived: bool, t: State, i: nat)
    requires Produced(s, c, arrived, t) && i < |t.subs| && (i < |s.subs| ==> EndedIfDeleted(s, i))
    ensures EndedIfDeleted(t, i)
  {
    hide EndedIfDeleted;
    SameSubs(s, t, i);
  }

  lemma DeliveryEnds(s: State, k: nat, arrived: bool, t: State, i: nat)
    requires Delivered(s, k, arrived, t) && i < |t.subs| && (i < |s.subs| ==> EndedIfDeleted(s, i))
    ensures EndedIfDeleted(t, i)
  {
    hide CallbackFor;
  }

  lemma CallbackEnds(s: State, t: State, i: nat)
    requires AtEnd(s) && Ended(s, t) && i < |t.subs| && (i < |s.subs| ==> EndedIfDeleted(s, i))
    ensures EndedIfDeleted(t, i)
  {
    hide CallbackFor;
  }

  lemma OthersEnd(s: State, e: Event, t: State, i: nat)
    requires Stepped(s, e, t) && !e.Cancel? && !e.Close? && !e.Produce? && !e.EndProduce? && i < |t.subs|
    requires i < |s.subs| ==> EndedIfDeleted(s, i)
    ensures EndedIfDeleted(t, i)
  {
  }

  /** A query of the present connection keeps its entry exactly as long as no record of its completion has been handed
      to it whole: one whose body came a batch later does not count, and leaves the query registered for good. */
  lemma QueryStaysExactlyWhen(s: State, i: nat)
    requires Reachable(s) && i < |s.subs| && s.subs[i].epoch == s.epoch && s.subs[i].kind == QUERY
    requires !(InCallback(s) && s.io.ref == Chan(i))
    ensures Registered(s, s.subs[i].num, Chan(i)) <==>
              forall j :: 0 <= j < |s.subs[i].got| ==>
                var r := s.subs[i].got[j];
                !(r.arrived && r.msg < |s.log| && CallbackFor(QUERY, s.log[r.msg].body) == Some(OnComplete))
  {
    var es :| Exec(es) == Some(s);
    assert es[..|es|] == es;
    AllEnded(es, |es|, s);
    HeapConservation(s, i);
    QueryTraceGrammar(s, i);
    assert EndedIfDeleted(s, i);
    forall j | 0 <= j < |s.subs[i].got| && Ends(s, s.subs[i].got[j]) ensures s.subs[i].deletes == 1 {
      TellsOfCompletion(s, s.subs[i].got, j);
    }
  }

  lemma {:induction false} TellsOfCompletion(s: State, got: seq<Receipt>, j: nat)
    requires j < |got| && (forall k :: 0 <= k < |got| ==> got[k].msg < |s.log|) && Ends(s, got[j])
    ensures OnComplete in Callbacks(s, QUERY, got)
  {
    var n := |got| - 1;
    var last := match CallbackOf(s, QUERY, got[n]) case Some(c) => [c] case None => [];
    assert Callbacks(s, QUERY, got) == Callbacks(s, QUERY, got[..n]) + last;
    if j < n { TellsOfCompletion(s, got[..n], j); } else { assert last[0] == OnComplete; }
  }

  // ---------- otherwise the window is safe ----------

  /** While a listener is served and the window is not doomed, no step of any thread uses a channel that is
      gone, and the window stays so until it is over. */
  lemma ListenerIsSafe(s: State, e: Event)
    requires Reachable(s) && Enabled(s, e) && ServesListener(s) && !Doomed(s)
    ensures var t := Apply(s, e); !t.fault && (t.io.Idle? || (SameWindow(s, t) && !Doomed(t)))
  {
    ReachableIsSound(s);
    StepIsStepped(s, e);
    FaultsExactlyWhen(s, e);
    if Completing(s) { QueryIsNeverPulled(s, e); }
    SafeStep(s, e, Apply(s, e));
  }

  /** The I/O thread is at the same record, and has not gone back. */
  ghost predicate SameWindow(s: State, t: State) {
    && s.io.Busy? && ServesListener(t)
    && t.io.ref == s.io.ref && t.io.msg == s.io.msg && t.io.num == s.io.num
    && (s.io.stage == Producing ==> t.io.stage == Producing)
  }

  lemma SafeStep(s: State, e: Event, t: State)
    requires Inv(s) && Stepped(s, e, t) && ServesListener(s) && !Doomed(s) && !t.fault
    ensures t.io.Idle? || (SameWindow(s, t) && !Doomed(t))
  {
    WindowHolds(s, e, t);
    if t.io.Busy? && !Threatened(s) { NoThreatArises(s, e, t); }
  }

  lemma WindowHolds(s: State, e: Event, t: State)
    requires Stepped(s, e, t) && ServesListener(s) && !t.fault
    ensures t.io.Idle? || SameWindow(s, t)
  {
  }

  /** Nobody is answered while the I/O thread is busy with a listener. */
  lemma NoThreatArises(s: State, e: Event, t: State)
    requires Inv(s) && Stepped(s, e, t) && ServesListener(s) && t.io.Busy? && SameWindow(s, t) && !Threatened(s)
    ensures !Threatened(t)
  {
    if t.io.cut { NoCutArises(s, e, t); }
    forall c | Stopper(t, c) ensures false {
      NoStopperArises(s, e, t, c);
    }
  }

  lemma NoCutArises(s: State, e: Event, t: State)
    requires IoOk(s) && CallsOk(s) && Stepped(s, e, t) && ServesListener(s) && SameWindow(s, t) && !s.io.cut && t.io.cut
    ensures exists c :: Stopper(s, c)
  {
    if e.Cancel? { assert CallOk(s, e.call) && Stopper(s, e.call); }
  }

  lemma NoStopperArises(s: State, e: Event, t: State, c: nat)
    requires Stepped(s, e, t) && ServesListener(s) && SameWindow(s, t) && Stopper(t, c)
    ensures Stopper(s, c)
  {
  }

  // ---------- a doomed window can end in a fault ----------

  /** From a doomed window the Stop can, by its own steps, have the I/O thread use the deleted channel. */
  lemma DoomedCanFault(es: seq<Event>, s: State) returns (more: seq<Event>)
    requires Exec(es) == Some(s) && Doomed(s)
    ensures Exec(es + more).Some? && Exec(es + more).value.fault
  {
    var t;
    more, t := ThreatIsCarriedOut(es, s);
    CutListenerFaults(es + more, t);
    Assoc(es, more, [Access(t.io)]);
    more := more + [Access(t.io)];
  }

  /** In particular one that has its answer, read or not. */
  lemma StopInWindowFaults(es: seq<Event>, s: State, c: nat) returns (more: seq<Event>)
    requires Exec(es) == Some(s) && ServesListener(s) && s.io.stage == Found && Stopper(s, c)
    ensures Exec(es + more).Some? && Exec(es + more).value.fault
  {
    more := DoomedCanFault(es, s);
  }

  lemma CutListenerFaults(es: seq<Event>, s: State)
    requires Exec(es) == Some(s) && ServesListener(s) && s.io.cut && s.io.stage == Found
    ensures Exec(es + [Access(s.io)]).Some? && Exec(es + [Access(s.io)]).value.fault
  {
    RunKeeps(es);
    assert Reachable(s);
    AccessIsEnabled(s);
    FaultsExactlyWhen(s, Access(s.io));
    Extend(es, Access(s.io), s);
  }

  lemma AccessIsEnabled(s: State)
    requires IoOk(s) && ServesListener(s) && s.io.stage == Found
    ensures Enabled(s, Access(s.io)) && Touches(s, Access(s.io))
  {
  }

  /** The channel has been removed under the I/O thread. */
  ghost predicate Cut(s: State, t: State) { SameWindow(s, t) && t.io.stage == s.io.stage && t.io.cut }

  lemma ThreatIsCarriedOut(es: seq<Event>, s: State) returns (more: seq<Event>, t: State)
    requires Exec(es) == Some(s) && ServesListener(s) && Threatened(s)
    ensures Exec(es + more) == Some(t) && Cut(s, t)
  {
    if s.io.cut {
      more, t := [], s;
      assert es + more == es;
    } else {
      var c: nat :| Stopper(s, c);
      more, t := StopIsCarriedOut(es, s, c);
    }
  }

  /** The Stop reads its answer if it has not, and removes the channel. */
  lemma StopIsCarriedOut(es: seq<Event>, s: State, c: nat) returns (more: seq<Event>, t: State)
    requires Exec(es) == Some(s) && ServesListener(s) && Stopper(s, c)
    ensures Exec(es + more) == Some(t) && Cut(s, t)
  {
    var u := SetPhase(s, c, Answered);
    StopperAnswered(s, c);
    more := StopIsRead(es, s, c);
    StopCuts(u, c);
    t := Apply(u, Cancel(c));
    Extend(es + more, Cancel(c), u);
    Assoc(es, more, [Cancel(c)]);
    more := more + [Cancel(c)];
  }

  lemma StopIsRead(es: seq<Event>, s: State, c: nat) returns (more: seq<Event>)
    requires Exec(es) == Some(s) && ServesListener(s) && Stopper(s, c)
    ensures Exec(es + more) == Some(SetPhase(s, c, Answered))
  {
    if s.calls[c].phase == Answered {
      more := [];
      assert es + more == es && SetPhase(s, c, Answered) == s;
    } else {
      more := AnswerIsRead(es, s, c);
    }
  }

  lemma StopperAnswered(s: State, c: nat)
    requires ServesListener(s) && Stopper(s, c)
    ensures var u := SetPhase(s, c, Answered);
            && ServesListener(u) && Stopper(u, c) && u.calls[c].phase == Answered
            && (forall t :: Cut(u, t) ==> Cut(s, t))
  {
  }

  lemma StopCuts(s: State, c: nat)
    requires ServesListener(s) && Stopper(s, c) && s.calls[c].phase == Answered
    ensures Enabled(s, Cancel(c)) && Cut(s, Apply(s, Cancel(c)))
  {
  }
}
