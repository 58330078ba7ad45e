/** Every event of the step machine keeps the invariant. */
module ProtocolPreservation {
  import opened Options
  import opened Messages
  import opened Protocol
  import opened ProtocolInvariant

  // ---------- frames: what each part of the invariant does not depend on ----------

  ghost predicate Succeeded(c: Call) { c.phase == Closing(SUCCESS) || c.phase == Returned(SUCCESS) }

  /** Calls keep who they are and only advance. */
  ghost predicate Advances(c: Call, d: Call) {
    && d.kind == c.kind && d.nested == c.nested && d.epoch == c.epoch && d.num == c.num && d.sent == c.sent
    && (c.phase.Returned? ==> d.phase.Returned?)
    && (c.heard.Some? ==> d.heard == c.heard)
    && (Succeeded(c) ==> Succeeded(d))
  }

  ghost predicate SameCalls(s: State, t: State) {
    && |s.calls| <= |t.calls|
    && forall i :: 0 <= i < |s.calls| ==> Advances(s.calls[i], t.calls[i])
  }

  ghost predicate SameAgent(s: State, t: State) {
    && t.epoch == s.epoch && t.counter == s.counter && t.handshake == s.handshake && t.owner == s.owner
    && t.log == s.log && t.replied == s.replied && t.open == s.open
  }

  lemma AgentFrame(s: State, t: State)
    requires OwnerOk(s) && AgentOk(s) && LogOk(s)
    requires SameAgent(s, t) && SameCalls(s, t)
    requires t.read <= |t.log| && (t.mid ==> 0 < t.read && t.log[t.read - 1].body.Some?)
    ensures OwnerOk(t) && AgentOk(t) && LogOk(t)
  {
    forall k | 0 <= k < |t.log| ensures MessageOk(t, k) { assert MessageOk(s, k); }
  }

  ghost function ChanWindow(s: State): Option<(Stage, Ref, nat)> {
    if s.io.Busy? && s.io.ref.Chan? then Some((s.io.stage, s.io.ref, s.io.msg)) else None
  }

  lemma TraceFrame(s: State, t: State)
    requires s.read <= |s.log| && TracesOk(s) && CompletionsOk(s)
    requires t.epoch == s.epoch && t.log == s.log && t.subs == s.subs && t.read == s.read
    requires ChanWindow(t) == ChanWindow(s)
    ensures TracesOk(t) && CompletionsOk(t)
  {
    forall i | 0 <= i < |t.subs| && t.subs[i].epoch == t.epoch ensures TraceOk(t, i) && CompletionOk(t, i) {
      assert TraceOk(s, i) && CompletionOk(s, i);
      assert InWindow(t, i) == InWindow(s, i);
      forall j | 0 <= j < |t.subs[i].got| && Completes(t, i, j)
        ensures j == |t.subs[i].got| - 1 && (t.subs[i].deletes == 1 || (InCallback(t) && t.io.ref == Chan(i)))
      { assert Completes(s, i, j); }
    }
  }

  ghost predicate SameSubs(s: State, t: State) {
    && |s.subs| <= |t.subs|
    && forall i :: 0 <= i < |s.subs| ==>
         t.subs[i].num == s.subs[i].num && t.subs[i].epoch == s.subs[i].epoch && t.subs[i].kind == s.subs[i].kind
  }

  lemma StopFrame(s: State, t: State)
    requires StopsOk(s) && SameSubs(s, t) && SameCalls(s, t) && |t.calls| == |s.calls| && t.epoch == s.epoch
    ensures StopsOk(t)
  {
    forall i | 0 <= i < |t.calls| && t.calls[i].kind.Stop? && t.calls[i].epoch == t.epoch
      ensures OwnSubscription(t, t.calls[i].kind.target)
    {
      assert Advances(s.calls[i], t.calls[i]);
      StillSubscribed(s, t, s.calls[i].kind.target);
    }
  }

  lemma StillSubscribed(s: State, t: State, q: nat)
    requires OwnSubscription(s, q) && SameSubs(s, t) && t.epoch == s.epoch
    ensures OwnSubscription(t, q)
  {
    var i :| 0 <= i < |s.subs| && s.subs[i].num == q && s.subs[i].epoch == s.epoch && s.subs[i].kind != QUERY;
    assert t.subs[i].num == q;
  }

  /** No listener entry of the map is lost. */
  ghost predicate ChansKept(s: State, t: State) {
    forall q :: q in s.registry && s.registry[q].Chan? ==> q in t.registry && t.registry[q] == s.registry[q]
  }

  lemma SubsFrame(s: State, t: State)
    requires SubsOk(s) && SameCalls(s, t) && t.subs == s.subs && t.epoch == s.epoch && ChansKept(s, t)
    ensures SubsOk(t)
  {
    forall i | 0 <= i < |t.subs| ensures SubShape(t, i) { assert SubShape(s, i); }
  }

  /** The frames together, for an event that touches only calls, request entries and the I/O thread's flags. */
  ghost predicate Local(s: State, t: State) {
    && SameAgent(s, t) && t.read == s.read && t.mid == s.mid && t.subs == s.subs
    && |t.calls| == |s.calls| && SameCalls(s, t) && ChansKept(s, t)
    && ChanWindow(t) == ChanWindow(s)
  }

  lemma LocalFrame(s: State, t: State)
    requires Inv(s) && Local(s, t)
    ensures OwnerOk(t) && AgentOk(t) && LogOk(t) && StopsOk(t) && SubsOk(t) && TracesOk(t) && CompletionsOk(t)
  {
    AgentFrame(s, t);
    TraceFrame(s, t);
    StopFrame(s, t);
    SubsFrame(s, t);
  }

  // ---------- a call moves on ----------

  ghost predicate MayMove(s: State, c: nat, p: Phase) {
    && c < |s.calls| && !s.fault
    && CallOk(SetPhase(s, c, p), c)
    && !s.calls[c].phase.Returned?
    && (s.calls[c].phase == Closing(SUCCESS) ==> p == Returned(SUCCESS))
    && (Active(p) ||
        (!Registered(s, s.calls[c].num, Req(c)) && (s.io.Busy? && s.io.ref == Req(c) ==> s.io.cut || s.io.raced)))
  }

  lemma PhaseKeeps(s: State, c: nat, p: Phase)
    requires Inv(s) && MayMove(s, c, p)
    ensures Inv(SetPhase(s, c, p))
  {
    var t := SetPhase(s, c, p);
    LocalFrame(s, t);
    PhaseCalls(s, c, p);
    PhaseEntries(s, c, p);
  }

  lemma PhaseCalls(s: State, c: nat, p: Phase)
    requires CallsOk(s) && MayMove(s, c, p)
    ensures CallsOk(SetPhase(s, c, p))
  {
    var t := SetPhase(s, c, p);
    forall i | 0 <= i < |t.calls| ensures CallOk(t, i) { assert CallOk(s, i); }
  }

  lemma PhaseEntries(s: State, c: nat, p: Phase)
    requires RegistryOk(s) && RepliesOk(s) && IoOk(s) && MayMove(s, c, p)
    ensures RegistryOk(SetPhase(s, c, p)) && RepliesOk(SetPhase(s, c, p)) && IoOk(SetPhase(s, c, p))
  {
    var t := SetPhase(s, c, p);
    forall q | q in t.registry ensures EntryOk(t, q) { assert EntryOk(s, q); }
  }

  /** A call past the point of giving up or being answered is no longer registered, and the I/O
      thread still holding its channel has an explanation. */
  lemma InactiveFacts(s: State, c: nat)
    requires RegistryOk(s) && IoOk(s) && c < |s.calls|
    ensures !Active(s.calls[c].phase) || s.calls[c].pending ==> !Registered(s, s.calls[c].num, Req(c))
    ensures !Active(s.calls[c].phase) && s.io.Busy? && s.io.ref == Req(c) ==> s.io.cut || s.io.raced
  {
    var q := s.calls[c].num;
    if q in s.registry { assert EntryOk(s, q); }
  }

  lemma EndWaitMoves(s: State, c: nat)
    requires CallsOk(s) && !s.fault && Is(s, c, Waiting)
    ensures MayMove(s, c, Checking)
  {
    assert CallOk(s, c);
  }

  lemma RaceKeeps(s: State, c: nat)
    requires Inv(s) && MutexHeld(s, c) && !s.fault
    ensures Inv(s.(io := s.io.(raced := true)))
  {
    var t := s.(io := s.io.(raced := true));
    LocalFrame(s, t);
    forall i | 0 <= i < |t.calls| ensures CallOk(t, i) { assert CallOk(s, i); }
    forall q | q in t.registry ensures EntryOk(t, q) { assert EntryOk(s, q); }
  }

  lemma CheckMoves(s: State, c: nat)
    requires CallsOk(s) && RegistryOk(s) && IoOk(s) && !s.fault && Is(s, c, Checking)
    requires MutexHeld(s, c) ==> s.io.raced
    ensures MayMove(s, c, if s.calls[c].pending then Answered else GaveUp)
  {
    assert CallOk(s, c);
    InactiveFacts(s, c);
  }

  lemma CheckKeeps(s: State, c: nat)
    requires Inv(s) && !s.fault && Is(s, c, Checking)
    ensures Inv(AfterCheck(s, c))
  {
    var r := s;
    if MutexHeld(s, c) {
      r := s.(io := s.io.(raced := true));
      RaceKeeps(s, c);
    }
    CheckMoves(r, c);
    PhaseKeeps(r, c, if s.calls[c].pending then Answered else GaveUp);
  }

  /** What an answered call can rely on. */
  lemma AnsweredFacts(s: State, c: nat)
    requires CallsOk(s) && LogOk(s) && c < |s.calls| && s.calls[c].phase == Answered
    ensures s.calls[c].epoch == s.epoch && s.calls[c].sent && s.calls[c].pending
    ensures s.calls[c].num in s.owner && s.owner[s.calls[c].num] == c
    ensures s.calls[c].heard.Some? && s.calls[c].heard.value < s.read
    ensures s.calls[c].hdr.Seq == s.calls[c].num
  {
    assert CallOk(s, c) && CallHeard(s, s.calls[c]);
  }

  lemma FinishMoves(s: State, c: nat)
    requires CallsOk(s) && RegistryOk(s) && IoOk(s) && !s.fault && Is(s, c, Answered)
    ensures MayMove(s, c, Closing(ResultOf(s.calls[c])))
  {
    assert CallOk(s, c);
    InactiveFacts(s, c);
  }

  lemma ReturnMoves(s: State, c: nat)
    requires CallsOk(s) && RegistryOk(s) && IoOk(s) && !s.fault && c < |s.calls| && s.calls[c].phase.Closing?
    ensures MayMove(s, c, Returned(s.calls[c].phase.r))
  {
    assert CallOk(s, c);
    InactiveFacts(s, c);
  }

  // ---------- a call starts ----------

  ghost predicate CanSend(s: State, e: Event) {
    && e.Send? && !s.fault && s.counter + 1 < U64
    && (if s.handshake.None? then e.kind == Plain && !e.nested else ConnectDone(s))
    && (e.nested ==> InCallback(s))
    && (e.kind.Stop? ==> OwnSubscription(s, e.kind.target))
  }

  /** What sending does, field by field. */
  ghost predicate Sent(s: State, e: Event, t: State) {
    && CanSend(s, e)
    && |t.calls| == |s.calls| + 1
    && (forall i :: 0 <= i < |s.calls| ==> t.calls[i] == s.calls[i])
    && t.calls[|s.calls|] == NewCall(s, e)
    && t.handshake == (if s.handshake.None? then Some(|s.calls|) else s.handshake)
    && t.counter == s.counter + 1
    && t.registry == (if e.ok then s.registry[s.counter := Req(|s.calls|)] else s.registry)
    && t.owner == (if e.ok then s.owner[s.counter := |s.calls|] else s.owner)
    && t.epoch == s.epoch && t.log == s.log && t.replied == s.replied && t.open == s.open && t.subs == s.subs
    && t.read == s.read && t.mid == s.mid && t.io == s.io && t.fault == s.fault
  }

  lemma AfterSendIsSent(s: State, e: Event)
    requires CanSend(s, e)
    ensures Sent(s, e, AfterSend(s, e))
  {
  }

  lemma SendKeeps(s: State, e: Event, t: State)
    requires Inv(s) && Sent(s, e, t)
    ensures Inv(t)
  {
    SendAgent(s, e, t);
    TraceFrame(s, t);
    SendStops(s, e, t);
    SendCalls(s, e, t);
    SendEntries(s, e, t);
  }

  lemma SendStops(s: State, e: Event, t: State)
    requires StopsOk(s) && Sent(s, e, t)
    ensures StopsOk(t)
  {
    forall i | 0 <= i < |t.calls| && t.calls[i].kind.Stop? && t.calls[i].epoch == t.epoch
      ensures OwnSubscription(t, t.calls[i].kind.target)
    { StillSubscribed(s, t, t.calls[i].kind.target); }
  }

  lemma SendAgent(s: State, e: Event, t: State)
    requires OwnerOk(s) && AgentOk(s) && LogOk(s) && Sent(s, e, t)
    ensures OwnerOk(t) && AgentOk(t) && LogOk(t)
  {
    forall k | 0 <= k < |t.log| ensures MessageOk(t, k) { assert MessageOk(s, k); }
  }

  lemma SendCalls(s: State, e: Event, t: State)
    requires OwnerOk(s) && CallsOk(s) && SubsOk(s) && Sent(s, e, t)
    ensures CallsOk(t) && SubsOk(t)
  {
    forall i | 0 <= i < |t.calls| ensures CallOk(t, i) { if i < |s.calls| { assert CallOk(s, i); } }
    forall i | 0 <= i < |t.subs| ensures SubShape(t, i) {
      assert SubShape(s, i);
      if s.subs[i].epoch == s.epoch { assert CallOk(s, s.subs[i].caller); }
    }
  }

  lemma SendEntries(s: State, e: Event, t: State)
    requires OwnerOk(s) && LogOk(s) && RegistryOk(s) && RepliesOk(s) && IoOk(s) && Sent(s, e, t)
    ensures RegistryOk(t) && RepliesOk(t) && IoOk(t)
  {
    forall q | q in t.registry ensures EntryOk(t, q) { if q in s.registry { assert EntryOk(s, q); } }
    if s.io.Busy? { assert MessageOk(s, s.io.msg); }
    forall k | 0 <= k < t.read && t.log[k].reply ensures ReplyHeard(t, t.log[k].hdr.Seq, k) {
      assert MessageOk(s, k) && ReplyHeard(s, s.log[k].hdr.Seq, k);
      var q := s.log[k].hdr.Seq;
      if q in s.registry { assert EntryOk(s, q); }
    }
  }

  // ---------- a call times out ----------

  /** Whose entry it is: on this connection, either the owner's waiting request channel or the
      listener its owner installed. */
  lemma EntryFacts(s: State, q: nat)
    requires RegistryOk(s) && CallsOk(s) && SubsOk(s) && q in s.registry
    ensures match s.registry[q]
            case Req(c) => c < |s.calls| && q in s.owner && s.owner[q] == c && Active(s.calls[c].phase)
                           && (s.calls[c].heard.Some? ==> FoundBy(s, c))
            case Chan(i) => i < |s.subs| && q != 0 && s.subs[i].deletes == 0
                            && (q in s.owner ==> s.subs[i].epoch == s.epoch && SubOwner(s, q, s.subs[i]))
  {
    assert EntryOk(s, q);
    match s.registry[q] {
      case Req(c) => assert CallOk(s, c);
      case Chan(i) =>
        assert SubShape(s, i);
        if q in s.owner { SubFacts(s, i); }
    }
  }

  ghost predicate SubOwner(s: State, q: nat, sub: Sub) {
    && q in s.owner && s.owner[q] == sub.caller && sub.caller < |s.calls|
    && Succeeded(s.calls[sub.caller]) && s.calls[sub.caller].heard.Some? && s.calls[sub.caller].heard.value < sub.start
  }

  lemma SubFacts(s: State, i: nat)
    requires CallsOk(s) && SubsOk(s) && i < |s.subs| && s.subs[i].epoch == s.epoch
    ensures SubOwner(s, s.subs[i].num, s.subs[i])
  {
    assert SubShape(s, i) && CallOk(s, s.subs[i].caller);
  }

  /** The number of a call that has not returned is never a listener's. */
  lemma OwnEntry(s: State, c: nat)
    requires CallsOk(s) && RegistryOk(s) && SubsOk(s) && c < |s.calls| && Active(s.calls[c].phase)
    ensures s.calls[c].sent && s.calls[c].epoch == s.epoch
    ensures s.calls[c].num in s.registry ==> s.registry[s.calls[c].num] == Req(c)
    ensures forall i :: 0 <= i < |s.subs| && s.subs[i].num == s.calls[c].num ==> s.subs[i].epoch != s.epoch
  {
    assert CallOk(s, c);
    if s.calls[c].num in s.registry { EntryFacts(s, s.calls[c].num); }
    forall i | 0 <= i < |s.subs| && s.subs[i].epoch == s.epoch ensures s.subs[i].num != s.calls[c].num {
      SubFacts(s, i);
    }
  }

  /** What `removeChannel` does for a call that gave up, field by field. */
  ghost predicate Removed(s: State, c: nat, t: State) {
    && !s.fault && Is(s, c, GaveUp)
    && s.calls[c].sent && s.calls[c].epoch == s.epoch
    && (s.calls[c].num in s.registry ==> s.registry[s.calls[c].num] == Req(c))
    && (forall i :: 0 <= i < |s.subs| && s.subs[i].num == s.calls[c].num ==> s.subs[i].epoch != s.epoch)
    && t == s.(calls := t.calls, registry := t.registry, io := t.io)
    && |t.calls| == |s.calls|
    && (forall i :: 0 <= i < |s.calls| && i != c ==> t.calls[i] == s.calls[i])
    && t.calls[c] == s.calls[c].(phase := Closing(TIMEOUT))
    && t.registry == s.registry - {s.calls[c].num}
    && t.io == (if s.io.Busy? && s.io.num == s.calls[c].num then s.io.(cut := true) else s.io)
  }

  lemma AfterRemoveIsRemoved(s: State, c: nat)
    requires Inv(s) && !s.fault && Is(s, c, GaveUp)
    ensures Removed(s, c, SetPhase(ClientRemove(s, s.calls[c].num), c, Closing(TIMEOUT)))
  {
    OwnEntry(s, c);
  }

  lemma RemoveKeeps(s: State, c: nat, t: State)
    requires Inv(s) && Removed(s, c, t)
    ensures Inv(t)
  {
    LocalFrame(s, t);
    RemoveCalls(s, c, t);
    RemoveEntries(s, c, t);
  }

  lemma RemoveCalls(s: State, c: nat, t: State)
    requires CallsOk(s) && Removed(s, c, t)
    ensures CallsOk(t)
  {
    forall i | 0 <= i < |t.calls| ensures CallOk(t, i) { assert CallOk(s, i) && CallOk(s, c); }
  }

  lemma RemoveEntries(s: State, c: nat, t: State)
    requires RegistryOk(s) && RepliesOk(s) && IoOk(s) && Removed(s, c, t)
    ensures RegistryOk(t) && RepliesOk(t) && IoOk(t)
  {
    forall q | q in t.registry ensures EntryOk(t, q) { assert EntryOk(s, q); }
    forall k | 0 <= k < t.read && k < |t.log| && t.log[k].reply ensures ReplyHeard(t, t.log[k].hdr.Seq, k) {
      assert ReplyHeard(s, s.log[k].hdr.Seq, k);
    }
  }

  // ---------- removeChannel by Stop ----------

  /** The target of a Stop is, if anything, a listener of this connection. */
  lemma TargetEntry(s: State, c: nat)
    requires CallsOk(s) && RegistryOk(s) && SubsOk(s) && StopsOk(s)
    requires c < |s.calls| && s.calls[c].phase == Answered && s.calls[c].kind.Stop?
    ensures var q := s.calls[c].kind.target;
            && q in s.owner && s.owner[q] < |s.calls| && !Active(s.calls[s.owner[q]].phase)
            && (q in s.registry ==>
          s.registry[q].Chan? && s.registry[q].sub < |s.subs| && s.subs[s.registry[q].sub].epoch == s.epoch)
  {
    assert CallOk(s, c);
    var q := s.calls[c].kind.target;
    var i :| 0 <= i < |s.subs| && s.subs[i].num == q && s.subs[i].epoch == s.epoch && s.subs[i].kind != QUERY;
    SubFacts(s, i);
    if q in s.registry { EntryFacts(s, q); }
  }

  /** What the removal of a listener does, field by field; `q` is its number and `flag` tells that
      the I/O thread is using it. */
  ghost predicate Unsubscribed(s: State, q: nat, t: State) {
    && t == s.(registry := t.registry, subs := t.subs, io := t.io)
    && t.registry == s.registry - {q}
    && t.io == (if s.io.Busy? && s.io.num == q then s.io.(cut := true) else s.io)
    && |t.subs| == |s.subs|
    && (forall i :: 0 <= i < |s.subs| ==>
          t.subs[i] ==
            if Registered(s, q, Chan(i)) then s.subs[i].(deletes := s.subs[i].deletes + 1, stop := Some(s.read))
            else s.subs[i])
    && q in s.owner && s.owner[q] < |s.calls| && !Active(s.calls[s.owner[q]].phase)
    && (q in s.registry ==>
          s.registry[q].Chan? && s.registry[q].sub < |s.subs| && s.subs[s.registry[q].sub].epoch == s.epoch)
  }

  lemma ClientRemoveUnsubscribes(s: State, c: nat)
    requires CallsOk(s) && RegistryOk(s) && SubsOk(s) && StopsOk(s)
    requires c < |s.calls| && s.calls[c].phase == Answered && s.calls[c].kind.Stop?
    ensures Unsubscribed(s, s.calls[c].kind.target, ClientRemove(s, s.calls[c].kind.target))
  {
    TargetEntry(s, c);
    var q := s.calls[c].kind.target;
    if q in s.registry { assert EntryOk(s, q); }
  }

  lemma UnsubscribeKeeps(s: State, q: nat, t: State)
    requires Inv(s) && Unsubscribed(s, q, t)
    ensures Inv(t)
  {
    AgentFrame(s, t);
    StopFrame(s, t);
    UnsubscribeSubs(s, q, t);
    UnsubscribeTraces(s, q, t);
    UnsubscribeEntries(s, q, t);
  }

  lemma UnsubscribeSubs(s: State, q: nat, t: State)
    requires SubsOk(s) && RegistryOk(s) && CallsOk(s) && Unsubscribed(s, q, t)
    ensures SubsOk(t) && CallsOk(t)
  {
    if q in s.registry { assert EntryOk(s, q); }
    forall i | 0 <= i < |t.subs| ensures SubShape(t, i) { assert SubShape(s, i); }
    forall i | 0 <= i < |t.calls| ensures CallOk(t, i) { assert CallOk(s, i); }
  }

  lemma UnsubscribeTraces(s: State, q: nat, t: State)
    requires SubsOk(s) && RegistryOk(s) && s.read <= |s.log| && TracesOk(s) && CompletionsOk(s) && Unsubscribed(s, q, t)
    ensures TracesOk(t) && CompletionsOk(t)
  {
    if q in s.registry { assert EntryOk(s, q); }
    forall i | 0 <= i < |t.subs| && t.subs[i].epoch == t.epoch ensures TraceOk(t, i) && CompletionOk(t, i) {
      assert TraceOk(s, i) && CompletionOk(s, i) && SubShape(s, i);
      assert InWindow(t, i) == InWindow(s, i);
      forall j | 0 <= j < |t.subs[i].got| && Completes(t, i, j)
        ensures j == |t.subs[i].got| - 1 && (t.subs[i].deletes == 1 || (InCallback(t) && t.io.ref == Chan(i)))
      { assert Completes(s, i, j); }
    }
  }

  lemma UnsubscribeEntries(s: State, q: nat, t: State)
    requires SubsOk(s) && RegistryOk(s) && RepliesOk(s) && IoOk(s) && Unsubscribed(s, q, t)
    ensures RegistryOk(t) && RepliesOk(t) && IoOk(t)
  {
    if q in s.registry { assert EntryOk(s, q); }
    forall r | r in t.registry ensures EntryOk(t, r) { assert EntryOk(s, r); }
    forall k | 0 <= k < t.read && k < |t.log| && t.log[k].reply ensures ReplyHeard(t, t.log[k].hdr.Seq, k) {
      assert ReplyHeard(s, s.log[k].hdr.Seq, k);
    }
    if s.io.Busy? && s.io.ref.Chan? { assert SubShape(s, s.io.ref.sub); }
  }

  lemma CancelMoves(s: State, c: nat)
    requires CallsOk(s) && RegistryOk(s) && IoOk(s) && !s.fault && Is(s, c, Answered) && NoError(s.calls[c])
    ensures MayMove(s, c, Closing(SUCCESS))
  {
    assert CallOk(s, c);
    InactiveFacts(s, c);
  }

  // ---------- a subscription is installed ----------

  /** What installing a listener does, field by field. */
  ghost predicate Installed(s: State, c: nat, q: nat, t: State) {
    && !s.fault && Is(s, c, Answered) && s.calls[c].kind.Subscribe? && NoError(s.calls[c])
    && q == s.calls[c].num && s.calls[c].hdr.Seq == q
    && s.calls[c].epoch == s.epoch && s.calls[c].sent && s.calls[c].pending
    && q in s.owner && s.owner[q] == c && q != 0
    && s.calls[c].heard.Some? && s.calls[c].heard.value < s.read
    && q !in s.registry
    && (s.io.Busy? && s.io.ref == Req(c) ==> (s.io.cut || s.io.raced) && s.io.stage == Producing)
    && t == s.(calls := t.calls, subs := t.subs, registry := s.registry[q := Chan(|s.subs|)])
    && |t.calls| == |s.calls|
    && (forall i :: 0 <= i < |s.calls| && i != c ==> t.calls[i] == s.calls[i])
    && t.calls[c] == s.calls[c].(phase := Closing(SUCCESS))
    && |t.subs| == |s.subs| + 1
    && (forall i :: 0 <= i < |s.subs| ==> t.subs[i] == s.subs[i])
    && t.subs[|s.subs|] == Sub(s.calls[c].kind.listener, s.epoch, q, c, s.read, None, 0, [])
  }

  /** The entry of an answered call has been erased and nothing has taken its place: `Monitor`,
      `Stream` and `Query` overwrite no channel. */
  lemma SlotIsFree(s: State, c: nat)
    requires CallsOk(s) && LogOk(s) && RegistryOk(s) && SubsOk(s) && OwnerOk(s)
    requires c < |s.calls| && s.calls[c].phase == Answered
    ensures s.calls[c].num !in s.registry
    ensures s.calls[c].kind.Subscribe? ==> s.calls[c].num != 0
  {
    AnsweredFacts(s, c);
    if s.calls[c].num in s.registry { EntryFacts(s, s.calls[c].num); }
  }

  lemma AfterInstallIsInstalled(s: State, c: nat)
    requires Inv(s) && !s.fault && Is(s, c, Answered) && s.calls[c].kind.Subscribe? && NoError(s.calls[c])
    ensures Installed(s, c, s.calls[c].num, AfterInstall(s, c))
  {
    AnsweredFacts(s, c);
    SlotIsFree(s, c);
    InactiveFacts(s, c);
  }

  lemma InstallKeeps(s: State, c: nat, q: nat, t: State)
    requires Inv(s) && Installed(s, c, q, t)
    ensures Inv(t)
  {
    AgentFrame(s, t);
    StopFrame(s, t);
    InstallCalls(s, c, q, t);
    InstallSubs(s, c, q, t);
    InstallTraces(s, c, q, t);
    InstallEntries(s, c, q, t);
  }

  lemma InstallCalls(s: State, c: nat, q: nat, t: State)
    requires CallsOk(s) && Installed(s, c, q, t)
    ensures CallsOk(t)
  {
    forall i | 0 <= i < |t.calls| ensures CallOk(t, i) { assert CallOk(s, i) && CallOk(s, c); }
  }

  lemma InstallSubs(s: State, c: nat, q: nat, t: State)
    requires CallsOk(s) && SubsOk(s) && Installed(s, c, q, t)
    ensures SubsOk(t)
  {
    forall i | 0 <= i < |t.subs| ensures SubShape(t, i) {
      if i < |s.subs| {
        assert SubShape(s, i);
        if s.subs[i].epoch == s.epoch { assert CallOk(s, s.subs[i].caller); }
      }
    }
  }

  lemma InstallTraces(s: State, c: nat, q: nat, t: State)
    requires s.read <= |s.log| && TracesOk(s) && CompletionsOk(s) && IoOk(s) && Installed(s, c, q, t)
    ensures TracesOk(t) && CompletionsOk(t)
  {
    forall i | 0 <= i < |t.subs| && t.subs[i].epoch == t.epoch ensures TraceOk(t, i) && CompletionOk(t, i) {
      if i < |s.subs| {
        assert TraceOk(s, i) && CompletionOk(s, i);
        assert InWindow(t, i) == InWindow(s, i);
        forall j | 0 <= j < |t.subs[i].got| && Completes(t, i, j)
          ensures j == |t.subs[i].got| - 1 && (t.subs[i].deletes == 1 || (InCallback(t) && t.io.ref == Chan(i)))
        { assert Completes(s, i, j); }
      }
    }
  }

  lemma InstallEntries(s: State, c: nat, q: nat, t: State)
    requires RegistryOk(s) && RepliesOk(s) && IoOk(s) && CallsOk(s) && Installed(s, c, q, t)
    ensures RegistryOk(t) && RepliesOk(t) && IoOk(t)
  {
    forall r | r in t.registry ensures EntryOk(t, r) { if r != q { assert EntryOk(s, r); } }
    forall k | 0 <= k < t.read && k < |t.log| && t.log[k].reply ensures ReplyHeard(t, t.log[k].hdr.Seq, k) {
      assert ReplyHeard(s, s.log[k].hdr.Seq, k);
    }
    if s.io.Busy? && s.io.ref.Req? { assert CallOk(s, s.io.ref.call); }
  }

  // ---------- the agent speaks ----------

  ghost predicate LogGrows(s: State, t: State) {
    |s.log| < |t.log| && forall k :: 0 <= k < |s.log| ==> t.log[k] == s.log[k]
  }

  lemma {:induction false} PositionsOfPrefix(log: seq<Message>, log': seq<Message>, q: nat, lo: nat, hi: nat)
    requires hi <= |log| <= |log'|
    requires forall k :: 0 <= k < |log| ==> log'[k] == log[k]
    ensures Positions(log', q, lo, hi) == Positions(log, q, lo, hi)
    decreases hi
  {
    if lo < hi { PositionsOfPrefix(log, log', q, lo, hi - 1); }
  }

  /** A message the agent may send: a reply to an unanswered request, or a record of an open subscription. */
  ghost predicate Spoken(s: State, m: Message, t: State) {
    && !s.fault
    && var q := m.hdr.Seq;
       && t == s.(log := t.log, replied := t.replied, open := t.open)
       && LogGrows(s, t) && |t.log| == |s.log| + 1 && t.log[|s.log|] == m
       && q in s.owner && s.owner[q] < |s.calls|
       && (m.body.Some? ==> Unroutable(m.body.value))
       && (if m.reply then
             && q !in s.replied && (m.body.Some? <==> s.calls[s.owner[q]].kind.Typed?)
             && t.replied == s.replied[q := |s.log|]
             && (t.open == s.open || (t.open == s.open + {q} && s.calls[s.owner[q]].kind.Subscribe?))
           else q in s.open && m.body.Some? && t.replied == s.replied && t.open == s.open)
  }

  lemma ReplyIsSpoken(s: State, q: nat, err: string, body: Option<Object>)
    requires Enabled(s, Reply(q, err, body))
    ensures Spoken(s, Message(ResponseHeader(q, err), body, true), Apply(s, Reply(q, err, body)))
  {
  }

  lemma EmitIsSpoken(s: State, q: nat, err: string, body: Object)
    requires AgentOk(s) && Enabled(s, Emit(q, err, body))
    ensures Spoken(s, Message(ResponseHeader(q, err), Some(body), false), Apply(s, Emit(q, err, body)))
  {
  }

  lemma SpeechKeeps(s: State, m: Message, t: State)
    requires Inv(s) && Spoken(s, m, t)
    ensures Inv(t)
  {
    SpeechAgent(s, m, t);
    SpeechTraces(s, m, t);
    StopFrame(s, t);
    SpeechRest(s, m, t);
  }

  lemma SpeechAgent(s: State, m: Message, t: State)
    requires OwnerOk(s) && AgentOk(s) && LogOk(s) && Spoken(s, m, t)
    ensures OwnerOk(t) && AgentOk(t) && LogOk(t)
  {
    forall k | 0 <= k < |t.log| ensures MessageOk(t, k) { if k < |s.log| { assert MessageOk(s, k); } }
  }

  lemma SpeechTraces(s: State, m: Message, t: State)
    requires LogOk(s) && SubsOk(s) && TracesOk(s) && CompletionsOk(s) && Spoken(s, m, t)
    ensures TracesOk(t) && CompletionsOk(t)
  {
    forall i | 0 <= i < |t.subs| && t.subs[i].epoch == t.epoch ensures TraceOk(t, i) && CompletionOk(t, i) {
      assert TraceOk(s, i) && CompletionOk(s, i);
      assert InWindow(t, i) == InWindow(s, i);
      PositionsOfPrefix(s.log, t.log, s.subs[i].num, s.subs[i].start, Until(s, i));
      forall j | 0 <= j < |t.subs[i].got| && Completes(t, i, j)
        ensures j == |t.subs[i].got| - 1 && (t.subs[i].deletes == 1 || (InCallback(t) && t.io.ref == Chan(i)))
      { assert Completes(s, i, j); }
    }
  }

  lemma SpeechRest(s: State, m: Message, t: State)
    requires LogOk(s) && CallsOk(s) && RegistryOk(s) && RepliesOk(s) && SubsOk(s) && IoOk(s) && Spoken(s, m, t)
    ensures CallsOk(t) && RegistryOk(t) && RepliesOk(t) && SubsOk(t) && IoOk(t)
  {
    forall i | 0 <= i < |t.calls| ensures CallOk(t, i) { assert CallOk(s, i); }
    forall i | 0 <= i < |t.subs| ensures SubShape(t, i) { assert SubShape(s, i); }
    forall q | q in t.registry ensures EntryOk(t, q) { assert EntryOk(s, q); }
    forall k | 0 <= k < t.read && k < |t.log| && t.log[k].reply ensures ReplyHeard(t, t.log[k].hdr.Seq, k) {
      assert ReplyHeard(s, s.log[k].hdr.Seq, k);
    }
  }

  // ---------- lookup ----------

  /** There is no entry for number 0 once anything has a body, and the body is no header with another. */
  lemma BodyHasNoEntry(s: State)
    requires OwnerOk(s) && AgentOk(s) && LogOk(s) && RegistryOk(s) && CallsOk(s) && SubsOk(s) && s.mid
    ensures 0 !in s.registry
    ensures Unroutable(s.log[s.read - 1].body.value)
  {
    assert MessageOk(s, s.read - 1);
    if 0 in s.registry { EntryFacts(s, 0); }
  }

  /** So an orphan body never routes. */
  lemma OrphanIsSkipped(s: State)
    requires OwnerOk(s) && AgentOk(s) && LogOk(s) && RegistryOk(s) && CallsOk(s) && SubsOk(s) && s.mid
    ensures AfterLookup(s) == s.(mid := false)
  {
    BodyHasNoEntry(s);
    UnroutableIsDropped(s);
  }

  lemma UnroutableIsDropped(s: State)
    requires HasNext(s) && s.mid && 0 !in s.registry && Unroutable(s.log[s.read - 1].body.value)
    ensures AfterLookup(s) == s.(mid := false)
  {
  }

  lemma OrphanKeeps(s: State)
    requires Inv(s) && !s.fault && s.mid && s.io.Idle?
    ensures Inv(s.(mid := false))
  {
    var t := s.(mid := false);
    LocalOrphan(s, t);
    forall i | 0 <= i < |t.calls| ensures CallOk(t, i) { assert CallOk(s, i); }
    forall q | q in t.registry ensures EntryOk(t, q) { assert EntryOk(s, q); }
  }

  lemma LocalOrphan(s: State, t: State)
    requires Inv(s) && t == s.(mid := false)
    ensures OwnerOk(t) && AgentOk(t) && LogOk(t) && StopsOk(t) && SubsOk(t) && TracesOk(t) && CompletionsOk(t)
  {
    AgentFrame(s, t);
    TraceFrame(s, t);
    StopFrame(s, t);
    SubsFrame(s, t);
  }

  /** What the lookup of the next header does, field by field. */
  ghost predicate LookedUp(s: State, k: nat, t: State) {
    && !s.fault && s.io.Idle? && !s.mid && k == s.read < |s.log|
    && var q := s.log[k].hdr.Seq;
       && t == s.(read := k + 1, mid := s.log[k].body.Some?, io := t.io, calls := t.calls)
       && |t.calls| == |s.calls|
       && t.io == (if q in s.registry then Busy(Found, q, s.registry[q], k, false, false) else Idle)
       && (forall i :: 0 <= i < |s.calls| ==>
             t.calls[i] == if Registered(s, q, Req(i)) then s.calls[i].(heard := Some(k)) else s.calls[i])
  }

  lemma AfterLookupIsLookedUp(s: State)
    requires OwnerOk(s) && AgentOk(s) && LogOk(s) && RegistryOk(s)
    requires !s.fault && s.io.Idle? && !s.mid && s.read < |s.log|
    ensures LookedUp(s, s.read, AfterLookup(s))
  {
    assert MessageOk(s, s.read);
    HeaderRoundTrip(s.log[s.read].hdr);
    var q := s.log[s.read].hdr.Seq;
    if q in s.registry { assert EntryOk(s, q); }
  }

  /** The next header finds a request channel only if it is the reply to that request, heard for
      the first time, and a listener only if it is a record of the same connection. */
  lemma FoundWhatItShould(s: State, k: nat)
    requires OwnerOk(s) && AgentOk(s) && LogOk(s) && RegistryOk(s) && CallsOk(s) && SubsOk(s) && RepliesOk(s)
    requires !s.fault && s.io.Idle? && !s.mid && k == s.read < |s.log|
    requires s.log[k].hdr.Seq in s.registry
    ensures var q := s.log[k].hdr.Seq;
            match s.registry[q]
            case Req(c) => c < |s.calls| && s.log[k].reply && s.calls[c].heard.None? && !s.calls[c].nested
            case Chan(i) => i < |s.subs| && !s.log[k].reply && s.subs[i].epoch == s.epoch && s.subs[i].deletes == 0
  {
    var q := s.log[k].hdr.Seq;
    assert MessageOk(s, k);
    EntryFacts(s, q);
    var j := s.replied[q];
    assert j < k ==> ReplyHeard(s, s.log[j].hdr.Seq, j);
    match s.registry[q] {
      case Req(c) =>
        assert CallOk(s, c);
      case Chan(i) =>
        var h := s.calls[s.subs[i].caller].heard.value;
        assert SubShape(s, i) && CallOk(s, s.subs[i].caller) && MessageOk(s, h);
    }
  }

  lemma LookupKeeps(s: State, k: nat, t: State)
    requires Inv(s) && LookedUp(s, k, t)
    ensures Inv(t)
  {
    LookupFrames(s, k, t);
    LookupCalls(s, k, t);
    LookupEntries(s, k, t);
    LookupReplies(s, k, t);
    LookupTraces(s, k, t);
  }

  lemma LookupAdvances(s: State, k: nat, t: State)
    requires RegistryOk(s) && LookedUp(s, k, t)
    ensures SameCalls(s, t)
  {
    var q := s.log[k].hdr.Seq;
    if q in s.registry { assert EntryOk(s, q); }
  }

  lemma LookupFrames(s: State, k: nat, t: State)
    requires Inv(s) && LookedUp(s, k, t)
    ensures OwnerOk(t) && AgentOk(t) && LogOk(t) && StopsOk(t) && SubsOk(t)
  {
    LookupAdvances(s, k, t);
    AgentFrame(s, t);
    StopFrame(s, t);
    SubsFrame(s, t);
  }

  lemma LookupCalls(s: State, k: nat, t: State)
    requires OwnerOk(s) && AgentOk(s) && LogOk(s) && RegistryOk(s) && CallsOk(s) && SubsOk(s) && RepliesOk(s)
    requires LookedUp(s, k, t)
    ensures CallsOk(t)
  {
    if s.log[k].hdr.Seq in s.registry { FoundWhatItShould(s, k); assert EntryOk(s, s.log[k].hdr.Seq); }
    forall i | 0 <= i < |t.calls| ensures CallOk(t, i) { assert CallOk(s, i); }
  }

  lemma LookupEntries(s: State, k: nat, t: State)
    requires OwnerOk(s) && AgentOk(s) && LogOk(s) && RegistryOk(s) && CallsOk(s) && SubsOk(s) && RepliesOk(s)
    requires LookedUp(s, k, t)
    ensures RegistryOk(t) && IoOk(t)
  {
    var q := s.log[k].hdr.Seq;
    assert MessageOk(s, k);
    if q in s.registry { FoundWhatItShould(s, k); assert EntryOk(s, q); }
    forall r | r in t.registry ensures EntryOk(t, r) { assert EntryOk(s, r); }
  }

  lemma LookupReplies(s: State, k: nat, t: State)
    requires LogOk(s) && RegistryOk(s) && RepliesOk(s) && LookedUp(s, k, t)
    ensures RepliesOk(t)
  {
    assert MessageOk(s, k);
    if s.log[k].hdr.Seq in s.registry { assert EntryOk(s, s.log[k].hdr.Seq); }
    forall j | 0 <= j < t.read && t.log[j].reply ensures ReplyHeard(t, t.log[j].hdr.Seq, j) {
      assert MessageOk(s, j);
      assert j < k ==> ReplyHeard(s, s.log[j].hdr.Seq, j);
      var r := s.log[j].hdr.Seq;
      if r in s.registry { assert EntryOk(s, r); }
    }
  }

  lemma LookupTraces(s: State, k: nat, t: State)
    requires OwnerOk(s) && AgentOk(s) && LogOk(s) && RegistryOk(s) && CallsOk(s) && SubsOk(s) && RepliesOk(s)
    requires TracesOk(s) && CompletionsOk(s) && LookedUp(s, k, t)
    ensures TracesOk(t) && CompletionsOk(t)
  {
    var q := s.log[k].hdr.Seq;
    if q in s.registry { FoundWhatItShould(s, k); assert EntryOk(s, q); }
    forall i | 0 <= i < |t.subs| && t.subs[i].epoch == t.epoch ensures TraceOk(t, i) && CompletionOk(t, i) {
      assert TraceOk(s, i) && CompletionOk(s, i) && SubShape(s, i);
      assert Indices(s.subs[i].got) + [] == Indices(s.subs[i].got);
      forall j | 0 <= j < |t.subs[i].got| && Completes(t, i, j)
        ensures j == |t.subs[i].got| - 1 && (t.subs[i].deletes == 1 || (InCallback(t) && t.io.ref == Chan(i)))
      { assert Completes(s, i, j); }
    }
  }

  // ---------- erase ----------

  lemma FaultKeeps(s: State)
    requires Inv(s) && s.io.Busy? && Dead(s, s.io.ref)
    ensures Inv(s.(fault := true))
  {
    var t := s.(fault := true);
    LocalFrame(s, t);
    FaultRest(s);
  }

  lemma FaultRest(s: State)
    requires CallsOk(s) && RegistryOk(s) && RepliesOk(s) && IoOk(s) && s.io.Busy? && Dead(s, s.io.ref)
    ensures var t := s.(fault := true); CallsOk(t) && RegistryOk(t) && RepliesOk(t) && IoOk(t)
  {
    var t := s.(fault := true);
    forall i | 0 <= i < |t.calls| ensures CallOk(t, i) { assert CallOk(s, i); }
    forall q | q in t.registry ensures EntryOk(t, q) { assert EntryOk(s, q); }
    forall k | 0 <= k < t.read && k < |t.log| && t.log[k].reply ensures ReplyHeard(t, t.log[k].hdr.Seq, k) {
      assert ReplyHeard(s, s.log[k].hdr.Seq, k);
    }
  }

  ghost predicate AtErase(s: State) {
    !s.fault && s.io.Busy? && s.io.stage == Found && s.io.ref.Req? && !Dead(s, s.io.ref)
  }

  /** The erase takes out the entry that was looked up, or finds the key gone. */
  lemma EraseIsExact(s: State)
    requires IoOk(s) && AtErase(s)
    ensures s.io.num in s.registry ==> s.registry[s.io.num] == s.io.ref
    ensures s.io.num in s.registry <==> !s.io.cut
  {
  }

  lemma EraseKeeps(s: State)
    requires Inv(s) && AtErase(s)
    ensures Inv(AfterErase(s))
  {
    EraseIsExact(s);
    LocalFrame(s, AfterErase(s));
    EraseCalls(s);
    EraseEntries(s);
  }

  lemma EraseCalls(s: State)
    requires CallsOk(s) && IoOk(s) && AtErase(s)
    ensures CallsOk(AfterErase(s))
  {
    var t := AfterErase(s);
    EraseIsExact(s);
    forall i | 0 <= i < |t.calls| ensures CallOk(t, i) { assert CallOk(s, i); }
  }

  lemma EraseEntries(s: State)
    requires RegistryOk(s) && RepliesOk(s) && IoOk(s) && AtErase(s)
    ensures RegistryOk(AfterErase(s)) && RepliesOk(AfterErase(s)) && IoOk(AfterErase(s))
  {
    var t := AfterErase(s);
    forall q | q in t.registry ensures EntryOk(t, q) { assert EntryOk(s, q); }
    forall k | 0 <= k < t.read && k < |t.log| && t.log[k].reply ensures ReplyHeard(t, t.log[k].hdr.Seq, k) {
      assert ReplyHeard(s, s.log[k].hdr.Seq, k);
    }
  }

  // ---------- produce on a request channel ----------

  /** What `produce` does to the call's channel, field by field. The object a typed channel takes
      is the body of the message whose header was looked up, so the position stays aligned. */
  ghost predicate Produced(s: State, c: nat, arrived: bool, t: State) {
    && !s.fault && s.io.Busy? && s.io.stage == Erased && s.io.ref == Req(c) && c < |s.calls| && s.io.msg < |s.log|
    && !s.calls[c].phase.Returned?
    && var m := s.log[s.io.msg];
       && t == s.(calls := t.calls, mid := t.mid, io := t.io)
       && |t.calls| == |s.calls| && (forall i :: 0 <= i < |s.calls| && i != c ==> t.calls[i] == s.calls[i])
       && t.mid == (s.mid && !(arrived && s.calls[c].kind.Typed?))
       && t.calls[c] == s.calls[c].(hdr := m.hdr, pending := t.calls[c].pending,
                                    whole := t.calls[c].whole, data := t.calls[c].data)
       && (if t.calls[c].pending then
             && t.io == s.io.(stage := Producing)
             && (t.calls[c].whole <==> arrived || !s.calls[c].kind.Typed?)
             && (if s.calls[c].kind.Typed? && t.calls[c].whole then t.calls[c].data == m.body && m.body.Some?
                 else t.calls[c].data.None?)
           else t.io == Idle && t.calls[c].whole && t.calls[c].data.None?)
  }

  lemma AfterResultIsProduced(s: State, c: nat, arrived: bool, converts: bool)
    requires OwnerOk(s) && LogOk(s) && CallsOk(s) && IoOk(s)
    requires !s.fault && s.io.Busy? && s.io.stage == Erased && s.io.ref == Req(c) && !s.calls[c].phase.Returned?
    requires arrived ==> HasNext(s)
    ensures Produced(s, c, arrived, AfterResult(s, c, arrived, converts))
  {
    assert CallOk(s, c) && MessageOk(s, s.io.msg);
  }

  lemma ProduceKeeps(s: State, c: nat, arrived: bool, t: State)
    requires Inv(s) && Produced(s, c, arrived, t)
    ensures Inv(t)
  {
    AgentFrame(s, t);
    TraceFrame(s, t);
    StopFrame(s, t);
    SubsFrame(s, t);
    ProduceCalls(s, c, arrived, t);
    ProduceEntries(s, c, arrived, t);
  }

  lemma ProduceCalls(s: State, c: nat, arrived: bool, t: State)
    requires CallsOk(s) && IoOk(s) && Produced(s, c, arrived, t)
    ensures CallsOk(t)
  {
    forall i | 0 <= i < |t.calls| ensures CallOk(t, i) { assert CallOk(s, i); }
  }

  lemma ProduceEntries(s: State, c: nat, arrived: bool, t: State)
    requires RegistryOk(s) && RepliesOk(s) && IoOk(s) && Produced(s, c, arrived, t)
    ensures RegistryOk(t) && RepliesOk(t) && IoOk(t)
  {
    forall q | q in t.registry ensures EntryOk(t, q) { assert EntryOk(s, q); }
    forall k | 0 <= k < t.read && k < |t.log| && t.log[k].reply ensures ReplyHeard(t, t.log[k].hdr.Seq, k) {
      assert ReplyHeard(s, s.log[k].hdr.Seq, k);
    }
  }

  // ---------- produce on a listener ----------

  /** What `produce` does to a listener's channel, field by field. */
  ghost predicate Delivered(s: State, i: nat, arrived: bool, t: State) {
    && !s.fault && s.io.Busy? && s.io.stage == Found && s.io.ref == Chan(i) && i < |s.subs| && s.subs[i].deletes == 0
    && t == s.(subs := t.subs, mid := t.mid, io := s.io.(stage := Producing))
    && t.mid == (s.mid && !arrived)
    && |t.subs| == |s.subs| && (forall j :: 0 <= j < |s.subs| && j != i ==> t.subs[j] == s.subs[j])
    && t.subs[i] == s.subs[i].(got := s.subs[i].got + [Receipt(s.io.msg, arrived)])
  }

  lemma AfterRecordIsDelivered(s: State, i: nat, arrived: bool)
    requires IoOk(s) && LogOk(s)
    requires !s.fault && s.io.Busy? && s.io.stage == Found && s.io.ref == Chan(i) && s.subs[i].deletes == 0
    requires arrived ==> HasNext(s)
    ensures Delivered(s, i, arrived, AfterRecord(s, i, arrived))
  {
  }

  lemma DeliverKeeps(s: State, i: nat, arrived: bool, t: State)
    requires Inv(s) && Delivered(s, i, arrived, t)
    ensures Inv(t)
  {
    AgentFrame(s, t);
    StopFrame(s, t);
    DeliverTraces(s, i, arrived, t);
    DeliverRest(s, i, arrived, t);
  }

  lemma DeliverTraces(s: State, i: nat, arrived: bool, t: State)
    requires LogOk(s) && SubsOk(s) && TracesOk(s) && CompletionsOk(s) && IoOk(s) && Delivered(s, i, arrived, t)
    ensures TracesOk(t) && CompletionsOk(t)
  {
    forall b | 0 <= b < |t.subs| && t.subs[b].epoch == t.epoch ensures TraceOk(t, b) && CompletionOk(t, b) {
      assert TraceOk(s, b) && CompletionOk(s, b) && SubShape(s, b);
      if b == i {
        assert Indices(t.subs[i].got) == Indices(s.subs[i].got) + [s.io.msg];
        assert Indices(t.subs[i].got) + [] == Indices(t.subs[i].got);
      }
      forall j | 0 <= j < |t.subs[b].got| && Completes(t, b, j)
        ensures j == |t.subs[b].got| - 1 && (t.subs[b].deletes == 1 || (InCallback(t) && t.io.ref == Chan(b)))
      { assert j < |s.subs[b].got| ==> Completes(s, b, j); }
    }
  }

  lemma DeliverRest(s: State, i: nat, arrived: bool, t: State)
    requires CallsOk(s) && RegistryOk(s) && RepliesOk(s) && SubsOk(s) && IoOk(s) && Delivered(s, i, arrived, t)
    ensures CallsOk(t) && RegistryOk(t) && RepliesOk(t) && SubsOk(t) && IoOk(t)
  {
    forall b | 0 <= b < |t.calls| ensures CallOk(t, b) { assert CallOk(s, b); }
    forall b | 0 <= b < |t.subs| ensures SubShape(t, b) { assert SubShape(s, b); }
    forall q | q in t.registry ensures EntryOk(t, q) { assert EntryOk(s, q); }
    forall k | 0 <= k < t.read && k < |t.log| && t.log[k].reply ensures ReplyHeard(t, t.log[k].hdr.Seq, k) {
      assert ReplyHeard(s, s.log[k].hdr.Seq, k);
    }
  }

  // ---------- the end of produce ----------

  ghost predicate AtEnd(s: State) {
    && !s.fault && s.io.Busy? && s.io.stage == Producing
    && (s.io.ref.Chan? ==> NoCallInCallback(s))
  }

  /** `produce` returns and nothing is deregistered. */
  lemma IdleKeeps(s: State)
    requires Inv(s) && AtEnd(s) && !Completing(s)
    ensures Inv(s.(io := Idle))
  {
    var t := s.(io := Idle);
    AgentFrame(s, t);
    StopFrame(s, t);
    SubsFrame(s, t);
    IdleTraces(s);
    forall i | 0 <= i < |t.calls| ensures CallOk(t, i) { assert CallOk(s, i); }
    forall q | q in t.registry ensures EntryOk(t, q) { assert EntryOk(s, q); }
  }

  lemma IdleTraces(s: State)
    requires LogOk(s) && TracesOk(s) && CompletionsOk(s) && IoOk(s) && AtEnd(s) && !Completing(s)
    ensures TracesOk(s.(io := Idle)) && CompletionsOk(s.(io := Idle))
  {
    var t := s.(io := Idle);
    forall i | 0 <= i < |t.subs| && t.subs[i].epoch == t.epoch ensures TraceOk(t, i) && CompletionOk(t, i) {
      assert TraceOk(s, i) && CompletionOk(s, i);
      assert InWindow(t, i) == InWindow(s, i);
      forall j | 0 <= j < |t.subs[i].got| && Completes(t, i, j)
        ensures j == |t.subs[i].got| - 1 && t.subs[i].deletes == 1
      { assert Completes(s, i, j); }
    }
  }

  lemma CutIdleKeeps(s: State, i: nat)
    requires Inv(s) && AtEnd(s) && s.io.ref == Chan(i) && i < |s.subs| && s.subs[i].deletes == 1
    ensures Inv(s.(io := Idle))
  {
    var t := s.(io := Idle);
    AgentFrame(s, t);
    StopFrame(s, t);
    SubsFrame(s, t);
    CutIdleTraces(s, i);
    forall j | 0 <= j < |t.calls| ensures CallOk(t, j) { assert CallOk(s, j); }
    forall q | q in t.registry ensures EntryOk(t, q) { assert EntryOk(s, q); }
  }

  lemma CutIdleTraces(s: State, i: nat)
    requires LogOk(s) && TracesOk(s) && CompletionsOk(s) && AtEnd(s)
    requires s.io.ref == Chan(i) && i < |s.subs| && s.subs[i].deletes == 1
    ensures TracesOk(s.(io := Idle)) && CompletionsOk(s.(io := Idle))
  {
    var t := s.(io := Idle);
    forall b | 0 <= b < |t.subs| && t.subs[b].epoch == t.epoch ensures TraceOk(t, b) && CompletionOk(t, b) {
      assert TraceOk(s, b) && CompletionOk(s, b);
      assert InWindow(t, b) == InWindow(s, b);
      forall j | 0 <= j < |t.subs[b].got| && Completes(t, b, j)
        ensures j == |t.subs[b].got| - 1 && t.subs[b].deletes == 1
      { assert Completes(s, b, j); }
    }
  }

  // ---------- close ----------

  ghost predicate Closed(s: State, t: State) {
    && !s.fault && s.io.Idle? && s.handshake.Some? && (forall c :: 0 <= c < |s.calls| ==> s.calls[c].phase.Returned?)
    && t == s.(epoch := s.epoch + 1, counter := 0, handshake := None, owner := map[], log := [],
               replied := map[], open := {}, read := 0, mid := false)
  }

  lemma CloseKeeps(s: State, t: State)
    requires Inv(s) && Closed(s, t)
    ensures Inv(t)
  {
    forall i | 0 <= i < |t.calls| ensures CallOk(t, i) { assert CallOk(s, i); }
    forall i | 0 <= i < |t.subs| ensures SubShape(t, i) { assert SubShape(s, i); }
    forall q | q in t.registry ensures EntryOk(t, q) { assert EntryOk(s, q); }
    assert forall i :: 0 <= i < |t.subs| ==> SubShape(s, i) && t.subs[i].epoch < t.epoch;
    assert forall i :: 0 <= i < |t.calls| ==> CallOk(s, i) && t.calls[i].epoch < t.epoch;
  }

  // ---------- every event ----------

  /** A call changed its phase, and nothing else but perhaps the race flag. */
  ghost predicate Moved(s: State, c: nat, p: Phase, io: Io, t: State) {
    && !s.fault && c < |s.calls| && t == s.(calls := t.calls, io := io)
    && |t.calls| == |s.calls| && (forall i :: 0 <= i < |s.calls| && i != c ==> t.calls[i] == s.calls[i])
    && t.calls[c] == s.calls[c].(phase := p)
  }

  ghost predicate Cancelled(s: State, c: nat, u: State, t: State) {
    && c < |s.calls| && s.calls[c].kind.Stop? && s.calls[c].phase == Answered && NoError(s.calls[c])
    && Unsubscribed(s, s.calls[c].kind.target, u) && Moved(u, c, Closing(SUCCESS), u.io, t)
  }

  /** What each event does to a state that satisfies the invariant, field by field. */
  ghost predicate Stepped(s: State, e: Event, t: State) {
    match e
    case Send(_, _, _) => Sent(s, e, t)
    case EndWait(c) => Moved(s, c, Checking, s.io, t) && s.calls[c].phase == Waiting
    case Check(c) =>
      && c < |s.calls| && s.calls[c].phase == Checking
      && Moved(s, c, if s.calls[c].pending then Answered else GaveUp,
               if MutexHeld(s, c) then s.io.(raced := true) else s.io, t)
    case Remove(c) => Removed(s, c, t)
    case Install(c) => c < |s.calls| && Installed(s, c, s.calls[c].num, t)
    case Cancel(c) => exists u :: Cancelled(s, c, u, t)
    case Finish(c) =>
      c < |s.calls| && s.calls[c].phase == Answered && Moved(s, c, Closing(ResultOf(s.calls[c])), s.io, t)
    case Return(c) =>
      c < |s.calls| && s.calls[c].phase.Closing? && Moved(s, c, Returned(s.calls[c].phase.r), s.io, t)
    case Reply(q, err, body) => Spoken(s, Message(ResponseHeader(q, err), body, true), t)
    case Emit(q, err, body) => Spoken(s, Message(ResponseHeader(q, err), Some(body), false), t)
    case Lookup => if s.mid then s.io.Idle? && t == s.(mid := false) else LookedUp(s, s.read, t)
    case Erase =>
      if s.io.Busy? && Dead(s, s.io.ref) then t == s.(fault := true)
      else AtErase(s) && t == s.(registry := s.registry - {s.io.num}, io := s.io.(stage := Erased))
    case Produce(arrived, converts) =>
      s.io.Busy? &&
      (if Dead(s, s.io.ref) then t == s.(fault := true) else
       match s.io.ref
       case Req(c) => && Produced(s, c, arrived, t)
                      && (t.calls[c].pending <==> !s.calls[c].kind.Typed? || !arrived || converts)
       case Chan(i) => Delivered(s, i, arrived, t))
    case EndProduce => AtEnd(s) && Ended(s, t)
    case Close => Closed(s, t)
  }

  ghost predicate Ended(s: State, t: State)
    requires AtEnd(s)
  {
    if (s.io.ref.Req? || Completing(s)) && Dead(s, s.io.ref) then t == s.(fault := true)
    else if Completing(s) then
      && t == s.(registry := s.registry - {s.io.num}, subs := t.subs, io := Idle)
      && Registered(s, s.io.num, s.io.ref)
      && |t.subs| == |s.subs| && (forall j :: 0 <= j < |s.subs| && j != s.io.ref.sub ==> t.subs[j] == s.subs[j])
      && t.subs[s.io.ref.sub] == s.subs[s.io.ref.sub].(deletes := 1, stop := Some(s.read))
    else t == s.(io := Idle)
  }

  lemma StepIsStepped(s: State, e: Event)
    requires Inv(s) && Enabled(s, e)
    ensures Stepped(s, e, Apply(s, e))
  {
    if e.Lookup? || e.Erase? || e.Produce? || e.EndProduce? { IoIsStepped(s, e); }
    else if e.Remove? || e.Install? || e.Cancel? { MapIsStepped(s, e); }
    else if e.EndWait? || e.Check? || e.Finish? || e.Return? { MoveIsStepped(s, e); }
    else { OutsideIsStepped(s, e); }
  }

  lemma IoIsStepped(s: State, e: Event)
    requires Inv(s) && Enabled(s, e) && (e.Lookup? || e.Erase? || e.Produce? || e.EndProduce?)
    ensures Stepped(s, e, Apply(s, e))
  {
    match e {
      case Lookup => if s.mid { OrphanIsSkipped(s); } else { AfterLookupIsLookedUp(s); }
      case Produce(a, v) => ProduceIsStepped(s, a, v);
      case EndProduce => EndIsStepped(s);
      case Erase => EraseIsStepped(s);
    }
  }

  lemma OutsideIsStepped(s: State, e: Event)
    requires Inv(s) && Enabled(s, e) && (e.Send? || e.Reply? || e.Emit? || e.Close?)
    ensures Stepped(s, e, Apply(s, e))
  {
    match e {
      case Send(_, _, _) => AfterSendIsSent(s, e);
      case Reply(q, err, body) => ReplyIsSpoken(s, q, err, body);
      case Emit(q, err, body) => EmitIsSpoken(s, q, err, body);
      case Close =>
    }
  }

  lemma MoveIsStepped(s: State, e: Event)
    requires Enabled(s, e) && (e.EndWait? || e.Check? || e.Finish? || e.Return?)
    ensures Stepped(s, e, Apply(s, e))
  {
  }

  lemma MapIsStepped(s: State, e: Event)
    requires Inv(s) && Enabled(s, e)
    requires e.Remove? || e.Install? || e.Cancel?
    ensures Stepped(s, e, Apply(s, e))
  {
    match e {
      case Remove(c) => AfterRemoveIsRemoved(s, c);
      case Install(c) => AfterInstallIsInstalled(s, c);
      case Cancel(c) =>
        ClientRemoveUnsubscribes(s, c);
        assert Cancelled(s, c, ClientRemove(s, s.calls[c].kind.target), Apply(s, e));
    }
  }

  lemma EraseIsStepped(s: State)
    requires !s.fault && s.io.Busy? && s.io.stage == Found && s.io.ref.Req?
    ensures Stepped(s, Erase, AfterErase(s))
  {
  }

  lemma ProduceIsStepped(s: State, arrived: bool, converts: bool)
    requires Inv(s) && Enabled(s, Produce(arrived, converts))
    ensures Stepped(s, Produce(arrived, converts), AfterProduce(s, arrived, converts))
  {
    if !Dead(s, s.io.ref) {
      match s.io.ref {
        case Req(c) => AfterResultIsProduced(s, c, arrived, converts);
        case Chan(i) => AfterRecordIsDelivered(s, i, arrived);
      }
    }
  }

  lemma EndIsStepped(s: State)
    requires SubsOk(s) && IoOk(s) && AtEnd(s)
    ensures Ended(s, AfterEndProduce(s))
  {
    if s.io.ref.Chan? { assert SubShape(s, s.io.ref.sub); }
  }

  lemma SteppedKeeps(s: State, e: Event, t: State)
    requires Inv(s) && !s.fault && Stepped(s, e, t)
    ensures Inv(t)
  {
    if e.Lookup? || e.Erase? || e.Produce? || e.EndProduce? { IoStep(s, e, t); }
    else if e.Reply? || e.Emit? || e.Close? || e.Send? { OtherStep(s, e, t); }
    else if e.Remove? || e.Install? || e.Cancel? { MapStep(s, e, t); }
    else { MoveStep(s, e, t); }
  }

  lemma IoStep(s: State, e: Event, t: State)
    requires Inv(s) && !s.fault && Stepped(s, e, t)
    requires e.Lookup? || e.Erase? || e.Produce? || e.EndProduce?
    ensures Inv(t)
  {
    match e {
      case Lookup => LookupStep(s, t);
      case Erase => EraseStep(s, t);
      case Produce(a, v) => ProduceStep(s, a, v, t);
      case EndProduce => EndStep(s, t);
    }
  }

  lemma LookupStep(s: State, t: State)
    requires Inv(s) && !s.fault && Stepped(s, Lookup, t)
    ensures Inv(t)
  {
    if s.mid { OrphanKeeps(s); } else { LookupKeeps(s, s.read, t); }
  }

  lemma EraseStep(s: State, t: State)
    requires Inv(s) && !s.fault && Stepped(s, Erase, t)
    ensures Inv(t)
  {
    if s.io.Busy? && Dead(s, s.io.ref) { FaultKeeps(s); } else { EraseKeeps(s); }
  }

  lemma OtherStep(s: State, e: Event, t: State)
    requires Inv(s) && Stepped(s, e, t)
    requires e.Reply? || e.Emit? || e.Close? || e.Send?
    ensures Inv(t)
  {
    match e {
      case Send(_, _, _) => SendKeeps(s, e, t);
      case Reply(q, err, body) => SpeechKeeps(s, Message(ResponseHeader(q, err), body, true), t);
      case Emit(q, err, body) => SpeechKeeps(s, Message(ResponseHeader(q, err), Some(body), false), t);
      case Close => CloseKeeps(s, t);
    }
  }

  lemma MapStep(s: State, e: Event, t: State)
    requires Inv(s) && !s.fault && Stepped(s, e, t)
    requires e.Remove? || e.Install? || e.Cancel?
    ensures Inv(t)
  {
    match e {
      case Remove(c) => RemoveKeeps(s, c, t);
      case Install(c) => InstallKeeps(s, c, s.calls[c].num, t);
      case Cancel(c) => CancelKeeps(s, c, t);
    }
  }

  lemma MoveStep(s: State, e: Event, t: State)
    requires Inv(s) && Stepped(s, e, t)
    requires e.EndWait? || e.Check? || e.Finish? || e.Return?
    ensures Inv(t)
  {
    var c := e.call;
    assert t.calls == s.calls[c := t.calls[c]];
    match e {
      case EndWait(_) => EndWaitMoves(s, c); PhaseKeeps(s, c, Checking);
      case Check(_) => CheckKeeps(s, c);
      case Finish(_) => FinishMoves(s, c); PhaseKeeps(s, c, Closing(ResultOf(s.calls[c])));
      case Return(_) => ReturnMoves(s, c); PhaseKeeps(s, c, Returned(s.calls[c].phase.r));
    }
  }

  lemma CancelKeeps(s: State, c: nat, t: State)
    requires Inv(s) && !s.fault && exists u :: Cancelled(s, c, u, t)
    ensures Inv(t)
  {
    var u :| Cancelled(s, c, u, t);
    assert t.calls == u.calls[c := t.calls[c]];
    UnsubscribeKeeps(s, s.calls[c].kind.target, u);
    CancelMoves(u, c);
    PhaseKeeps(u, c, Closing(SUCCESS));
  }

  lemma ProduceStep(s: State, arrived: bool, converts: bool, t: State)
    requires Inv(s) && !s.fault && Stepped(s, Produce(arrived, converts), t)
    ensures Inv(t)
  {
    if Dead(s, s.io.ref) { FaultKeeps(s); } else {
      match s.io.ref {
        case Req(c) => ProduceKeeps(s, c, arrived, t);
        case Chan(i) => DeliverKeeps(s, i, arrived, t);
      }
    }
  }

  /** A completed query deregisters itself: the removal is the one of `Stop`, made by the I/O
      thread on the listener it is using. */
  lemma CompleteKeeps(s: State, t: State)
    requires Inv(s) && AtEnd(s) && Completing(s) && !Dead(s, s.io.ref) && Ended(s, t)
    ensures Inv(t)
  {
    var q := s.io.num;
    var u := t.(io := s.io.(cut := true));
    SubFacts(s, s.io.ref.sub);
    assert Unsubscribed(s, q, u);
    UnsubscribeKeeps(s, q, u);
    CutIdleKeeps(u, s.io.ref.sub);
  }

  lemma EndStep(s: State, t: State)
    requires Inv(s) && AtEnd(s) && Ended(s, t)
    ensures Inv(t)
  {
    if (s.io.ref.Req? || Completing(s)) && Dead(s, s.io.ref) { FaultKeeps(s); }
    else if Completing(s) { CompleteKeeps(s, t); }
    else { IdleKeeps(s); }
  }

  lemma StepKeeps(s: State, e: Event)
    requires Inv(s) && Enabled(s, e)
    ensures Inv(Apply(s, e))
  {
    StepIsStepped(s, e);
    SteppedKeeps(s, e, Apply(s, e));
  }

  // ---------- every run ----------

  lemma {:induction false} RunKeeps(es: seq<Event>)
    requires Exec(es).Some?
    ensures Inv(Exec(es).value)
  {
    if es == [] { InitKeeps(); } else {
      RunKeeps(es[..|es| - 1]);
      StepKeeps(Exec(es[..|es| - 1]).value, es[|es| - 1]);
    }
  }
}
