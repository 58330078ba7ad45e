/** The step machine's decoder is the decode loop of `Demux`, and it meets that loop's assumptions. */
module ProtocolRefinement {
  import opened Messages
  import Demux
  import opened Protocol
  import opened ProtocolInvariant
  import opened ProtocolPreservation
  import opened ProtocolTheorems

  function Wire(log: seq<Message>): seq<Demux.Frame> {
    seq(|log|, i requires 0 <= i < |log| => Demux.Frame(log[i].hdr, log[i].body))
  }

  /** The objects the decoder has yet to give. */
  ghost function Remaining(s: State): seq<Object>
    requires s.read <= |s.log| && (s.mid ==> 0 < s.read && s.log[s.read - 1].body.Some?)
  {
    (if s.mid then [s.log[s.read - 1].body.value] else []) + Demux.Flatten(Wire(s.log[s.read..]))
  }

  /** Taking an object in the machine is taking the first object of the flattened messages. */
  lemma TakeIsHead(s: State)
    requires HasNext(s)
    ensures Remaining(s) != [] && NextObject(s) == Remaining(s)[0]
    ensures Remaining(Take(s)) == Remaining(s)[1..]
  {
    if !s.mid {
      var w := Wire(s.log[s.read..]);
      assert w[0] == Demux.Frame(s.log[s.read].hdr, s.log[s.read].body);
      assert w[1..] == Wire(s.log[s.read + 1..]);
      assert Demux.Flatten(w) == Demux.Packed(w[0]) + Demux.Flatten(w[1..]);
    }
  }

  /** What a channel is. */
  function RoleOf(s: State, r: Ref): Demux.Role {
    match r
    case Req(c) => if c < |s.calls| && s.calls[c].kind.Typed? then Demux.Typed else Demux.Plain
    case Chan(i) => Demux.Hears(if i < |s.subs| then s.subs[i].kind else LOG)
  }

  /** Whether its `produce` takes a body. */
  predicate WantsBody(s: State, r: Ref) { !RoleOf(s, r).Plain? }

  function ViewOf(s: State): Demux.View<Ref> {
    map q | q in s.registry :: Demux.Target(s.registry[q], RoleOf(s, s.registry[q]))
  }

  /** In every reachable state the loop's assumptions hold at the object to be taken, whatever the other
      threads have done to the map: at a body, whether its channel takes it or it is dropped, and at a
      header, which only an idle I/O thread takes. */
  lemma AlwaysAligned(s: State)
    requires Reachable(s) && !s.fault && HasNext(s) && (s.mid || s.io.Idle?)
    ensures if s.mid then Unroutable(NextObject(s)) && 0 !in ViewOf(s)
            else
              var m := s.log[s.read];
              && m.hdr.Seq < U64
              && (m.hdr.Seq in ViewOf(s) ==> (ViewOf(s)[m.hdr.Seq].WantsBody() <==> m.body.Some?))
  {
    ReachableIsSound(s);
    HeadIsAligned(s);
  }

  lemma HeadIsAligned(s: State)
    requires OwnerOk(s) && AgentOk(s) && LogOk(s) && RegistryOk(s) && CallsOk(s) && SubsOk(s) && RepliesOk(s)
    requires !s.fault && HasNext(s) && (s.mid || s.io.Idle?)
    ensures if s.mid then Unroutable(NextObject(s)) && 0 !in ViewOf(s)
            else
              var m := s.log[s.read];
              && m.hdr.Seq < U64
              && (m.hdr.Seq in ViewOf(s) ==> (ViewOf(s)[m.hdr.Seq].WantsBody() <==> m.body.Some?))
  {
    if s.mid {
      BodyHasNoEntry(s);
    } else {
      var q := s.log[s.read].hdr.Seq;
      assert MessageOk(s, s.read);
      if q in s.registry { FoundWhatItShould(s, s.read); EntryFacts(s, q); }
    }
  }

  // ---------- what `Client.SerfClient` relies on ----------

  /** A call between its send and its last critical section. */
  ghost predicate InFlight(s: State, c: nat) {
    && c < |s.calls| && s.calls[c].sent && s.calls[c].epoch == s.epoch
    && (Active(s.calls[c].phase) || s.calls[c].phase == Answered)
  }

  /** Its view of its channel and number: the entry is its own and unanswered, the channel is nowhere
      else, an answer carries the number, and data is there only for a typed call with an answer; that it
      converts is `ProtocolTheorems.DataWasConverted`. */
  ghost predicate OwnView(s: State, c: nat)
    requires c < |s.calls|
  {
    var call := s.calls[c];
    && (call.num in s.registry ==> s.registry[call.num] == Req(c) && !call.pending)
    && (forall p :: p in s.registry && s.registry[p] == Req(c) ==> p == call.num)
    && (call.pending ==> call.hdr.Seq == call.num)
    && (call.data.Some? ==> call.kind.Typed? && call.pending)
  }

  /** Every call in flight has that view, in every reachable state. */
  lemma CallView(s: State, c: nat)
    requires Reachable(s) && InFlight(s, c)
    ensures OwnView(s, c)
  {
    ReachableIsSound(s);
    InFlightIsMine(s, c);
  }

  lemma InFlightIsMine(s: State, c: nat)
    requires CallsOk(s) && RegistryOk(s) && LogOk(s) && SubsOk(s) && OwnerOk(s) && InFlight(s, c)
    ensures OwnView(s, c)
  {
    assert CallOk(s, c) && CallHeard(s, s.calls[c]);
    if s.calls[c].phase == Answered { SlotIsFree(s, c); }
    if s.calls[c].num in s.registry { EntryFacts(s, s.calls[c].num); }
    forall p | p in s.registry && s.registry[p] == Req(c) ensures p == s.calls[c].num && !s.calls[c].pending {
      assert EntryOk(s, p);
    }
  }

  /** The event is a step of this call itself. */
  predicate StepOf(e: Event, c: nat) {
    match e
    case EndWait(d) => d == c
    case Check(d) => d == c
    case Remove(d) => d == c
    case Install(d) => d == c
    case Cancel(d) => d == c
    case Finish(d) => d == c
    case Return(d) => d == c
    case _ => false
  }

  /** What everybody else may do to a call in flight: an answer, once given, stays, and a number without
      an entry does not get one. */
  ghost predicate Undisturbed(s: State, c: nat, t: State)
    requires c < |s.calls|
  {
    && SameAnswer(s, c, t)
    && (s.calls[c].num !in s.registry ==> s.calls[c].num !in t.registry)
  }

  ghost predicate SameAnswer(s: State, c: nat, t: State)
    requires c < |s.calls|
  {
    && t.epoch == s.epoch && c < |t.calls|
    && var u, v := s.calls[c], t.calls[c];
       && v.num == u.num && v.epoch == u.epoch && v.sent == u.sent && v.phase == u.phase
       && (u.pending ==> v.pending && v.hdr == u.hdr && v.data == u.data)
  }

  lemma OthersRespectCall(s: State, e: Event, c: nat)
    requires Reachable(s) && Enabled(s, e) && InFlight(s, c) && !StepOf(e, c)
    ensures InFlight(Apply(s, e), c) && Undisturbed(s, c, Apply(s, e))
  {
    ReachableIsSound(s);
    StepIsStepped(s, e);
    assert CallOk(s, c);
    OthersStep(s, e, c, Apply(s, e));
  }

  lemma OthersStep(s: State, e: Event, c: nat, t: State)
    requires Stepped(s, e, t) && InFlight(s, c) && !StepOf(e, c) && OwnerOk(s) && IoOk(s)
    requires s.calls[c].num in s.owner && s.owner[s.calls[c].num] == c
    ensures InFlight(t, c) && Undisturbed(s, c, t)
  {
    OthersKeepAnswer(s, e, c, t);
    if s.calls[c].num !in s.registry { OthersKeepSlotFree(s, e, c, t); }
  }

  lemma OthersKeepAnswer(s: State, e: Event, c: nat, t: State)
    requires Stepped(s, e, t) && InFlight(s, c) && !StepOf(e, c) && IoOk(s)
    ensures SameAnswer(s, c, t)
  {
    if e.Send? || e.Lookup? || e.Produce? || e.Erase? || e.EndProduce? { IoKeepsAnswer(s, e, c, t); }
    else { ClientsKeepAnswer(s, e, c, t); }
  }

  lemma IoKeepsAnswer(s: State, e: Event, c: nat, t: State)
    requires e.Send? || e.Lookup? || e.Produce? || e.Erase? || e.EndProduce?
    requires Stepped(s, e, t) && InFlight(s, c) && IoOk(s)
    ensures SameAnswer(s, c, t)
  {
  }

  lemma ClientsKeepAnswer(s: State, e: Event, c: nat, t: State)
    requires !e.Send? && !e.Lookup? && !e.Produce? && !e.Erase? && !e.EndProduce?
    requires Stepped(s, e, t) && InFlight(s, c) && !StepOf(e, c)
    ensures SameAnswer(s, c, t)
  {
  }

  lemma OthersKeepSlotFree(s: State, e: Event, c: nat, t: State)
    requires Stepped(s, e, t) && InFlight(s, c) && !StepOf(e, c) && OwnerOk(s)
    requires s.calls[c].num in s.owner && s.owner[s.calls[c].num] == c && s.calls[c].num !in s.registry
    ensures s.calls[c].num !in t.registry
  {
  }

  // ---------- what `IoThread.SerfIoThread` relies on ----------

  /** No step of any thread registers a request channel again: an entry of a call made earlier was there
      before the step. */
  lemma NeverRegisteredAgain(s: State, e: Event, q: nat, c: nat)
    requires Reachable(s) && Enabled(s, e) && c < |s.calls|
    ensures Registered(Apply(s, e), q, Req(c)) ==> Registered(s, q, Req(c))
  {
    ReachableIsSound(s);
    StepIsStepped(s, e);
    if Registered(Apply(s, e), q, Req(c)) { OldEntry(s, e, q, c, Apply(s, e)); }
  }

  lemma OldEntry(s: State, e: Event, q: nat, c: nat, t: State)
    requires Stepped(s, e, t) && c < |s.calls| && Registered(t, q, Req(c))
    ensures Registered(s, q, Req(c))
  {
  }
}
