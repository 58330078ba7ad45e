/** What becomes of subscription channels over reconnections: exactly which are leaked. */
module ProtocolHeap {
  import opened Options
  import opened Messages
  import opened Protocol
  import opened ProtocolInvariant
  import opened ProtocolPreservation
  import opened ProtocolTheorems

  /** The channel still has its entry. */
  ghost predicate Mapped(s: State, i: nat) { i < |s.subs| && Registered(s, s.subs[i].num, Chan(i)) }

  /** A request of a later connection was sent with the number of this subscription. */
  ghost predicate Overwritten(s: State, i: nat) {
    i < |s.subs| && exists c :: TakesNumber(s, i, c)
  }

  ghost predicate TakesNumber(s: State, i: nat, c: nat)
    requires i < |s.subs|
  {
    c < |s.calls| && s.calls[c].sent && s.calls[c].num == s.subs[i].num && s.subs[i].epoch < s.calls[c].epoch
  }

  /** No step of any thread puts an existing listener back into the map. */
  lemma NeverMappedAgain(s: State, e: Event, q: nat, i: nat)
    requires Reachable(s) && Enabled(s, e) && i < |s.subs|
    ensures Registered(Apply(s, e), q, Chan(i)) ==> Registered(s, q, Chan(i))
  {
    ReachableIsSound(s);
    StepIsStepped(s, e);
    if Registered(Apply(s, e), q, Chan(i)) { OldListener(s, e, q, i, Apply(s, e)); }
  }

  lemma OldListener(s: State, e: Event, q: nat, i: nat, t: State)
    requires Stepped(s, e, t) && i < |s.subs| && Registered(t, q, Chan(i))
    ensures Registered(s, q, Chan(i))
  {
  }

  /** Every channel is deleted, or has its entry, or its number was taken, and never two of these. */
  ghost predicate Accounted(s: State) {
    forall i {:trigger Mapped(s, i)} :: 0 <= i < |s.subs| && s.subs[i].deletes == 0 ==>
      (Mapped(s, i) <==> !Overwritten(s, i))
  }

  /** Over all runs, reconnections included: a channel that was not deleted is out of the map, and so leaked,
      exactly when a request of a later connection was sent with its number. */
  lemma LeakedExactlyWhen(s: State, i: nat)
    requires Reachable(s) && i < |s.subs| && s.subs[i].deletes == 0
    ensures !Registered(s, s.subs[i].num, Chan(i)) <==> Overwritten(s, i)
  {
    var es :| Exec(es) == Some(s);
    assert es[..|es|] == es;
    AllAccounted(es, |es|, s);
    assert Mapped(s, i) <==> !Overwritten(s, i);
  }

  lemma {:induction false} AllAccounted(es: seq<Event>, n: nat, s: State)
    requires At(es, n, s)
    ensures Accounted(s)
  {
    if n == 0 { AtStart(es, s); } else {
      var u := Before(es, n, s);
      AllAccounted(es, n - 1, u);
      forall i | 0 <= i < |s.subs| && s.subs[i].deletes == 0 ensures Mapped(s, i) <==> !Overwritten(s, i) {
        StaysAccounted(u, es[n - 1], s, i);
      }
    }
  }

  lemma StaysAccounted(s: State, e: Event, t: State, i: nat)
    requires Inv(s) && !s.fault && Stepped(s, e, t) && i < |t.subs| && t.subs[i].deletes == 0
    requires i < |s.subs| && s.subs[i].deletes == 0 ==> (Mapped(s, i) <==> !Overwritten(s, i))
    ensures Mapped(t, i) <==> !Overwritten(t, i)
  {
    if e.Install? { InstallAccounts(s, e, t, i); }
    else if e.Send? { SendAccounts(s, e, t, i); }
    else { OthersAccount(s, e, t, i); }
  }

  lemma InstallAccounts(s: State, e: Event, t: State, i: nat)
    requires CallsOk(s) && e.Install? && Stepped(s, e, t) && i < |t.subs| && t.subs[i].deletes == 0
    requires i < |s.subs| && s.subs[i].deletes == 0 ==> (Mapped(s, i) <==> !Overwritten(s, i))
    ensures Mapped(t, i) <==> !Overwritten(t, i)
  {
    if i < |s.subs| { SameNumbersTaken(s, t, i); }
    else {
      forall c: nat ensures !TakesNumber(t, i, c) {
        if c < |t.calls| { assert CallOk(s, c) && t.calls[c].epoch == s.calls[c].epoch; }
      }
    }
  }

  lemma SendAccounts(s: State, e: Event, t: State, i: nat)
    requires Inv(s) && e.Send? && Stepped(s, e, t) && i < |t.subs| && t.subs[i].deletes == 0
    requires Mapped(s, i) <==> !Overwritten(s, i)
    ensures Mapped(t, i) <==> !Overwritten(t, i)
  {
    assert SubShape(s, i);
    if Overwritten(s, i) {
      var c: nat :| TakesNumber(s, i, c);
      assert TakesNumber(t, i, c);
      assert Mapped(t, i) ==> Mapped(s, i);
    } else if e.ok && s.counter == s.subs[i].num {
      assert s.subs[i].epoch < s.epoch by { NextIsUnused(s); }
      assert TakesNumber(t, i, |s.calls|);
    } else {
      forall c: nat ensures !TakesNumber(t, i, c) {
        assert c < |s.calls| ==> !TakesNumber(s, i, c);
      }
    }
  }

  ghost predicate SameTakers(s: State, t: State) {
    && |t.calls| == |s.calls|
    && forall c :: 0 <= c < |s.calls| ==>
         t.calls[c].sent == s.calls[c].sent && t.calls[c].num == s.calls[c].num && t.calls[c].epoch == s.calls[c].epoch
  }

  lemma SameNumbersTaken(s: State, t: State, i: nat)
    requires SameTakers(s, t) && i < |s.subs| && i < |t.subs|
    requires t.subs[i].num == s.subs[i].num && t.subs[i].epoch == s.subs[i].epoch
    ensures Overwritten(t, i) <==> Overwritten(s, i)
  {
    forall c: nat ensures TakesNumber(t, i, c) <==> TakesNumber(s, i, c) {}
  }

  lemma OthersAccount(s: State, e: Event, t: State, i: nat)
    requires Inv(s) && !s.fault && !e.Send? && !e.Install? && Stepped(s, e, t) && i < |t.subs| && t.subs[i].deletes == 0
    requires i < |s.subs| && s.subs[i].deletes == 0 ==> (Mapped(s, i) <==> !Overwritten(s, i))
    ensures Mapped(t, i) <==> !Overwritten(t, i)
  {
    OthersKeepSub(s, e, t, i);
    OthersKeepMapped(s, e, t, i);
    OthersKeepTakers(s, e, t);
    SameNumbersTaken(s, t, i);
  }

  lemma OthersKeepSub(s: State, e: Event, t: State, i: nat)
    requires IoOk(s) && !e.Install? && Stepped(s, e, t) && i < |t.subs| && t.subs[i].deletes == 0
    ensures i < |s.subs| && s.subs[i].deletes == 0
    ensures t.subs[i].num == s.subs[i].num && t.subs[i].epoch == s.subs[i].epoch
  {
  }

  lemma OthersKeepMapped(s: State, e: Event, t: State, i: nat)
    requires IoOk(s) && SubsOk(s) && !s.fault && !e.Send? && !e.Install? && Stepped(s, e, t)
    requires i < |s.subs| && i < |t.subs| && t.subs[i].deletes == 0 && t.subs[i].num == s.subs[i].num
    ensures Mapped(t, i) <==> Mapped(s, i)
  {
    if MapEvent(e) { RemovalKeepsMapped(s, e, t, i); } else { OthersKeepMap(s, e, t); }
  }

  lemma RemovalKeepsMapped(s: State, e: Event, t: State, i: nat)
    requires IoOk(s) && Stepped(s, e, t) && (e.Remove? || e.Cancel? || e.Erase? || e.EndProduce?)
    requires i < |s.subs| && i < |t.subs| && t.subs[i].deletes == 0 && t.subs[i].num == s.subs[i].num
    ensures Mapped(t, i) <==> Mapped(s, i)
  {
  }

  lemma OthersKeepTakers(s: State, e: Event, t: State)
    requires !e.Send? && Stepped(s, e, t)
    ensures SameTakers(s, t)
  {
    if e.Lookup? || e.Produce? { IoKeepsTakers(s, e, t); }
  }

  lemma IoKeepsTakers(s: State, e: Event, t: State)
    requires (e.Lookup? || e.Produce?) && Stepped(s, e, t)
    ensures SameTakers(s, t)
  {
  }
}
