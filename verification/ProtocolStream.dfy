/** The step machine over a whole run, seen as a decode loop: what its lookups and produces amount to is the
    filter of `Demux`, at the live entries that were there when each object was taken. */
module ProtocolStream {
  import opened Options
  import opened Messages
  import Demux
  import opened Protocol
  import opened ProtocolInvariant
  import opened ProtocolPreservation
  import opened ProtocolTheorems
  import opened ProtocolRefinement
  import opened Sequences

  /** A record of the present connection: the live entries at each object taken, the positions at which the
      decoder had no body for a channel that wanted one, and the deliveries. */
  datatype Tape = Tape(views: seq<Demux.View<Ref>>, cuts: set<nat>, made: seq<Demux.Delivery<Ref>>)

  const BLANK: Tape := Tape([], {}, [])

  /** What one event adds to the record. */
  ghost function Record(tape: Tape, s: State, e: Event): Tape {
    match e
    case Lookup => tape.(views := tape.views + [ViewOf(s)])
    case Produce(arrived, _) =>
      if s.io.Busy? && s.io.msg < |s.log| && (arrived ==> HasNext(s)) && !Dead(s, s.io.ref)
      then MadeOne(tape, s, arrived) else tape
    case Close => BLANK
    case _ => tape
  }

  /** A `produce`. The header was the last object taken. */
  ghost function MadeOne(tape: Tape, s: State, arrived: bool): Tape
    requires s.io.Busy? && s.io.msg < |s.log| && (arrived ==> HasNext(s))
  {
    var at := if tape.views == [] then 0 else |tape.views| - 1;
    var wants := WantsBody(s, s.io.ref);
    var payload := if !wants then Demux.NoBody else if arrived then Demux.Body(NextObject(s)) else Demux.Missing;
    Tape(if wants && arrived then tape.views + [ViewOf(s)] else tape.views,
         if wants && !arrived then tape.cuts + {|tape.views|} else tape.cuts,
         tape.made + [Demux.Delivery(at, s.io.ref, s.log[s.io.msg].hdr, payload)])
  }

  ghost function TapeOf(es: seq<Event>): Tape
    requires Exec(es).Some?
  {
    if es == [] then BLANK
    else
      var before := es[..|es| - 1];
      Record(TapeOf(before), Exec(before).value, es[|es| - 1])
  }

  // ---------- where the decoder stands ----------

  /** The I/O thread has found a channel and not yet produced to it. */
  predicate InHand(s: State) { s.io.Busy? && s.io.stage != Producing }

  /** The last header taken is not done with: its channel is in hand, or its body is still in the stream. */
  predicate Open(s: State) { s.mid || InHand(s) }

  predicate Placed(s: State) { s.read <= |s.log| && (Open(s) ==> 0 < s.read) }

  /** How many messages are done with. */
  function Done(s: State): nat
    requires Placed(s)
  {
    if Open(s) then s.read - 1 else s.read
  }

  function Frame(m: Message): Demux.Frame { Demux.Frame(m.hdr, m.body) }

  lemma WireSnoc(log: seq<Message>, k: nat)
    requires k < |log|
    ensures Wire(log[..k + 1]) == Wire(log[..k]) + [Frame(log[k])]
  {
  }

  lemma WirePrefix(log: seq<Message>, log': seq<Message>, k: nat)
    requires k <= |log| && log <= log'
    ensures Wire(log'[..k]) == Wire(log[..k])
  {
    assert log'[..k] == log[..k];
  }

  // ---------- the invariant of the record ----------

  /** The messages done with were filtered, at views to which they were aligned. */
  ghost predicate Filtered(msgs: seq<Demux.Frame>, full: seq<Demux.View<Ref>>, cuts: set<nat>,
                           made: seq<Demux.Delivery<Ref>>)
  {
    && |full| == |Demux.Flatten(msgs)| && Demux.Aligned(msgs, full)
    && made == Demux.Filter(msgs, full, 0, cuts)
  }

  /** The message whose channel is in hand: it was found at `v`. */
  ghost predicate FoundAt(s: State, v: Demux.View<Ref>)
    requires Placed(s) && InHand(s)
  {
    var m := s.log[s.read - 1];
    && s.io.num == m.hdr.Seq && m.hdr.Seq < U64
    && s.io.num in v && v[s.io.num] == Demux.Target(s.io.ref, RoleOf(s, s.io.ref))
    && (WantsBody(s, s.io.ref) <==> m.body.Some?) && (s.mid <==> m.body.Some?)
  }

  /** The message whose body is still in the stream: it found no channel, or the body was missing. */
  ghost predicate LeftAt(s: State, v: Demux.View<Ref>, mid: nat, cuts: set<nat>)
    requires Placed(s) && Open(s)
  {
    var m := s.log[s.read - 1];
    && m.hdr.Seq < U64 && m.body.Some?
    && (m.hdr.Seq in v ==> v[m.hdr.Seq].WantsBody() && mid in cuts)
  }

  /** `full` are the views at the messages done with, `v` the one at the header that is not. */
  ghost predicate Follows(s: State, full: seq<Demux.View<Ref>>, v: Option<Demux.View<Ref>>, tape: Tape) {
    && Placed(s) && (v.Some? <==> Open(s))
    && var msgs := Wire(s.log[..Done(s)]);
       var mid := |full| + 1;
       match v
       case None => tape.views == full && Filtered(msgs, full, tape.cuts, tape.made) && Below(tape.cuts, |full|)
       case Some(w) =>
         && tape.views == full + [w]
         && if InHand(s) then Filtered(msgs, full, tape.cuts, tape.made) && Below(tape.cuts, |full|) && FoundAt(s, w)
            else
              && LeftAt(s, w, mid, tape.cuts) && Below(tape.cuts, mid)
              && HalfDone(msgs, full, Frame(s.log[s.read - 1]), w, tape.cuts, tape.made)
  }

  ghost predicate Below(cuts: set<nat>, end: nat) { forall c :: c in cuts ==> c <= end }

  ghost predicate HalfDone(msgs: seq<Demux.Frame>, full: seq<Demux.View<Ref>>, m: Demux.Frame, v: Demux.View<Ref>,
                           cuts: set<nat>, made: seq<Demux.Delivery<Ref>>)
  {
    && |full| == |Demux.Flatten(msgs)| && Demux.Aligned(msgs, full)
    && made == Demux.Filter(msgs, full, 0, cuts) + Demux.Deliver(m, v, |full|, cuts)
  }

  // ---------- a message is done with ----------

  /** Whole, at the views `vm`. */
  lemma OneMessageMore(msgs: seq<Demux.Frame>, full: seq<Demux.View<Ref>>, m: Demux.Frame, vm: seq<Demux.View<Ref>>,
                       cuts: set<nat>, made: seq<Demux.Delivery<Ref>>)
    requires |vm| == |Demux.Packed(m)| && Demux.InStep(m, vm) && HalfDone(msgs, full, m, vm[0], cuts, made)
    ensures Filtered(msgs + [m], full + vm, cuts, made)
  {
    Demux.AlignedSnoc(msgs, full, m, vm);
    Demux.FilterSnoc(msgs, full, m, vm, 0, |full|, cuts);
  }

  /** A message in hand is delivered. */
  lemma OneDeliveryMore(msgs: seq<Demux.Frame>, full: seq<Demux.View<Ref>>, m: Demux.Frame, v: Demux.View<Ref>,
                        cuts: set<nat>, made: seq<Demux.Delivery<Ref>>, d: Demux.Delivery<Ref>)
    requires Filtered(msgs, full, cuts, made) && Demux.Deliver(m, v, |full|, cuts) == [d]
    ensures HalfDone(msgs, full, m, v, cuts, made + [d])
  {
  }

  /** A message is skipped. */
  lemma NoDelivery(msgs: seq<Demux.Frame>, full: seq<Demux.View<Ref>>, m: Demux.Frame, v: Demux.View<Ref>,
                   cuts: set<nat>, made: seq<Demux.Delivery<Ref>>)
    requires Filtered(msgs, full, cuts, made) && m.hdr.Seq !in v
    ensures HalfDone(msgs, full, m, v, cuts, made)
  {
  }

  lemma CutInFront(msgs: seq<Demux.Frame>, full: seq<Demux.View<Ref>>, cuts: set<nat>,
                   made: seq<Demux.Delivery<Ref>>, mid: nat)
    requires Filtered(msgs, full, cuts, made) && |full| <= mid
    ensures Filtered(msgs, full, cuts + {mid}, made)
  {
    Demux.CutBehind(msgs, full, 0, cuts, mid);
  }

  // ---------- every event ----------

  /** The decoder and the channel in hand are where they were. */
  ghost predicate SamePlace(s: State, t: State) {
    && Placed(t) && t.read == s.read && t.mid == s.mid && s.log <= t.log && (InHand(t) <==> InHand(s))
    && (InHand(s) ==> t.io.num == s.io.num && t.io.ref == s.io.ref && RoleOf(t, s.io.ref) == RoleOf(s, s.io.ref))
  }

  lemma StayFollows(s: State, t: State, full: seq<Demux.View<Ref>>, v: Option<Demux.View<Ref>>, tape: Tape)
    requires Follows(s, full, v, tape) && SamePlace(s, t)
    ensures Follows(t, full, v, tape)
  {
    WirePrefix(s.log, t.log, Done(s));
  }

  lemma OthersStay(s: State, e: Event, t: State)
    requires Stepped(s, e, t) && Placed(s) && IoOk(s) && !e.Lookup? && !e.Produce? && !e.Close?
    ensures SamePlace(s, t)
  {
    if e.Send? || e.Reply? || e.Emit? || e.Erase? || e.EndProduce? { OutsideStays(s, e, t); }
    else { CallStays(s, e, t); }
  }

  lemma OutsideStays(s: State, e: Event, t: State)
    requires Stepped(s, e, t) && Placed(s) && IoOk(s) && (e.Send? || e.Reply? || e.Emit? || e.Erase? || e.EndProduce?)
    ensures SamePlace(s, t)
  {
  }

  lemma CallStays(s: State, e: Event, t: State)
    requires Stepped(s, e, t) && Placed(s) && IoOk(s)
    requires e.EndWait? || e.Check? || e.Remove? || e.Install? || e.Cancel? || e.Finish? || e.Return?
    ensures SamePlace(s, t)
  {
  }

  /** An orphan body is dropped. */
  lemma OrphanFollows(s: State, t: State, full: seq<Demux.View<Ref>>, v: Option<Demux.View<Ref>>,
                      tape: Tape, w: Demux.View<Ref>)
    requires Follows(s, full, v, tape) && s.mid && s.io.Idle? && t == s.(mid := false)
    requires 0 !in w && s.log[s.read - 1].body.Some? && Unroutable(s.log[s.read - 1].body.value)
    ensures Follows(t, full + [v.value, w], None, tape.(views := tape.views + [w]))
  {
    var m := Frame(s.log[s.read - 1]);
    WireSnoc(s.log, s.read - 1);
    OneMessageMore(Wire(s.log[..s.read - 1]), full, m, [v.value, w], tape.cuts, tape.made);
    assert full + [v.value] + [w] == full + [v.value, w];
  }

  /** The next header is looked up: its channel is in hand, or it has none. */
  lemma LookupFollows(s: State, t: State, full: seq<Demux.View<Ref>>, v: Option<Demux.View<Ref>>, tape: Tape)
    returns (full': seq<Demux.View<Ref>>, v': Option<Demux.View<Ref>>)
    requires Follows(s, full, v, tape) && !s.mid && LookedUp(s, s.read, t) && HeadFits(s)
    ensures Follows(t, full', v', tape.(views := tape.views + [ViewOf(s)]))
  {
    var m, w := Frame(s.log[s.read]), ViewOf(s);
    WireSnoc(s.log, s.read);
    if m.hdr.Seq in w {
      full', v' := full, Some(w);
      assert RoleOf(t, t.io.ref) == RoleOf(s, t.io.ref);
    } else {
      NoDelivery(Wire(s.log[..s.read]), full, m, w, tape.cuts, tape.made);
      if m.body.Some? { full', v' := full, Some(w); }
      else {
        full', v' := full + [w], None;
        OneMessageMore(Wire(s.log[..s.read]), full, m, [w], tape.cuts, tape.made);
      }
    }
  }

  /** The next header is the agent's, and a channel it finds wants a body exactly when one follows. */
  ghost predicate HeadFits(s: State) {
    s.read < |s.log| ==>
      var m := s.log[s.read];
      m.hdr.Seq < U64 && (m.hdr.Seq in ViewOf(s) ==> (ViewOf(s)[m.hdr.Seq].WantsBody() <==> m.body.Some?))
  }

  /** What a `produce` to a living channel leaves of the decoder. */
  ghost predicate Handed(s: State, arrived: bool, t: State) {
    && InHand(s) && s.read <= |s.log| && s.io.msg == s.read - 1 && 0 < s.read && s.log[s.io.msg].hdr.Seq == s.io.num
    && t.log == s.log && t.read == s.read && !InHand(t)
    && (arrived ==> HasNext(s)) && t.mid == (s.mid && !(arrived && WantsBody(s, s.io.ref)))
  }

  lemma ServedFollows(s: State, arrived: bool, t: State, full: seq<Demux.View<Ref>>, v: Option<Demux.View<Ref>>,
                      tape: Tape)
    returns (full': seq<Demux.View<Ref>>, v': Option<Demux.View<Ref>>)
    requires Follows(s, full, v, tape) && Handed(s, arrived, t)
    requires s.mid ==> Unroutable(s.log[s.read - 1].body.value) && 0 !in ViewOf(s)
    ensures Follows(t, full', v', MadeOne(tape, s, arrived))
  {
    var m, w, made := Frame(s.log[s.read - 1]), v.value, tape.made;
    var msgs, tape' := Wire(s.log[..s.read - 1]), MadeOne(tape, s, arrived);
    var d := tape'.made[|made|];
    WireSnoc(s.log, s.read - 1);
    if WantsBody(s, s.io.ref) && !arrived {
      full', v' := full, v;
      CutInFront(msgs, full, tape.cuts, made, |full| + 1);
      OneDeliveryMore(msgs, full, m, w, tape'.cuts, made, d);
    } else {
      var vm := if WantsBody(s, s.io.ref) then [w, ViewOf(s)] else [w];
      full', v' := full + vm, None;
      OneDeliveryMore(msgs, full, m, w, tape.cuts, made, d);
      OneMessageMore(msgs, full, m, vm, tape.cuts, tape'.made);
      assert full + [w] + [ViewOf(s)] == full + [w, ViewOf(s)];
    }
  }

  lemma ProduceHands(s: State, e: Event, t: State)
    requires Stepped(s, e, t) && e.Produce? && IoOk(s) && LogOk(s) && !Dead(s, s.io.ref) && (e.arrived ==> HasNext(s))
    ensures Handed(s, e.arrived, t)
  {
  }

  lemma StepFollows(s: State, e: Event, t: State, full: seq<Demux.View<Ref>>, v: Option<Demux.View<Ref>>, tape: Tape)
    returns (full': seq<Demux.View<Ref>>, v': Option<Demux.View<Ref>>)
    requires Inv(s) && !s.fault && Stepped(s, e, t) && Follows(s, full, v, tape)
    requires (e.Lookup? || (e.Produce? && e.arrived)) ==> HasNext(s)
    ensures Follows(t, full', v', Record(tape, s, e))
  {
    full', v' := full, v;
    if e.Lookup? { full', v' := FollowLookup(s, e, t, full, v, tape); }
    else if e.Produce? { full', v' := FollowProduce(s, e, t, full, v, tape); }
    else if e.Close? { full', v' := [], None; FollowClose(s, e, t, tape); }
    else { FollowOther(s, e, t, full, v, tape); }
  }

  lemma FollowOther(s: State, e: Event, t: State, full: seq<Demux.View<Ref>>, v: Option<Demux.View<Ref>>, tape: Tape)
    requires Inv(s) && Stepped(s, e, t) && Follows(s, full, v, tape) && !e.Lookup? && !e.Produce? && !e.Close?
    ensures Follows(t, full, v, Record(tape, s, e))
  {
    OthersStay(s, e, t);
    StayFollows(s, t, full, v, tape);
  }

  lemma FollowClose(s: State, e: Event, t: State, tape: Tape)
    requires Stepped(s, e, t) && e.Close?
    ensures Follows(t, [], None, Record(tape, s, e))
  {
    BlankFollows(t);
  }

  lemma BlankFollows(t: State)
    requires t.read == 0 && t.log == [] && !Open(t)
    ensures Follows(t, [], None, BLANK)
  {
    assert Wire(t.log[..0]) == [];
  }

  lemma FollowLookup(s: State, e: Event, t: State, full: seq<Demux.View<Ref>>, v: Option<Demux.View<Ref>>, tape: Tape)
    returns (full': seq<Demux.View<Ref>>, v': Option<Demux.View<Ref>>)
    requires Inv(s) && !s.fault && e.Lookup? && Stepped(s, e, t) && Follows(s, full, v, tape) && HasNext(s)
    ensures Follows(t, full', v', Record(tape, s, e))
  {
    HeadIsAligned(s);
    if s.mid {
      full', v' := full + [v.value, ViewOf(s)], None;
      OrphanFollows(s, t, full, v, tape, ViewOf(s));
    } else {
      full', v' := LookupFollows(s, t, full, v, tape);
    }
  }

  lemma FollowProduce(s: State, e: Event, t: State, full: seq<Demux.View<Ref>>, v: Option<Demux.View<Ref>>, tape: Tape)
    returns (full': seq<Demux.View<Ref>>, v': Option<Demux.View<Ref>>)
    requires Inv(s) && !s.fault && e.Produce? && Stepped(s, e, t) && Follows(s, full, v, tape)
    requires e.arrived ==> HasNext(s)
    ensures Follows(t, full', v', Record(tape, s, e))
  {
    hide Follows, Demux.Filter, MadeOne;
    full', v' := full, v;
    if Dead(s, s.io.ref) { StayFollows(s, t, full, v, tape); }
    else {
      ProduceHands(s, e, t);
      if s.mid { BodyHasNoEntry(s); }
      full', v' := ServedFollows(s, e.arrived, t, full, v, tape);
    }
  }

  /** The invariant of the record holds after every run. */
  lemma {:induction false} RunFollows(es: seq<Event>) returns (full: seq<Demux.View<Ref>>, v: Option<Demux.View<Ref>>)
    requires Exec(es).Some?
    ensures Follows(Exec(es).value, full, v, TapeOf(es))
  {
    if es == [] {
      full, v := [], None;
      BlankFollows(Init());
    } else {
      var before, e := es[..|es| - 1], es[|es| - 1];
      full, v := RunFollows(before);
      var s := Exec(before).value;
      RunKeeps(before);
      StepIsStepped(s, e);
      Takes(s, e);
      full, v := StepFollows(s, e, Exec(es).value, full, v, TapeOf(before));
    }
  }

  lemma Takes(s: State, e: Event)
    requires Enabled(s, e)
    ensures (e.Lookup? || (e.Produce? && e.arrived)) ==> HasNext(s)
  {
  }

  // ---------- the run as a decode loop ----------

  /** In every run, whenever no message is half done, the deliveries of the present connection are those of
      the filter over the messages taken, which is what the decode loop makes of their objects: at the live
      entries that were there as each object was taken, with a body missing exactly where the decoder had
      none, and with those entries aligned to the messages throughout. */
  lemma RunIsFilter(es: seq<Event>, s: State)
    requires Exec(es) == Some(s) && !Open(s)
    ensures s.read <= |s.log|
    ensures var msgs, tape := Wire(s.log[..s.read]), TapeOf(es);
            && |tape.views| == |Demux.Flatten(msgs)| && Demux.Aligned(msgs, tape.views)
            && tape.made == Demux.Filter(msgs, tape.views, 0, tape.cuts)
            && tape.made == Demux.Loop(Demux.Flatten(msgs), tape.views, 0, tape.cuts)
  {
    var full, v := RunFollows(es);
    Demux.CutLoopIsFilter(Wire(s.log[..s.read]), full, 0, TapeOf(es).cuts);
  }

  /** And in between, the deliveries are those of the messages before, with that of the message half done if
      its channel has been produced to. */
  lemma RunIsNearlyFilter(es: seq<Event>, s: State)
    requires Exec(es) == Some(s) && Open(s)
    ensures 0 < s.read <= |s.log|
    ensures var msgs, tape := Wire(s.log[..s.read - 1]), TapeOf(es);
            && |tape.views| == |Demux.Flatten(msgs)| + 1
            && var n := |Demux.Flatten(msgs)|;
               && Demux.Aligned(msgs, tape.views[..n])
               && tape.made == Demux.Filter(msgs, tape.views[..n], 0, tape.cuts) +
                    if InHand(s) then [] else Demux.Deliver(Frame(s.log[s.read - 1]), tape.views[n], n, tape.cuts)
  {
    var full, v := RunFollows(es);
    assert (full + [v.value])[..|full|] == full;
  }
}
