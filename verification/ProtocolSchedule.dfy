/** The step machine over a whole run, seen as the schedule of one decode loop: what the other threads do to the map
    between the steps of the I/O thread, turn by turn. */
module ProtocolSchedule {
  import opened Options
  import opened Messages
  import Demux
  import opened Protocol
  import opened ProtocolInvariant
  import opened ProtocolPreservation
  import opened ProtocolTheorems
  import opened ProtocolRefinement
  import opened ProtocolStream
  import opened Schedule
  import opened Sequences
  import opened Decoder
  import opened Pump
  import Channels
  import IoThread

  // ---------- the steps of the other threads ----------

  /** What an event of another thread does to the map. */
  function ActsOf(s: State, e: Event): seq<Act<Ref>> {
    match e
    case Send(kind, _, ok) =>
      if ok then [Put(s.counter, Demux.Target(Req(|s.calls|), if kind.Typed? then Demux.Typed else Demux.Plain))]
      else []
    case Remove(c) => if c < |s.calls| then [Drop(s.calls[c].num)] else []
    case Install(c) =>
      if c < |s.calls| && s.calls[c].kind.Subscribe? then
        [Put(s.calls[c].num, Demux.Target(Chan(|s.subs|), Demux.Hears(s.calls[c].kind.listener)))]
      else []
    case Cancel(c) => if c < |s.calls| && s.calls[c].kind.Stop? then [Drop(s.calls[c].kind.target)] else []
    case _ => []
  }

  predicate OfTheIoThread(e: Event) { e.Lookup? || e.Erase? || e.Produce? || e.EndProduce? || e.Close? }

  /** What was registered before is what it was. */
  ghost predicate SameRoles(s: State, t: State) {
    && |s.calls| <= |t.calls| && (forall c :: 0 <= c < |s.calls| ==> t.calls[c].kind == s.calls[c].kind)
    && |s.subs| <= |t.subs| && (forall i :: 0 <= i < |s.subs| ==> t.subs[i].kind == s.subs[i].kind)
  }

  ghost predicate KnownEntries(s: State) {
    forall q :: q in s.registry ==>
      match s.registry[q] case Req(c) => c < |s.calls| case Chan(i) => i < |s.subs|
  }

  lemma EntriesAreKnown(s: State)
    requires RegistryOk(s)
    ensures KnownEntries(s)
  {
    forall q | q in s.registry ensures match s.registry[q] case Req(c) => c < |s.calls| case Chan(i) => i < |s.subs| {
      assert EntryOk(s, q);
    }
  }

  lemma ActsAreSteps(s: State, e: Event, t: State)
    requires Stepped(s, e, t) && !OfTheIoThread(e) && KnownEntries(s)
    ensures SameRoles(s, t) && ViewOf(t) == After(ViewOf(s), ActsOf(s, e))
  {
    hide ViewOf, After, ActsOf;
    if e.Send? { SendActs(s, e, t); }
    else if e.Remove? { RemoveActs(s, e.call, t); }
    else if e.Install? { InstallActs(s, e.call, t); }
    else if e.Cancel? { CancelActs(s, e.call, t); }
    else if e.Reply? || e.Emit? { SameEntries(s, t); NoActs(s, e); }
    else { PhaseActs(s, e, t); NoActs(s, e); }
  }

  lemma NoActs(s: State, e: Event)
    requires !e.Send? && !e.Remove? && !e.Install? && !e.Cancel?
    ensures After(ViewOf(s), ActsOf(s, e)) == ViewOf(s)
  {
  }

  lemma PhaseActs(s: State, e: Event, t: State)
    requires Stepped(s, e, t) && KnownEntries(s) && (e.EndWait? || e.Check? || e.Finish? || e.Return?)
    ensures SameRoles(s, t) && ViewOf(t) == ViewOf(s)
  {
    hide ViewOf;
    assert SameRoles(s, t) && t.registry == s.registry;
    SameEntries(s, t);
  }

  lemma SameEntries(s: State, t: State)
    requires KnownEntries(s) && SameRoles(s, t) && t.registry == s.registry
    ensures ViewOf(t) == ViewOf(s)
  {
  }

  lemma FewerEntries(s: State, t: State, q: nat)
    requires KnownEntries(s) && SameRoles(s, t) && t.registry == s.registry - {q}
    ensures ViewOf(t) == ViewOf(s) - {q}
  {
  }

  lemma MoreEntries(s: State, t: State, q: nat, r: Ref)
    requires KnownEntries(s) && SameRoles(s, t) && t.registry == s.registry[q := r]
    ensures ViewOf(t) == ViewOf(s)[q := Demux.Target(r, RoleOf(t, r))]
  {
  }

  lemma OneAct(v: Demux.View<Ref>, a: Act<Ref>)
    ensures After(v, [a]) == After1(v, a)
  {
    assert [a][..0] == [];
  }

  lemma SendActs(s: State, e: Event, t: State)
    requires e.Send? && Sent(s, e, t) && KnownEntries(s)
    ensures SameRoles(s, t) && ViewOf(t) == After(ViewOf(s), ActsOf(s, e))
  {
    hide ViewOf, After;
    if e.ok {
      MoreEntries(s, t, s.counter, Req(|s.calls|));
      OneAct(ViewOf(s), ActsOf(s, e)[0]);
    } else {
      SameEntries(s, t);
      Nothing(ViewOf(s));
    }
  }

  lemma Nothing(v: Demux.View<Ref>)
    ensures After(v, []) == v
  {
  }

  lemma RemoveActs(s: State, c: nat, t: State)
    requires Removed(s, c, t) && KnownEntries(s)
    ensures SameRoles(s, t) && ViewOf(t) == After(ViewOf(s), ActsOf(s, Remove(c)))
  {
    hide ViewOf, After;
    FewerEntries(s, t, s.calls[c].num);
    OneAct(ViewOf(s), Drop(s.calls[c].num));
  }

  lemma CancelActs(s: State, c: nat, t: State)
    requires Stepped(s, Cancel(c), t) && KnownEntries(s)
    ensures SameRoles(s, t) && ViewOf(t) == After(ViewOf(s), ActsOf(s, Cancel(c)))
  {
    hide ViewOf, After;
    FewerEntries(s, t, s.calls[c].kind.target);
    OneAct(ViewOf(s), Drop(s.calls[c].kind.target));
  }

  lemma InstallActs(s: State, c: nat, t: State)
    requires c < |s.calls| && Installed(s, c, s.calls[c].num, t) && KnownEntries(s)
    ensures SameRoles(s, t) && ViewOf(t) == After(ViewOf(s), ActsOf(s, Install(c)))
  {
    hide ViewOf, After;
    MoreEntries(s, t, s.calls[c].num, Chan(|s.subs|));
    OneAct(ViewOf(s), ActsOf(s, Install(c))[0]);
  }

  // ---------- the score of a run ----------

  /** How far the turn in progress is: its lookup is to come, or it has found a channel, or taken a request out of
      the map, or completed a query that has yet to be deregistered. */
  datatype Part = Ahead | AtFound | AtErased | AtDone

  /** The present connection as a decode loop: the live entries `start` it began with; the objects taken in the turns
      that are over, the live entries at each, their schedule, and the live entries after the last; and of the turn
      in progress what the other threads have done, the objects it has taken, and the live entries at those. */
  datatype Score = Score(start: Demux.View<Ref>, objs: seq<Object>, views: seq<Demux.View<Ref>>,
                         script: seq<Sched<Ref>>, live: Demux.View<Ref>,
                         part: Part, cur: Sched<Ref>, unit: seq<Object>, met: seq<Demux.View<Ref>>)

  const IDLE: Sched<Ref> := Sched([], [], [], [])

  function Blank(v: Demux.View<Ref>): Score { Score(v, [], [], [], v, Ahead, IDLE, [], []) }

  /** The turn in progress is over. */
  function Concluded(c: Score, live: Demux.View<Ref>): Score {
    Score(c.start, c.objs + c.unit, c.views + c.met, c.script + [c.cur], live, Ahead, IDLE, [], [])
  }

  function WithActs(c: Score, acts: seq<Act<Ref>>): Score {
    match c.part
    case Ahead => c.(cur := c.cur.(before := c.cur.before + acts))
    case AtFound => c.(cur := c.cur.(found := c.cur.found + acts))
    case AtErased => c.(cur := c.cur.(erased := c.cur.erased + acts))
    case AtDone => c.(cur := c.cur.(done := c.cur.done + acts))
  }

  function Takes1(c: Score, o: Object, v: Demux.View<Ref>): Score {
    c.(unit := c.unit + [o], met := c.met + [v])
  }

  /** What one event adds. */
  ghost function Scored(c: Score, s: State, e: Event): Score {
    match e
    case Lookup =>
      if !HasNext(s) then c
      else
        var d := Takes1(c, NextObject(s), ViewOf(s));
        if Demux.Route(NextObject(s), ViewOf(s)).Routed? then d.(part := AtFound) else Concluded(d, ViewOf(s))
    case Erase => if s.io.Busy? && !Dead(s, s.io.ref) then c.(part := AtErased) else c
    case Produce(arrived, _) =>
      if s.io.Busy? && (arrived ==> HasNext(s)) && !Dead(s, s.io.ref) then AtServe(c, s, arrived) else c
    case EndProduce =>
      if c.part.AtDone? && s.io.Busy? && !Dead(s, s.io.ref) then Concluded(c, ViewOf(s) - {s.io.num}) else c
    case Close => Blank(ViewOf(s))
    case _ => WithActs(c, ActsOf(s, e))
  }

  ghost function AtServe(c: Score, s: State, arrived: bool): Score
    requires s.io.Busy? && (arrived ==> HasNext(s))
  {
    if !(arrived && WantsBody(s, s.io.ref)) then Concluded(c, ViewOf(s))
    else
      var d := Takes1(c, NextObject(s), ViewOf(s));
      if EndsQuery(Demux.Target(s.io.ref, RoleOf(s, s.io.ref)), NextObject(s)) then d.(part := AtDone)
      else Concluded(d, ViewOf(s))
  }

  ghost function ScoreOf(es: seq<Event>): Score
    requires Exec(es).Some?
  {
    if es == [] then Blank(map[])
    else
      var before := es[..|es| - 1];
      Scored(ScoreOf(before), Exec(before).value, es[|es| - 1])
  }

  // ---------- what it says of the state ----------

  /** The channel in hand was found by the first object of the turn. */
  ghost predicate FoundNow(s: State, c: Score)
  {
    && |c.unit| == 1 && c.met == [After(c.live, c.cur.before)] && s.io.Busy?
    && (s.mid <==> WantsBody(s, s.io.ref))
    && var r := Demux.Route(c.unit[0], c.met[0]);
       r.Routed? && r.hdr.Seq == s.io.num && r.target == Demux.Target(s.io.ref, RoleOf(s, s.io.ref))
  }

  /** A query is completed and not yet deregistered. */
  ghost predicate CompletedNow(s: State, c: Score)
  {
    && |c.unit| == 2 && s.io.Busy?
    && c.met == [After(c.live, c.cur.before), After(After(c.live, c.cur.before), c.cur.found)]
    && var r := Demux.Route(c.unit[0], c.met[0]);
       r.Routed? && r.hdr.Seq == s.io.num && r.target == Demux.Target(s.io.ref, RoleOf(s, s.io.ref))
       && EndsQuery(r.target, c.unit[1])
  }

  /** The live entries are what the steps so far have made of them, and the turn is where the I/O thread is. */
  ghost predicate Turning(s: State, c: Score) {
    match c.part
    case Ahead =>
      && c.unit == [] && c.met == [] && c.cur == IDLE.(before := c.cur.before)
      && !InHand(s) && !Completing(s) && ViewOf(s) == After(c.live, c.cur.before)
    case AtFound =>
      && FoundNow(s, c) && c.cur.erased == [] && c.cur.done == []
      && s.io.stage == Found && ViewOf(s) == After(c.met[0], c.cur.found)
    case AtErased =>
      && FoundNow(s, c) && c.cur.done == [] && s.io.ref.Req?
      && s.io.stage == Erased && ViewOf(s) == After(After(c.met[0], c.cur.found) - {s.io.num}, c.cur.erased)
    case AtDone =>
      && CompletedNow(s, c) && c.cur.erased == []
      && s.io.stage == Producing && Completing(s) && ViewOf(s) == After(c.met[1], c.cur.done)
  }

  /** The turns so far are those of `Play`, at the views on the tape. */
  ghost predicate Played(c: Score, tape: Tape) {
    && tape.views == c.views + c.met && |c.views| == |c.objs| && |c.met| == |c.unit|
    && (forall x :: x in tape.cuts ==> x <= |c.objs|)
    && PlaysThrough(c.objs, c.start, c.script, tape.cuts, c.views, c.live)
  }

  /** These objects have been taken; the rest of the stream is to come. */
  ghost predicate Taken(s: State, objs: seq<Object>) {
    && s.read <= |s.log| && (s.mid ==> 0 < s.read && s.log[s.read - 1].body.Some?)
    && objs + Remaining(s) == Demux.Flatten(Wire(s.log))
  }

  // ---------- a step of another thread ----------

  lemma {:induction false} AfterMore(v: Demux.View<Ref>, acts: seq<Act<Ref>>, more: seq<Act<Ref>>)
    ensures After(v, acts + more) == After(After(v, acts), more)
  {
    if more == [] {
      assert acts + more == acts;
    } else {
      var n := |more| - 1;
      AfterMore(v, acts, more[..n]);
      assert (acts + more)[..|acts| + n] == acts + more[..n];
    }
  }

  /** What another thread leaves alone. */
  ghost predicate SameTurn(s: State, t: State) {
    && SamePlace(s, t) && t.io.Busy? == s.io.Busy? && (Completing(t) <==> Completing(s))
    && (s.io.Busy? ==> && t.io.stage == s.io.stage && t.io.num == s.io.num && t.io.ref == s.io.ref
                       && RoleOf(t, s.io.ref) == RoleOf(s, s.io.ref))
  }

  lemma OtherTurning(s: State, t: State, c: Score, acts: seq<Act<Ref>>)
    requires Turning(s, c) && SameTurn(s, t) && ViewOf(t) == After(ViewOf(s), acts)
    ensures Turning(t, WithActs(c, acts))
  {
    hide ViewOf, After, Completing, Demux.Route, RoleOf;
    match c.part {
      case Ahead => AfterMore(c.live, c.cur.before, acts);
      case AtFound => AfterMore(c.met[0], c.cur.found, acts);
      case AtErased => AfterMore(After(c.met[0], c.cur.found) - {s.io.num}, c.cur.erased, acts);
      case AtDone => AfterMore(c.met[1], c.cur.done, acts);
    }
  }

  /** The channel the I/O thread is at, and what it has been told. */
  ghost predicate SameIo(s: State, t: State) {
    && t.io.Busy? == s.io.Busy?
    && (s.io.Busy? ==> t.io.stage == s.io.stage && t.io.num == s.io.num && t.io.ref == s.io.ref)
    && s.log <= t.log && |s.subs| <= |t.subs|
    && (forall i :: 0 <= i < |s.subs| ==> t.subs[i].kind == s.subs[i].kind && t.subs[i].got == s.subs[i].got)
  }

  lemma SameIoCompletes(s: State, t: State)
    requires SameIo(s, t) && IoOk(s)
    ensures Completing(t) <==> Completing(s)
  {
  }

  lemma OthersSameIo(s: State, e: Event, t: State)
    requires Stepped(s, e, t) && !OfTheIoThread(e)
    ensures SameIo(s, t)
  {
    if e.Cancel? { CancelSameIo(s, e.call, t); }
    else if e.Send? || e.Reply? || e.Emit? { }
    else { CallSameIo(s, e, t); }
  }

  lemma CallSameIo(s: State, e: Event, t: State)
    requires Stepped(s, e, t) && (e.EndWait? || e.Check? || e.Remove? || e.Install? || e.Finish? || e.Return?)
    ensures SameIo(s, t)
  {
  }

  lemma CancelSameIo(s: State, c: nat, t: State)
    requires Stepped(s, Cancel(c), t)
    ensures SameIo(s, t)
  {
  }

  lemma OthersSameTurn(s: State, e: Event, t: State)
    requires Stepped(s, e, t) && !OfTheIoThread(e) && IoOk(s) && Placed(s) && SameRoles(s, t)
    ensures SameTurn(s, t)
  {
    hide Stepped, Completing;
    OthersStay(s, e, t);
    OthersSameIo(s, e, t);
    SameIoCompletes(s, t);
  }

  // ---------- the objects taken ----------

  lemma TakenStays(s: State, t: State, objs: seq<Object>)
    requires Taken(s, objs) && t.log == s.log && t.read == s.read && t.mid == s.mid
    ensures Taken(t, objs)
  {
  }

  lemma TakenOne(s: State, t: State, objs: seq<Object>)
    requires Taken(s, objs) && HasNext(s) && t.log == s.log && t.read == Take(s).read && t.mid == Take(s).mid
    ensures Taken(t, objs + [NextObject(s)])
  {
    hide Remaining, NextObject;
    TakeIsHead(s);
    SameRemaining(Take(s), t);
    HeadOver(objs, Remaining(s));
  }

  lemma SameRemaining(s: State, t: State)
    requires s.read <= |s.log| && (s.mid ==> 0 < s.read && s.log[s.read - 1].body.Some?)
    requires t.log == s.log && t.read == s.read && t.mid == s.mid
    ensures Remaining(t) == Remaining(s)
  {
  }

  lemma HeadOver(objs: seq<Object>, all: seq<Object>)
    requires all != []
    ensures (objs + [all[0]]) + all[1..] == objs + all
  {
  }

  lemma TakenGrows(s: State, t: State, objs: seq<Object>, m: Message)
    requires Taken(s, objs) && t.log == s.log + [m] && t.read == s.read && t.mid == s.mid
    ensures Taken(t, objs)
  {
    var f := Demux.Frame(m.hdr, m.body);
    var front, later := if s.mid then [s.log[s.read - 1].body.value] else [], Wire(s.log[s.read..]);
    assert t.log[s.read..] == s.log[s.read..] + [m];
    assert Wire(t.log) == Wire(s.log) + [f] && Wire(t.log[s.read..]) == later + [f];
    Demux.FlattenSnoc(Wire(s.log), f);
    Demux.FlattenSnoc(later, f);
    Assoc(front, Demux.Flatten(later), Demux.Packed(f));
    Assoc(objs, Remaining(s), Demux.Packed(f));
  }

  lemma OthersTake(s: State, e: Event, t: State, objs: seq<Object>)
    requires Stepped(s, e, t) && !OfTheIoThread(e) && Taken(s, objs) && IoOk(s) && Placed(s)
    ensures Taken(t, objs)
  {
    hide Taken;
    if e.Reply? || e.Emit? {
      assert t.log == s.log + [t.log[|s.log|]];
      TakenGrows(s, t, objs, t.log[|s.log|]);
    } else {
      OthersKeepLog(s, e, t);
      TakenStays(s, t, objs);
    }
  }

  lemma OthersKeepLog(s: State, e: Event, t: State)
    requires Stepped(s, e, t) && !OfTheIoThread(e) && !e.Reply? && !e.Emit?
    ensures t.log == s.log && t.read == s.read && t.mid == s.mid
  {
  }

  /** When no message is half done, they are the objects of the messages taken. */
  lemma TakenMessages(s: State, objs: seq<Object>)
    requires Taken(s, objs) && !s.mid
    ensures objs == Demux.Flatten(Wire(s.log[..s.read]))
  {
    var done, later := Wire(s.log[..s.read]), Wire(s.log[s.read..]);
    assert Wire(s.log) == done + later;
    Demux.FlattenAppend(done, later);
    assert objs + Demux.Flatten(later) == Demux.Flatten(done) + Demux.Flatten(later);
    SameFront(objs, Demux.Flatten(done), Demux.Flatten(later));
  }

  lemma SameFront(a: seq<Object>, b: seq<Object>, c: seq<Object>)
    requires a + c == b + c
    ensures a == b
  {
    assert |a| == |b|;
    assert (a + c)[..|a|] == a && (b + c)[..|a|] == b;
  }

  // ---------- the turns ----------

  lemma TakesPlayed(c: Score, tape: Tape, o: Object, v: Demux.View<Ref>)
    requires Played(c, tape)
    ensures Played(Takes1(c, o, v), tape.(views := tape.views + [v]))
  {
    hide PlaysThrough;
    Assoc(c.views, c.met, [v]);
  }

  /** The turn in progress is one of `Play`. */
  lemma TurnEnds(c: Score, tape: Tape, live: Demux.View<Ref>, cuts: set<nat>)
    requires Played(c, tape) && tape.cuts <= cuts <= tape.cuts + {|c.objs| + 1}
    requires Sealed(c.unit, |c.objs|, cuts, c.live, c.cur, c.met, live)
    ensures Played(Concluded(c, live), tape.(cuts := cuts))
  {
    hide PlaysThrough, OneTurn;
    assert c.unit != [];
    TurnOver(c.objs, c.start, c.script, tape.cuts, c.views, c.live, c.unit, c.cur, c.met, live, cuts);
    NothingBehind(c.views + c.met);
  }

  lemma NothingBehind<T>(x: seq<T>)
    ensures x + [] == x
  {
  }

  /** A turn that found no channel. */
  lemma SkipSealed(o: Object, at: nat, cuts: set<nat>, v: Demux.View<Ref>, sched: Sched<Ref>, found: Demux.View<Ref>)
    requires found == After(v, sched.before) && !Demux.Route(o, found).Routed?
    ensures Sealed([o], at, cuts, v, sched, [found], found)
  {
  }

  lemma AloneSealed(o: Object, at: nat, cuts: set<nat>, v: Demux.View<Ref>, sched: Sched<Ref>, found: Demux.View<Ref>,
                    h: ResponseHeader, t: Demux.Target<Ref>)
    requires found == After(v, sched.before) && Demux.Route(o, found) == Demux.Routed(h, t)
    requires t.WantsBody() ==> at + 1 in cuts
    ensures Sealed([o], at, cuts, v, sched, [found], AtProduce(t, h.Seq, found, sched))
  {
  }

  lemma PairSealed(o: Object, body: Object, at: nat, cuts: set<nat>, v: Demux.View<Ref>, sched: Sched<Ref>,
                   found: Demux.View<Ref>, h: ResponseHeader, t: Demux.Target<Ref>)
    requires found == After(v, sched.before) && Demux.Route(o, found) == Demux.Routed(h, t)
    requires t.WantsBody() && at + 1 !in cuts
    ensures var out := AtProduce(t, h.Seq, found, sched);
            Sealed([o, body], at, cuts, v, sched, [found, out],
                   if EndsQuery(t, body) then After(out, sched.done) - {h.Seq} else out)
  {
  }

  // ---------- lookup ----------

  /** A lookup that finds no channel. */
  lemma SkipScore(s: State, t: State, c: Score, tape: Tape)
    requires Turning(s, c) && Played(c, tape) && c.part.Ahead? && HasNext(s) && ViewOf(t) == ViewOf(s)
    requires !Demux.Route(NextObject(s), ViewOf(s)).Routed? && !InHand(t) && !Completing(t)
    ensures Turning(t, Scored(c, s, Lookup)) && Played(Scored(c, s, Lookup), tape.(views := tape.views + [ViewOf(s)]))
  {
    hide PlaysThrough, Played, ViewOf, Sealed, NextObject;
    var o, v := NextObject(s), ViewOf(s);
    TakesPlayed(c, tape, o, v);
    SkipSealed(o, |c.objs|, tape.cuts, c.live, c.cur, v);
    assert c.unit + [o] == [o] && c.met + [v] == [v];
    TurnEnds(Takes1(c, o, v), tape.(views := tape.views + [v]), v, tape.cuts);
    Nothing(v);
  }

  /** A lookup that finds one. */
  lemma FindScore(s: State, t: State, c: Score, tape: Tape)
    requires Turning(s, c) && Played(c, tape) && c.part.Ahead? && HasNext(s) && ViewOf(t) == ViewOf(s)
    requires var r := Demux.Route(NextObject(s), ViewOf(s));
             r.Routed? && t.io.Busy? && t.io.stage == Found && r.hdr.Seq == t.io.num &&
             r.target == Demux.Target(t.io.ref, RoleOf(t, t.io.ref))
    requires t.mid <==> WantsBody(t, t.io.ref)
    ensures Turning(t, Scored(c, s, Lookup)) && Played(Scored(c, s, Lookup), tape.(views := tape.views + [ViewOf(s)]))
  {
    hide PlaysThrough, ViewOf, NextObject, RoleOf;
    var o, v := NextObject(s), ViewOf(s);
    TakesPlayed(c, tape, o, v);
    assert c.unit + [o] == [o] && c.met + [v] == [v];
    Nothing(v);
  }

  lemma OrphanUnrouted(o: Object, v: Demux.View<Ref>)
    requires Unroutable(o) && 0 !in v
    ensures !Demux.Route(o, v).Routed?
  {
  }

  lemma HeaderRoutes(h: ResponseHeader, v: Demux.View<Ref>)
    requires h.Seq < U64
    ensures Demux.Route(PackHeader(h), v) == if h.Seq in v then Demux.Routed(h, v[h.Seq]) else Demux.Unrouted(h)
  {
    HeaderRoundTrip(h);
  }

  lemma LookupScore(s: State, t: State, c: Score, tape: Tape)
    requires Stepped(s, Lookup, t) && Turning(s, c) && Played(c, tape) && Taken(s, c.objs + c.unit) && HasNext(s)
    requires if s.mid then Unroutable(NextObject(s)) && 0 !in ViewOf(s) else HeadFits(s)
    requires KnownEntries(s)
    ensures var d := Scored(c, s, Lookup);
            && Turning(t, d) && Played(d, tape.(views := tape.views + [ViewOf(s)])) && Taken(t, d.objs + d.unit)
  {
    hide PlaysThrough, Played, ViewOf, Taken, RoleOf;
    LookupKeepsView(s, t);
    TakenOne(s, t, c.objs + c.unit);
    Assoc(c.objs, c.unit, [NextObject(s)]);
    NothingBehind(c.objs + (c.unit + [NextObject(s)]));
    if s.mid {
      OrphanUnrouted(NextObject(s), ViewOf(s));
      SkipScore(s, t, c, tape);
    } else {
      HeaderRoutes(s.log[s.read].hdr, ViewOf(s));
      if s.log[s.read].hdr.Seq in ViewOf(s) {
        FoundEntry(s, s.log[s.read].hdr.Seq, t);
        FindScore(s, t, c, tape);
      } else {
        NotFound(s, t);
        SkipScore(s, t, c, tape);
      }
    }
  }

  lemma LookupKeepsView(s: State, t: State)
    requires Stepped(s, Lookup, t) && KnownEntries(s)
    ensures SameRoles(s, t) && ViewOf(t) == ViewOf(s)
    ensures t.log == s.log && (HasNext(s) ==> t.read == Take(s).read && t.mid == Take(s).mid)
  {
    hide ViewOf;
    SameEntries(s, t);
  }

  lemma FoundEntry(s: State, q: nat, t: State)
    requires LookedUp(s, s.read, t) && q == s.log[s.read].hdr.Seq && q in ViewOf(s)
    requires SameRoles(s, t) && KnownEntries(s)
    ensures t.io.Busy? && t.io.stage == Found && t.io.num == q
    ensures ViewOf(s)[q] == Demux.Target(t.io.ref, RoleOf(t, t.io.ref))
  {
  }

  lemma NotFound(s: State, t: State)
    requires LookedUp(s, s.read, t) && s.log[s.read].hdr.Seq !in ViewOf(s)
    ensures t.io.Idle? && !InHand(t) && !Completing(t)
  {
  }

  // ---------- erase, produce and the end of it ----------

  /** Nothing happens but that the machine has met a fault. */
  lemma FaultTurning(s: State, t: State, c: Score)
    requires Turning(s, c) && t == s.(fault := true)
    ensures Turning(t, c)
  {
    hide After;
    assert ViewOf(t) == ViewOf(s);
  }

  lemma EraseTurning(s: State, t: State, c: Score)
    requires Stepped(s, Erase, t) && Turning(s, c) && KnownEntries(s)
    ensures Turning(t, Scored(c, s, Erase))
  {
    if s.io.Busy? && Dead(s, s.io.ref) { FaultTurning(s, t, c); }
    else {
      hide ViewOf, After, Completing, RoleOf;
      SameRolesErased(s, t);
      FewerEntries(s, t, s.io.num);
      Nothing(After(c.met[0], c.cur.found) - {s.io.num});
    }
  }

  lemma SameRolesErased(s: State, t: State)
    requires t.calls == s.calls && t.subs == s.subs
    ensures SameRoles(s, t) && forall r :: RoleOf(t, r) == RoleOf(s, r)
  {
  }

  /** The I/O thread is about to hand a message to a living channel. */
  ghost predicate InHandNow(s: State, c: Score) {
    s.io.Busy? && (c.part.AtFound? || c.part.AtErased?) && (c.part.AtFound? ==> s.io.ref.Chan?)
  }

  /** What it sees then. */
  lemma SeenAtProduce(s: State, c: Score)
    requires Turning(s, c) && InHandNow(s, c)
    ensures |c.unit| == 1 && |c.met| == 1 && c.met[0] == After(c.live, c.cur.before)
    ensures var r := Demux.Route(c.unit[0], c.met[0]);
            r.Routed? && r.hdr.Seq == s.io.num && r.target == Demux.Target(s.io.ref, RoleOf(s, s.io.ref)) &&
            ViewOf(s) == AtProduce(r.target, s.io.num, c.met[0], c.cur)
  {
    hide ViewOf, After, Demux.Route, Completing;
  }

  /** A `produce` that takes no body, because none is wanted or none is there. */
  lemma AloneScore(s: State, t: State, c: Score, tape: Tape, cuts: set<nat>)
    requires Turning(s, c) && Played(c, tape) && InHandNow(s, c)
    requires ViewOf(t) == ViewOf(s) && !InHand(t) && !Completing(t)
    requires cuts == if WantsBody(s, s.io.ref) then tape.cuts + {|tape.views|} else tape.cuts
    ensures Turning(t, Concluded(c, ViewOf(s))) && Played(Concluded(c, ViewOf(s)), tape.(cuts := cuts))
  {
    hide PlaysThrough, ViewOf, Sealed, AtProduce, Demux.Route, Completing, After;
    SeenAtProduce(s, c);
    var r := Demux.Route(c.unit[0], c.met[0]);
    assert |tape.views| == |c.objs| + 1;
    assert c.unit == [c.unit[0]] && c.met == [c.met[0]];
    AloneSealed(c.unit[0], |c.objs|, cuts, c.live, c.cur, c.met[0], r.hdr, r.target);
    TurnEnds(c, tape, ViewOf(s), cuts);
    Nothing(ViewOf(s));
  }

  /** A `produce` that takes the body. */
  lemma PairScore(s: State, t: State, c: Score, tape: Tape, body: Object)
    requires Turning(s, c) && Played(c, tape) && InHandNow(s, c) && ViewOf(t) == ViewOf(s) && WantsBody(s, s.io.ref)
    requires !EndsQuery(Demux.Target(s.io.ref, RoleOf(s, s.io.ref)), body) && !InHand(t) && !Completing(t)
    ensures var d := Concluded(Takes1(c, body, ViewOf(s)), ViewOf(s));
            Turning(t, d) && Played(d, tape.(views := tape.views + [ViewOf(s)]))
  {
    hide PlaysThrough, ViewOf, Sealed, AtProduce, Demux.Route, Completing, After, EndsQuery;
    SeenAtProduce(s, c);
    var r, v := Demux.Route(c.unit[0], c.met[0]), ViewOf(s);
    TakesPlayed(c, tape, body, v);
    assert c.unit + [body] == [c.unit[0], body] && c.met + [v] == [c.met[0], v];
    PairSealed(c.unit[0], body, |c.objs|, tape.cuts, c.live, c.cur, c.met[0], r.hdr, r.target);
    TurnEnds(Takes1(c, body, v), tape.(views := tape.views + [v]), v, tape.cuts);
    Nothing(v);
  }

  /** One that completes a query. */
  lemma DoneScore(s: State, t: State, c: Score, tape: Tape, body: Object)
    requires Turning(s, c) && Played(c, tape) && InHandNow(s, c) && ViewOf(t) == ViewOf(s)
    requires EndsQuery(Demux.Target(s.io.ref, RoleOf(s, s.io.ref)), body) && Completing(t)
    requires t.io == s.io.(stage := Producing) && RoleOf(t, s.io.ref) == RoleOf(s, s.io.ref)
    ensures var d := Takes1(c, body, ViewOf(s)).(part := AtDone);
            Turning(t, d) && Played(d, tape.(views := tape.views + [ViewOf(s)]))
  {
    hide PlaysThrough, ViewOf, Demux.Route, Completing, After;
    SeenAtProduce(s, c);
    TakesPlayed(c, tape, body, ViewOf(s));
    assert c.unit + [body] == [c.unit[0], body] && c.met + [ViewOf(s)] == [c.met[0], ViewOf(s)];
    Nothing(ViewOf(s));
  }

  /** The deregistration of the completed query. */
  lemma EndScore(s: State, t: State, c: Score, tape: Tape)
    requires Turning(s, c) && Played(c, tape) && c.part.AtDone? && ViewOf(t) == ViewOf(s) - {s.io.num} && t.io.Idle?
    ensures var d := Concluded(c, ViewOf(s) - {s.io.num}); Turning(t, d) && Played(d, tape)
  {
    hide PlaysThrough, ViewOf, Demux.Route, Sealed, After;
    var r, live := Demux.Route(c.unit[0], c.met[0]), ViewOf(s) - {s.io.num};
    assert c.unit == [c.unit[0], c.unit[1]] && c.met == [c.met[0], c.met[1]];
    PairSealed(c.unit[0], c.unit[1], |c.objs|, tape.cuts, c.live, c.cur, c.met[0], r.hdr, r.target);
    TurnEnds(c, tape, live, tape.cuts);
    Nothing(live);
  }

  lemma PlayedAlike(c: Score, tape: Tape, tape': Tape)
    requires Played(c, tape) && tape'.views == tape.views && tape'.cuts == tape.cuts
    ensures Played(c, tape')
  {
    hide PlaysThrough;
  }

  /** What a `produce` to a living channel does. */
  ghost predicate HandedOver(s: State, arrived: bool, t: State) {
    && s.io.Busy? && SameRoles(s, t) && t.registry == s.registry && t.log == s.log && t.read == s.read
    && !InHand(t) && t.mid == (s.mid && !(arrived && WantsBody(s, s.io.ref)))
    && RoleOf(t, s.io.ref) == RoleOf(s, s.io.ref)
  }

  lemma ResultHandedOver(s: State, c: nat, arrived: bool, t: State)
    requires Produced(s, c, arrived, t)
    ensures HandedOver(s, arrived, t) && !Completing(t) && !RoleOf(s, s.io.ref).Hears?
  {
  }

  lemma RecordHandedOver(s: State, i: nat, arrived: bool, t: State)
    requires Delivered(s, i, arrived, t) && IoOk(s) && s.mid && (arrived ==> HasNext(s))
    ensures HandedOver(s, arrived, t) && t.io == s.io.(stage := Producing)
    ensures Completing(t) <==>
              arrived && EndsQuery(Demux.Target(s.io.ref, RoleOf(s, s.io.ref)), NextObject(s))
  {
    assert t.subs[i].got[|t.subs[i].got| - 1] == Receipt(s.io.msg, arrived);
  }

  lemma InHandParts(s: State, c: Score)
    requires Turning(s, c) && s.io.Busy? && s.io.stage != Producing && (s.io.stage == Found ==> s.io.ref.Chan?)
    ensures InHandNow(s, c) && (s.mid <==> WantsBody(s, s.io.ref))
  {
    hide ViewOf, After, Demux.Route, Completing, RoleOf;
  }

  /** The three ends of a `produce`. */
  lemma HandedScore(s: State, t: State, c: Score, tape: Tape, arrived: bool)
    requires HandedOver(s, arrived, t) && KnownEntries(s) && s.io.msg < |s.log| && (arrived ==> HasNext(s))
    requires Turning(s, c) && Played(c, tape) && Taken(s, c.objs + c.unit) && InHandNow(s, c)
    requires s.mid <==> WantsBody(s, s.io.ref)
    requires var target := Demux.Target(s.io.ref, RoleOf(s, s.io.ref));
             Completing(t) <==> arrived && WantsBody(s, s.io.ref) && EndsQuery(target, NextObject(s))
    requires Completing(t) ==> t.io == s.io.(stage := Producing)
    ensures var d := AtServe(c, s, arrived);
            Turning(t, d) && Played(d, MadeOne(tape, s, arrived)) && Taken(t, d.objs + d.unit)
  {
    hide PlaysThrough, ViewOf, Turning, Played, Completing, RoleOf, EndsQuery, Taken, NextObject;
    SameEntries(s, t);
    var v, made := ViewOf(s), MadeOne(tape, s, arrived);
    if !(arrived && WantsBody(s, s.io.ref)) {
      AloneScore(s, t, c, tape, made.cuts);
      PlayedAlike(Concluded(c, v), tape.(cuts := made.cuts), made);
      TakenStays(s, t, c.objs + c.unit);
      NothingBehind(c.objs + c.unit);
    } else {
      var o := NextObject(s);
      var d := Takes1(c, o, v);
      TakenOne(s, t, c.objs + c.unit);
      Assoc(c.objs, c.unit, [o]);
      NothingBehind(c.objs + (c.unit + [o]));
      if Completing(t) {
        DoneScore(s, t, c, tape, o);
        PlayedAlike(d.(part := AtDone), tape.(views := made.views), made);
      } else {
        PairScore(s, t, c, tape, o);
        PlayedAlike(Concluded(d, v), tape.(views := made.views), made);
      }
    }
  }

  lemma ProduceScore(s: State, e: Event, t: State, c: Score, tape: Tape)
    requires Stepped(s, e, t) && e.Produce? && IoOk(s) && LogOk(s) && KnownEntries(s) && (e.arrived ==> HasNext(s))
    requires Turning(s, c) && Played(c, tape) && Taken(s, c.objs + c.unit)
    ensures var d := Scored(c, s, e); Turning(t, d) && Played(d, Record(tape, s, e)) && Taken(t, d.objs + d.unit)
  {
    hide PlaysThrough, ViewOf, Turning, Played, Completing, Taken, AtServe, MadeOne;
    if Dead(s, s.io.ref) {
      FaultTurning(s, t, c);
      TakenStays(s, t, c.objs + c.unit);
    } else {
      InHandParts(s, c);
      match s.io.ref {
        case Req(r) => ResultHandedOver(s, r, e.arrived, t);
        case Chan(i) => RecordHandedOver(s, i, e.arrived, t);
      }
      HandedScore(s, t, c, tape, e.arrived);
    }
  }

  lemma EndProduceScore(s: State, t: State, c: Score, tape: Tape)
    requires Stepped(s, EndProduce, t) && KnownEntries(s) && IoOk(s)
    requires Turning(s, c) && Played(c, tape) && Taken(s, c.objs + c.unit)
    ensures var d := Scored(c, s, EndProduce); Turning(t, d) && Played(d, tape) && Taken(t, d.objs + d.unit)
  {
    hide PlaysThrough, Played, ViewOf, Taken, After, Demux.Route, Completing, RoleOf, EndsQuery, SameRoles;
    hide FoundNow, CompletedNow;
    EndKeepsPlace(s, t);
    TakenStays(s, t, c.objs + c.unit);
    if (s.io.ref.Req? || Completing(s)) && Dead(s, s.io.ref) {
      FaultTurning(s, t, c);
    } else if Completing(s) {
      FewerEntries(s, t, s.io.num);
      EndScore(s, t, c, tape);
      NothingBehind(c.objs + c.unit);
    } else {
      SameEntries(s, t);
      IdleIsNotCompleting(t);
    }
  }

  lemma EndKeepsPlace(s: State, t: State)
    requires Stepped(s, EndProduce, t)
    ensures t.log == s.log && t.read == s.read && t.mid == s.mid && SameRoles(s, t)
  {
    hide Completing;
  }

  lemma IdleIsNotCompleting(t: State)
    requires t.io.Idle?
    ensures !Completing(t)
  {
  }

  lemma CloseScore(s: State, t: State)
    requires Stepped(s, Close, t) && KnownEntries(s)
    ensures var d := Blank(ViewOf(s)); Turning(t, d) && Played(d, BLANK) && Taken(t, d.objs + d.unit)
  {
    hide ViewOf, PlaysThrough;
    SameEntries(s, t);
    ThroughNothing(ViewOf(s));
    Nothing(ViewOf(s));
    NothingTaken(t);
  }

  lemma NothingTaken(t: State)
    requires t.log == [] && t.read == 0 && !t.mid
    ensures Taken(t, [])
  {
    assert Wire(t.log) == [] && Wire(t.log[0..]) == [];
  }

  lemma OtherScore(s: State, e: Event, t: State, c: Score, tape: Tape)
    requires Stepped(s, e, t) && !OfTheIoThread(e) && KnownEntries(s) && IoOk(s) && Placed(s)
    requires Turning(s, c) && Played(c, tape) && Taken(s, c.objs + c.unit)
    ensures var d := Scored(c, s, e); Turning(t, d) && Played(d, tape) && Taken(t, d.objs + d.unit)
  {
    hide PlaysThrough, Played, ViewOf, Taken, Turning, After, ActsOf, Stepped;
    ActsAreSteps(s, e, t);
    OthersSameTurn(s, e, t);
    OtherTurning(s, t, c, ActsOf(s, e));
    OthersTake(s, e, t, c.objs + c.unit);
    SameTurns(c, tape, ActsOf(s, e));
  }

  lemma SameTurns(c: Score, tape: Tape, acts: seq<Act<Ref>>)
    requires Played(c, tape)
    ensures Played(WithActs(c, acts), tape) && WithActs(c, acts).objs == c.objs && WithActs(c, acts).unit == c.unit
  {
    hide PlaysThrough;
  }

  // ---------- every event ----------

  /** The score fits the state and the tape. */
  ghost predicate Scores(s: State, c: Score, tape: Tape) {
    Turning(s, c) && Played(c, tape) && Taken(s, c.objs + c.unit)
  }

  lemma StepScores(s: State, e: Event, t: State, c: Score, tape: Tape)
    requires Inv(s) && !s.fault && Stepped(s, e, t) && Scores(s, c, tape)
    requires (e.Lookup? || (e.Produce? && e.arrived)) ==> HasNext(s)
    ensures Scores(t, Scored(c, s, e), Record(tape, s, e))
  {
    hide Played, Turning, Taken, Stepped;
    EntriesAreKnown(s);
    if e.Lookup? {
      LookupAligned(s, t);
      LookupScore(s, t, c, tape);
    } else if e.Produce? {
      ProduceScore(s, e, t, c, tape);
    } else if e.EndProduce? {
      EndProduceScore(s, t, c, tape);
    } else if e.Close? {
      CloseScore(s, t);
    } else if e.Erase? {
      EraseTurning(s, t, c);
      EraseTakes(s, t, c, tape);
    } else {
      OtherScore(s, e, t, c, tape);
    }
  }

  lemma LookupAligned(s: State, t: State)
    requires Inv(s) && !s.fault && Stepped(s, Lookup, t) && HasNext(s)
    ensures if s.mid then Unroutable(NextObject(s)) && 0 !in ViewOf(s) else HeadFits(s)
  {
    HeadIsAligned(s);
  }

  lemma EraseTakes(s: State, t: State, c: Score, tape: Tape)
    requires Stepped(s, Erase, t) && Played(c, tape) && Taken(s, c.objs + c.unit)
    ensures var d := Scored(c, s, Erase); Played(d, tape) && Taken(t, d.objs + d.unit)
  {
    hide PlaysThrough, Taken;
    TakenStays(s, t, c.objs + c.unit);
  }

  lemma {:induction false} RunScores(es: seq<Event>)
    requires Exec(es).Some?
    ensures Scores(Exec(es).value, ScoreOf(es), TapeOf(es))
  {
    hide Scores, Record, Scored;
    if es == [] {
      BlankScores();
    } else {
      var before, e := es[..|es| - 1], es[|es| - 1];
      RunScores(before);
      var s := Exec(before).value;
      RunKeeps(before);
      StepIsStepped(s, e);
      Takes(s, e);
      StepScores(s, e, Exec(es).value, ScoreOf(before), TapeOf(before));
    }
  }

  lemma BlankScores()
    ensures Scores(Init(), Blank(map[]), BLANK)
  {
    hide PlaysThrough;
    ThroughNothing<Ref>(map[]);
    Nothing(map[]);
    NothingTaken(Init());
  }

  // ---------- the run as a loop with a schedule ----------

  /** In every run, when no turn is half done: the decode loop over the objects of the messages taken, from the live
      entries the connection began with, interrupted as the other threads interrupted the I/O thread, meets at each
      object the live entries that were there in the run, and leaves those that are there now but for what the other
      threads have done since. */
  lemma RunIsPlay(es: seq<Event>, s: State)
    requires Exec(es) == Some(s) && !Open(s) && !Completing(s)
    ensures s.read <= |s.log|
    ensures var objs, c, tape := Demux.Flatten(Wire(s.log[..s.read])), ScoreOf(es), TapeOf(es);
            && Play(objs, c.start, c.script, 0, tape.cuts) == Show(tape.views, c.live, |c.script|)
            && ViewOf(s) == After(c.live, c.cur.before)
            && PlaysThrough(objs, c.start, c.script, tape.cuts, tape.views, c.live)
  {
    hide Play, PlaysThrough, ViewOf, After, Exec, ScoreOf, TapeOf, Completing;
    RunScores(es);
    var objs, c, tape := Demux.Flatten(Wire(s.log[..s.read])), ScoreOf(es), TapeOf(es);
    NothingBehind(c.objs);
    NothingBehind(c.views);
    TakenMessages(s, c.objs);
    ThroughEnds(objs, c.start, c.script, tape.cuts, tape.views, c.live);
  }

  lemma ThroughEnds(objs: seq<Object>, start: Demux.View<Ref>, script: seq<Sched<Ref>>, cuts: set<nat>,
                    views: seq<Demux.View<Ref>>, live: Demux.View<Ref>)
    requires PlaysThrough(objs, start, script, cuts, views, live)
    ensures Play(objs, start, script, 0, cuts) == Show(views, live, |script|)
  {
    hide Play, PlaysThrough;
    ThroughThen(objs, start, script, cuts, views, live, [], [], {});
    NothingToPlay(live, [], |objs|, cuts);
    assert objs + [] == objs && script + [] == script && cuts + {} == cuts && views + [] == views;
  }

  // ---------- nothing is registered twice ----------

  /** What the other threads have done to the map on the present connection, in order. */
  ghost function ActsSoFar(es: seq<Event>): seq<Act<Ref>>
    requires Exec(es).Some?
  {
    if es == [] then []
    else
      var before, e := es[..|es| - 1], es[|es| - 1];
      if e.Close? then [] else ActsSoFar(before) + ActsOf(Exec(before).value, e)
  }

  lemma {:induction false} AllActsMore(script: seq<Sched<Ref>>, d: Sched<Ref>)
    ensures AllActs(script + [d]) == AllActs(script) + Unroll(d, [])
  {
    if script == [] {
      assert [d][1..] == [] && AllActs([d]) == Unroll(d, AllActs([d][1..]));
    } else {
      assert (script + [d])[1..] == script[1..] + [d];
      AllActsMore(script[1..], d);
      UnrollMore(script[0], AllActs(script[1..]), Unroll(d, []));
    }
  }

  lemma UnrollMore(d: Sched<Ref>, a: seq<Act<Ref>>, b: seq<Act<Ref>>)
    ensures Unroll(d, a + b) == Unroll(d, a) + b
  {
    Assoc(d.done, a, b);
    Assoc(d.erased, d.done + a, b);
    Assoc(d.found, d.erased + (d.done + a), b);
    Assoc(d.before, d.found + (d.erased + (d.done + a)), b);
  }

  /** The schedule holds these steps, in this order. */
  ghost predicate Listed(c: Score, acts: seq<Act<Ref>>) {
    acts == AllActs(c.script) + Unroll(c.cur, [])
  }

  lemma ListedMore(s: State, c: Score, acts: seq<Act<Ref>>, more: seq<Act<Ref>>)
    requires Turning(s, c) && Listed(c, acts)
    ensures Listed(WithActs(c, more), acts + more)
  {
    hide ViewOf, After, Completing, FoundNow, CompletedNow;
    assert Unroll(WithActs(c, more).cur, []) == Unroll(c.cur, []) + more by { UnrollEnds(c, more); }
    Assoc(AllActs(c.script), Unroll(c.cur, []), more);
  }

  lemma UnrollEnds(c: Score, more: seq<Act<Ref>>)
    requires match c.part
             case Ahead => c.cur == IDLE.(before := c.cur.before)
             case AtFound => c.cur.erased == [] && c.cur.done == []
             case AtErased => c.cur.done == []
             case AtDone => true
    ensures Unroll(WithActs(c, more).cur, []) == Unroll(c.cur, []) + more
  {
  }

  lemma ListedOver(c: Score, live: Demux.View<Ref>, acts: seq<Act<Ref>>)
    requires Listed(c, acts)
    ensures Listed(Concluded(c, live), acts)
  {
    AllActsMore(c.script, c.cur);
  }

  lemma StepListed(s: State, e: Event, c: Score, acts: seq<Act<Ref>>)
    requires Turning(s, c) && Listed(c, acts)
    ensures Listed(Scored(c, s, e), if e.Close? then [] else acts + ActsOf(s, e))
  {
    hide ViewOf, Turning, NextObject, Demux.Route, RoleOf, EndsQuery, Listed, Concluded, ActsOf;
    if OfTheIoThread(e) { IoListed(s, e, c, acts); } else { ListedMore(s, c, acts, ActsOf(s, e)); }
  }

  lemma IoListed(s: State, e: Event, c: Score, acts: seq<Act<Ref>>)
    requires OfTheIoThread(e) && Listed(c, acts)
    ensures Listed(Scored(c, s, e), if e.Close? then [] else acts + ActsOf(s, e))
  {
    hide ViewOf, NextObject, Demux.Route, RoleOf, EndsQuery, Concluded;
    NothingBehind(acts);
    if e.Lookup? && HasNext(s) {
      ListedOver(Takes1(c, NextObject(s), ViewOf(s)), ViewOf(s), acts);
    } else if e.Produce? && s.io.Busy? && (e.arrived ==> HasNext(s)) {
      ListedOver(c, ViewOf(s), acts);
      if e.arrived { ListedOver(Takes1(c, NextObject(s), ViewOf(s)), ViewOf(s), acts); }
    } else if e.EndProduce? && s.io.Busy? {
      ListedOver(c, ViewOf(s) - {s.io.num}, acts);
    }
  }

  predicate Known(s: State, r: Ref) {
    match r case Req(c) => c < |s.calls| case Chan(i) => i < |s.subs|
  }

  /** The state in which the present connection began. */
  ghost function BeginOf(es: seq<Event>): State
    requires Exec(es).Some?
  {
    if es == [] then Init() else if es[|es| - 1].Close? then Exec(es).value else BeginOf(es[..|es| - 1])
  }

  /** Each channel is registered once, as what it is, and was not there at the beginning; and every send took the
      next number. */
  ghost predicate OnceEach(s: State, begin: State, acts: seq<Act<Ref>>) {
    && SameRoles(begin, s)
    && (forall i :: 0 <= i < |acts| && acts[i].Put? ==>
          && Known(s, acts[i].target.chan) && !Known(begin, acts[i].target.chan)
          && acts[i].target.role == RoleOf(s, acts[i].target.chan))
    && (forall i, j :: 0 <= i < j < |acts| && acts[i].Put? && acts[j].Put? ==>
          acts[i].target.chan != acts[j].target.chan)
    && InTurn(acts, 0) && (forall i :: 0 <= i < |acts| && Sends(acts[i]) ==> acts[i].q < s.counter)
  }

  lemma OnceStays(s: State, t: State, begin: State, acts: seq<Act<Ref>>)
    requires OnceEach(s, begin, acts) && SameRoles(s, t) && s.counter <= t.counter
    ensures OnceEach(t, begin, acts)
  {
  }

  lemma OnceMore(s: State, t: State, begin: State, acts: seq<Act<Ref>>, a: Act<Ref>)
    requires OnceEach(s, begin, acts) && SameRoles(s, t) && s.counter <= t.counter && Newly(s, a, t)
    ensures OnceEach(t, begin, acts + [a])
  {
    OnceStays(s, t, begin, acts);
    forall i | 0 <= i < |acts| && acts[i].Put? && a.Put? ensures acts[i].target.chan != a.target.chan {
      assert Known(s, acts[i].target.chan);
    }
    if a.Put? { NewSinceBegin(begin, s, a.target.chan); }
  }

  lemma NewSinceBegin(begin: State, s: State, r: Ref)
    requires SameRoles(begin, s) && !Known(s, r)
    ensures !Known(begin, r)
  {
  }

  /** A new channel is registered, by a send under the number of the counter. */
  ghost predicate Newly(s: State, a: Act<Ref>, t: State) {
    && (a.Put? ==> !Known(s, a.target.chan) && Known(t, a.target.chan) && a.target.role == RoleOf(t, a.target.chan))
    && (Sends(a) ==> a.q == s.counter && s.counter < t.counter && s.counter < U64)
  }

  lemma OthersOnce(s: State, e: Event, t: State, begin: State, acts: seq<Act<Ref>>)
    requires Stepped(s, e, t) && !OfTheIoThread(e) && KnownEntries(s) && OnceEach(s, begin, acts)
    ensures OnceEach(t, begin, acts + ActsOf(s, e))
  {
    hide OnceEach, ViewOf, After, Newly;
    ActsAreSteps(s, e, t);
    OthersCount(s, e, t);
    if |ActsOf(s, e)| == 1 {
      assert ActsOf(s, e) == [ActsOf(s, e)[0]];
      NewPut(s, e, t);
      OnceMore(s, t, begin, acts, ActsOf(s, e)[0]);
    } else {
      NothingBehind(acts);
      OnceStays(s, t, begin, acts);
    }
  }

  lemma OthersCount(s: State, e: Event, t: State)
    requires Stepped(s, e, t) && !e.Close?
    ensures s.counter <= t.counter
  {
    if e.Produce? || e.EndProduce? { ServiceCounts(s, e, t); }
  }

  lemma ServiceCounts(s: State, e: Event, t: State)
    requires Stepped(s, e, t) && (e.Produce? || e.EndProduce?)
    ensures t.counter == s.counter
  {
    hide Completing;
  }

  lemma NewPut(s: State, e: Event, t: State)
    requires Stepped(s, e, t) && !OfTheIoThread(e) && |ActsOf(s, e)| == 1
    ensures Newly(s, ActsOf(s, e)[0], t)
  {
  }

  lemma IoKeepsRoles(s: State, e: Event, t: State)
    requires Stepped(s, e, t) && OfTheIoThread(e)
    ensures SameRoles(s, t)
  {
    if e.Produce? || e.EndProduce? { ProduceKeepsRoles(s, e, t); }
  }

  lemma ProduceKeepsRoles(s: State, e: Event, t: State)
    requires Stepped(s, e, t) && (e.Produce? || e.EndProduce?)
    ensures SameRoles(s, t)
  {
    hide Completing;
  }

  lemma StepOnce(s: State, e: Event, t: State, begin: State, acts: seq<Act<Ref>>)
    requires Stepped(s, e, t) && KnownEntries(s) && OnceEach(s, begin, acts)
    ensures if e.Close? then OnceEach(t, t, []) else OnceEach(t, begin, acts + ActsOf(s, e))
  {
    hide Stepped, ViewOf, ActsOf, OnceEach;
    if e.Close? {
      BlankOnce(t);
    } else if OfTheIoThread(e) {
      IoKeepsRoles(s, e, t);
      OthersCount(s, e, t);
      IoDoesNothing(s, e);
      NothingBehind(acts);
      OnceStays(s, t, begin, acts);
    } else {
      OthersOnce(s, e, t, begin, acts);
    }
  }

  lemma BlankOnce(t: State)
    ensures OnceEach(t, t, [])
  {
  }

  lemma IoDoesNothing(s: State, e: Event)
    requires OfTheIoThread(e)
    ensures ActsOf(s, e) == []
  {
  }

  lemma {:induction false} RunListed(es: seq<Event>)
    requires Exec(es).Some?
    ensures Listed(ScoreOf(es), ActsSoFar(es)) && OnceEach(Exec(es).value, BeginOf(es), ActsSoFar(es))
  {
    hide Listed, OnceEach, Scored, ActsOf, Scores, Record, Turning;
    if es == [] {
      BlankListed();
      BlankOnce(Init());
    } else {
      var before, e := es[..|es| - 1], es[|es| - 1];
      var s := Exec(before).value;
      RunListed(before);
      RunTurning(before);
      RunKeeps(before);
      StepIsStepped(s, e);
      EntriesAreKnown(s);
      StepListed(s, e, ScoreOf(before), ActsSoFar(before));
      StepOnce(s, e, Exec(es).value, BeginOf(before), ActsSoFar(before));
    }
  }

  lemma RunTurning(es: seq<Event>)
    requires Exec(es).Some?
    ensures Turning(Exec(es).value, ScoreOf(es))
  {
    hide Turning, Played, Taken;
    RunScores(es);
  }

  lemma BlankListed()
    ensures Listed(Blank(map[]), [])
  {
    hide After;
  }

  /** In every run, each channel that another thread registers on a connection is a new one, as what it is, and every
      send takes the next number. */
  lemma RunRegistersOnce(es: seq<Event>, s: State)
    requires Exec(es) == Some(s)
    ensures var c := ScoreOf(es); OnceEach(s, BeginOf(es), AllActs(c.script + [c.cur]))
    ensures var c := ScoreOf(es); AllActs(c.script + [c.cur]) == ActsSoFar(es)
  {
    hide OnceEach, AllActs, Unroll, Exec, ScoreOf, ActsSoFar, BeginOf;
    RunListed(es);
    AllActsMore(ScoreOf(es).script, ScoreOf(es).cur);
  }

  /** So the schedule of a run is one that the class can be given: under other names, one for each channel and of the
      same role, all it registers is new to a class that has met no more than there was before the connection, and its
      sends take the numbers from 0 on. */
  lemma ScheduleCanBeGiven(es: seq<Event>, s: State, f: Ref -> Channels.Channel, known: set<object>)
    requires Exec(es) == Some(s)
    requires forall a, b :: Known(s, a) && Known(s, b) && a != b ==> Channels.ObjectOf(f(a)) != Channels.ObjectOf(f(b))
    requires forall a :: Known(s, a) ==> Channels.RoleOf(f(a)) == RoleOf(s, a)
    requires forall a :: Known(s, a) && !Known(BeginOf(es), a) ==> Channels.ObjectOf(f(a)) !in known
    ensures var c := ScoreOf(es);
            var acts := AllActs(RenamedScript(f, c.script + [c.cur]));
            IoThread.NewActs(acts, known, {}) && InTurn(acts, 0)
  {
    hide AllActs, Exec, ScoreOf, ActsSoFar, BeginOf, SameRoles, InTurn, RenamedScript, RoleOf;
    var c := ScoreOf(es);
    RunRegistersOnce(es, s);
    AllActsRenamed(f, c.script + [c.cur]);
    InTurnRenamed(f, AllActs(c.script + [c.cur]), 0);
  }

  // ---------- the class, on such a run ----------

  /** The class that reads the bytes of such a run's messages, from the live entries the run's connection began
      with, while the other threads do between its steps what they did in the run, and whose batches end in front of
      a body that is asked for exactly where the run's decoder had none: it meets the run's live entries, makes the
      run's deliveries and leaves the run's map, its channels being called by other names. */
  lemma ThreadFollowsRun<S>(es: seq<Event>, s: State, dec: Dec, stand: Stand<S>, f: Ref -> S, more: seq<Sched<S>>)
    requires Exec(es) == Some(s) && !Open(s) && !Completing(s) && s.read <= |s.log|
    requires SelfDelimiting(dec) && dec(stand.pending).None? && stand.views == []
    requires Objects(dec, stand.pending + Flat(Pieces(stand.polls, stand.incoming, stand.rounds))) ==
               Demux.Flatten(Wire(s.log[..s.read]))
    requires stand.live == RenamedView(f, ScoreOf(es).start)
    requires stand.script == RenamedScript(f, ScoreOf(es).script) + more
    requires SameSplits(Demux.Flatten(Wire(s.log[..s.read])), TapeOf(es).views, 0, TapeOf(es).cuts,
                        Demux.Ends(BatchesOf(dec, stand), 0))
    ensures var c, tape, after := ScoreOf(es), TapeOf(es), Pumped(dec, stand);
            && after.views == RenamedViews(f, tape.views) && after.script == more
            && after.trace == stand.trace + RenamedDeliveries(f, tape.made)
            && After(after.live, RenamedActs(f, c.cur.before)) == RenamedView(f, ViewOf(s))
  {
    hide Play, ViewOf, After, Exec, ScoreOf, TapeOf, Completing, PlaysThrough, Objects, Batches, Pieces, PlayBatches;
    hide Demux.Loop, Demux.DecodeBatches, Demux.Flatten, Demux.Filter, SelfDelimiting, SameSplits, Demux.Ends;
    var objs, c, tape := Demux.Flatten(Wire(s.log[..s.read])), ScoreOf(es), TapeOf(es);
    var batches := BatchesOf(dec, stand);
    RunIsPlay(es, s);
    RunIsFilter(es, s);
    AnySplitSameObjects(dec, stand.pending, Pieces(stand.polls, stand.incoming, stand.rounds));
    BatchesFollow(objs, batches, c.start, c.script, tape.cuts, tape.views, c.live, f, more);
    AfterRenamed(f, c.live, c.cur.before);
    assert [] + RenamedViews(f, tape.views) == RenamedViews(f, tape.views);
  }

  lemma BatchesFollow<S>(objs: seq<Object>, batches: seq<seq<Object>>, start: Demux.View<Ref>, script: seq<Sched<Ref>>,
                         cuts: set<nat>, views: seq<Demux.View<Ref>>, live: Demux.View<Ref>, f: Ref -> S,
                         more: seq<Sched<S>>)
    requires Play(objs, start, script, 0, cuts) == Show(views, live, |script|) && Flat(batches) == objs
    requires SameSplits(objs, views, 0, cuts, Demux.Ends(batches, 0))
    ensures var p := PlayBatches(batches, RenamedView(f, start), RenamedScript(f, script) + more, 0);
            && Flat(p.views) == RenamedViews(f, views) && p.live == RenamedView(f, live) && p.turns == |script|
            && Unplayed(RenamedScript(f, script) + more, p.turns) == more
            && |views| == |objs|
            && Demux.DecodeBatches(batches, p.views, 0) == RenamedDeliveries(f, Demux.Loop(objs, views, 0, cuts))
  {
    hide Play, PlayBatches, Demux.Loop, Demux.DecodeBatches, SameSplits, Demux.Ends, RenamedView, RenamedViews;
    hide RenamedDeliveries;
    var ends, v, all := Demux.Ends(batches, 0), RenamedView(f, start), RenamedScript(f, script) + more;
    PlayBySplits(objs, start, script, 0, cuts, ends);
    PlayRenamed(f, objs, start, script, 0, ends);
    PlayLonger(objs, v, RenamedScript(f, script), more, 0, ends);
    PlayBatchesIsPlay(batches, v, all, 0, ends);
    Demux.BatchesAreCuts(batches, PlayBatches(batches, v, all, 0).views, 0, ends);
    LoopBySplits(objs, views, 0, cuts, ends);
    LoopRenamed(f, objs, views, 0, ends);
  }
}
