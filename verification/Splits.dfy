/** What the ends of batches do to the decode loop at its own live entries: message by message, the loop of a stream
    that comes in pieces next to the loop of the same stream in one. */
module Splits {
  import opened Options
  import opened Messages
  import opened Sequences
  import opened Schedule
  import opened Decoder
  import opened Pump
  import Demux

  function Idle<R>(): Sched<R> { Sched([], [], [], []) }

  // ---------- one message ----------

  /** The message whose header stands at `base`: the live entries at its objects and those it leaves, while the
      other threads do as `d` says. */
  function Told<R>(m: Demux.Frame, v: Demux.View<R>, d: Sched<R>, base: nat, cuts: set<nat>): (s: Step<R>)
    ensures |s.views| == s.taken == |Demux.Packed(m)|
  {
    var found, q := After(v, d.before), m.hdr.Seq;
    if q !in found then Step(if m.body.Some? then [found, found] else [found], |Demux.Packed(m)|, found)
    else
      var out := AtProduce(found[q], q, found, d);
      match m.body
      case None => Step([found], 1, out)
      case Some(o) =>
        Step([found, out], 2, if base + 1 !in cuts && EndsQuery(found[q], o) then After(out, d.done) - {q} else out)
  }

  /** The body is left for a turn of its own: no channel was found, or the batch ended in front of it. */
  predicate BodyAlone<R>(m: Demux.Frame, v: Demux.View<R>, d: Sched<R>, base: nat, cuts: set<nat>) {
    m.body.Some? && (m.hdr.Seq !in After(v, d.before) || base + 1 in cuts)
  }

  /** The schedule begins with the message's, followed by an idle turn if its body has one of its own. */
  ghost predicate Begins<R>(script: seq<Sched<R>>, d: Sched<R>, alone: bool, rest: seq<Sched<R>>) {
    && First(script) == d && (alone ==> First(Later(script)) == Idle())
    && rest == if alone then Later(Later(script)) else Later(script)
  }

  /** The channel that the header finds, if any, wants a body exactly when one follows. */
  predicate Suits<R>(m: Demux.Frame, found: Demux.View<R>) {
    m.hdr.Seq < U64 && (m.hdr.Seq in found ==> (found[m.hdr.Seq].WantsBody() <==> m.body.Some?))
  }

  lemma HeaderTurn<R>(m: Demux.Frame, rest: seq<Object>, v: Demux.View<R>, d: Sched<R>, base: nat, cuts: set<nat>)
    requires Suits(m, After(v, d.before))
    ensures var t := OneTurn(PackHeader(m.hdr), Next(Demux.Packed(m) + rest, base, cuts), v, d);
            var s := Told(m, v, d, base, cuts);
            if BodyAlone(m, v, d, base, cuts) then t == Step([s.views[0]], 1, s.views[1]) && s.live == s.views[1]
            else t == s
  {
    HeaderRoundTrip(m.hdr);
  }

  /** The turn at an orphan body, with nobody else about. */
  lemma BodyTurn<R>(o: Object, body: Option<Object>, v: Demux.View<R>)
    requires Unroutable(o) && 0 !in v
    ensures OneTurn(o, body, v, Idle()) == Step([v], 1, v)
  {
  }

  /** The live entries met at the first message depend on no more than that its header suits them. */
  lemma FirstViews<R>(m: Demux.Frame, rest: seq<Object>, v: Demux.View<R>, d: Sched<R>, script: seq<Sched<R>>,
                      base: nat, cuts: set<nat>, later: seq<Sched<R>>)
    requires Suits(m, After(v, d.before)) && Begins(script, d, BodyAlone(m, v, d, base, cuts), later)
    ensures var p, s := Play(Demux.Packed(m) + rest, v, script, base, cuts), Told(m, v, d, base, cuts);
            |s.views| <= |p.views| && p.views[..|s.views|] == s.views
  {
    hide OneTurn, Play, Told, After;
    var objs, t := Demux.Packed(m) + rest, OneTurn(PackHeader(m.hdr), Next(Demux.Packed(m) + rest, base, cuts), v, d);
    HeaderTurn(m, rest, v, d, base, cuts);
    PlayStep(objs, v, script, base, cuts, Next(objs, base, cuts), t, objs[t.taken..], base + t.taken);
    if BodyAlone(m, v, d, base, cuts) {
      var left, next := objs[1..], base + 1;
      FirstOfPlay(left, t.live, Later(script), next, cuts);
    }
  }

  lemma FirstOfPlay<R>(objs: seq<Object>, v: Demux.View<R>, script: seq<Sched<R>>, base: nat, cuts: set<nat>)
    requires objs != [] && First(script) == Idle()
    ensures Play(objs, v, script, base, cuts).views[0] == v
  {
  }

  /** The loop at a message does with it what `Told` says, and is at the next header afterwards. */
  lemma OneMessage<R>(m: Demux.Frame, rest: seq<Object>, v: Demux.View<R>, d: Sched<R>, script: seq<Sched<R>>,
                      base: nat, cuts: set<nat>, later: seq<Sched<R>>, next: nat)
    requires Demux.InStep(m, Told(m, v, d, base, cuts).views) && next == base + |Demux.Packed(m)|
    requires Begins(script, d, BodyAlone(m, v, d, base, cuts), later)
    ensures var s := Told(m, v, d, base, cuts);
            Play(Demux.Packed(m) + rest, v, script, base, cuts) ==
              InFront(s.views, if BodyAlone(m, v, d, base, cuts) then 2 else 1, Play(rest, s.live, later, next, cuts))
  {
    hide OneTurn, Play, Told, After;
    var objs, s := Demux.Packed(m) + rest, Told(m, v, d, base, cuts);
    InStepSuits(m, v, d, base, cuts);
    HeaderTurn(m, rest, v, d, base, cuts);
    if BodyAlone(m, v, d, base, cuts) {
      var o, mid := m.body.value, base + 1;
      BodyTurn(o, Next([o] + rest, mid, cuts), s.live);
      PlayStep(objs, v, script, base, cuts, Next(objs, base, cuts), Step([s.views[0]], 1, s.live), [o] + rest, mid);
      PlayStep([o] + rest, s.live, Later(script), mid, cuts, Next([o] + rest, mid, cuts), Step([s.live], 1, s.live),
               rest, next);
      InFrontTwice([s.views[0]], 1, [s.live], 1, Play(rest, s.live, later, next, cuts));
    } else {
      DropAll(Demux.Packed(m), rest);
      PlayStep(objs, v, script, base, cuts, Next(objs, base, cuts), s, rest, next);
    }
  }

  lemma InStepSuits<R>(m: Demux.Frame, v: Demux.View<R>, d: Sched<R>, base: nat, cuts: set<nat>)
    requires Demux.InStep(m, Told(m, v, d, base, cuts).views)
    ensures Suits(m, After(v, d.before))
  {
  }

  // ---------- all of them ----------

  /** The live entries at each object, and those that each message leaves. */
  datatype Course<R> = Course(views: seq<Demux.View<R>>, left: seq<Demux.View<R>>)

  /** The loop over messages, with one schedule for each of them. */
  function CourseOf<R>(msgs: seq<Demux.Frame>, v: Demux.View<R>, plan: seq<Sched<R>>, base: nat, cuts: set<nat>):
    (c: Course<R>)
    ensures |c.views| == |Demux.Flatten(msgs)| && |c.left| == |msgs|
    decreases |msgs|
  {
    if msgs == [] then Course([], [])
    else
      var s := Told(msgs[0], v, First(plan), base, cuts);
      var c := CourseOf(msgs[1..], s.live, Later(plan), base + s.taken, cuts);
      Course(s.views + c.views, [s.live] + c.left)
  }

  function Last<R>(v: Demux.View<R>, left: seq<Demux.View<R>>): Demux.View<R> {
    if left == [] then v else left[|left| - 1]
  }

  /** The same schedule, turn by turn: an idle turn for every body that is left alone. */
  function Turns<R>(msgs: seq<Demux.Frame>, v: Demux.View<R>, plan: seq<Sched<R>>, base: nat, cuts: set<nat>):
    seq<Sched<R>>
    decreases |msgs|
  {
    if msgs == [] then []
    else
      var s := Told(msgs[0], v, First(plan), base, cuts);
      (if BodyAlone(msgs[0], v, First(plan), base, cuts) then [First(plan), Idle()] else [First(plan)])
      + Turns(msgs[1..], s.live, Later(plan), base + s.taken, cuts)
  }

  lemma TurnsBegin<R>(d: Sched<R>, alone: bool, rest: seq<Sched<R>>)
    ensures Begins((if alone then [d, Idle()] else [d]) + rest, d, alone, rest)
  {
    var script := (if alone then [d, Idle()] else [d]) + rest;
    assert Later(script) == if alone then [Idle()] + rest else rest;
  }

  /** The live entries the first message meets in the loop are those it meets in `CourseOf`. */
  lemma Meets<R>(msgs: seq<Demux.Frame>, v: Demux.View<R>, d: Sched<R>, script: seq<Sched<R>>, base: nat,
                 cuts: set<nat>, later: seq<Sched<R>>)
    requires msgs != [] && Begins(script, d, BodyAlone(msgs[0], v, d, base, cuts), later)
    requires Demux.Aligned(msgs, Play(Demux.Flatten(msgs), v, script, base, cuts).views)
    ensures Demux.InStep(msgs[0], Told(msgs[0], v, d, base, cuts).views)
  {
    hide OneTurn, Play, Told, After;
    var p, n := Play(Demux.Flatten(msgs), v, script, base, cuts), |Demux.Packed(msgs[0])|;
    FirstFound(msgs, v, d, script, base, cuts);
    FirstViews(msgs[0], Demux.Flatten(msgs[1..]), v, d, script, base, cuts, later);
  }

  lemma FirstFound<R>(msgs: seq<Demux.Frame>, v: Demux.View<R>, d: Sched<R>, script: seq<Sched<R>>, base: nat,
                      cuts: set<nat>)
    requires msgs != [] && First(script) == d
    requires Demux.Aligned(msgs, Play(Demux.Flatten(msgs), v, script, base, cuts).views)
    ensures Suits(msgs[0], After(v, d.before))
  {
    hide After, Dispatched;
  }

  lemma CourseStep<R>(msgs: seq<Demux.Frame>, v: Demux.View<R>, plan: seq<Sched<R>>, base: nat, cuts: set<nat>,
                      s: Step<R>, next: nat)
    requires msgs != [] && s == Told(msgs[0], v, First(plan), base, cuts) && next == base + s.taken
    ensures var c, turns := CourseOf(msgs[1..], s.live, Later(plan), next, cuts),
                            Turns(msgs[1..], s.live, Later(plan), next, cuts);
            var mine := if BodyAlone(msgs[0], v, First(plan), base, cuts) then [First(plan), Idle()] else [First(plan)];
            && CourseOf(msgs, v, plan, base, cuts) == Course(s.views + c.views, [s.live] + c.left)
            && Turns(msgs, v, plan, base, cuts) == mine + turns
            && Last(v, [s.live] + c.left) == Last(s.live, c.left)
  {
    hide Told, BodyAlone, Last;
    LastOfMore(v, s.live, CourseOf(msgs[1..], s.live, Later(plan), next, cuts).left);
  }

  /** The decode loop over the objects of messages is that loop, if they are aligned to the entries of either. */
  lemma {:induction false} CourseIsPlay<R>(msgs: seq<Demux.Frame>, v: Demux.View<R>, plan: seq<Sched<R>>, base: nat,
                                        cuts: set<nat>, more: seq<Sched<R>>)
    requires var script := Turns(msgs, v, plan, base, cuts) + more;
             || Demux.Aligned(msgs, Play(Demux.Flatten(msgs), v, script, base, cuts).views)
             || Demux.Aligned(msgs, CourseOf(msgs, v, plan, base, cuts).views)
    ensures var c, turns := CourseOf(msgs, v, plan, base, cuts), Turns(msgs, v, plan, base, cuts);
            Play(Demux.Flatten(msgs), v, turns + more, base, cuts) == Show(c.views, Last(v, c.left), |turns|)
    decreases |msgs|
  {
    hide OneTurn, Play, Told, After, BodyAlone, Last;
    if msgs == [] {
      LastOfNone(v);
      NothingToPlay(v, more, base, cuts);
      assert [] + more == more;
    } else {
      hide CourseOf, Turns;
      var m, d := msgs[0], First(plan);
      var s, alone := Told(m, v, d, base, cuts), BodyAlone(m, v, d, base, cuts);
      var next := base + s.taken;
      CourseStep(msgs, v, plan, base, cuts, s, next);
      var rest, turns := Demux.Flatten(msgs[1..]), Turns(msgs[1..], s.live, Later(plan), next, cuts);
      var script := Turns(msgs, v, plan, base, cuts) + more;
      Assoc(if alone then [d, Idle()] else [d], turns, more);
      TurnsBegin(d, alone, turns + more);
      var p, c := Play(rest, s.live, turns + more, next, cuts), CourseOf(msgs[1..], s.live, Later(plan), next, cuts);
      if Demux.Aligned(msgs, s.views + c.views) { AlignedBehind(msgs, s.views, c.views); }
      else { Meets(msgs, v, d, script, base, cuts, turns + more); }
      OneMessage(m, rest, v, d, script, base, cuts, turns + more, next);
      if Demux.Aligned(msgs, s.views + p.views) { AlignedBehind(msgs, s.views, p.views); }
      CourseIsPlay(msgs[1..], s.live, Later(plan), next, cuts, more);
    }
  }

  lemma LastOfNone<R>(v: Demux.View<R>)
    ensures Last(v, []) == v
  {
  }

  lemma LastOfMore<R>(v: Demux.View<R>, w: Demux.View<R>, left: seq<Demux.View<R>>)
    ensures Last(v, [w] + left) == Last(w, left)
  {
  }

  lemma AlignedBehind<R>(msgs: seq<Demux.Frame>, views: seq<Demux.View<R>>, later: seq<Demux.View<R>>)
    requires msgs != [] && |views| == |Demux.Packed(msgs[0])| && |later| == |Demux.Flatten(msgs[1..])|
    requires Demux.Aligned(msgs, views + later)
    ensures Demux.InStep(msgs[0], views) && Demux.Aligned(msgs[1..], later)
  {
    DropAll(views, later);
    assert (views + later)[..|views|] == views;
  }

  // ---------- exactly when a split shows ----------

  /** A batch ends between the header of a record that completes a query and the record, and the header finds the
      query's channel. */
  predicate DoneIsSplit<R>(m: Demux.Frame, found: Demux.View<R>, base: nat, cuts: set<nat>) {
    m.body.Some? && base + 1 in cuts && m.hdr.Seq in found && EndsQuery(found[m.hdr.Seq], m.body.value)
  }

  /** And the deregistration, which is not made, would have changed the entries. */
  ghost predicate Lost<R>(m: Demux.Frame, v: Demux.View<R>, d: Sched<R>, base: nat, cuts: set<nat>) {
    var found, q := After(v, d.before), m.hdr.Seq;
    && DoneIsSplit(m, found, base, cuts)
    && var out := AtProduce(found[q], q, found, d);
       After(out, d.done) - {q} != out
  }

  /** No deregistration of the unsplit stream is lost to these batch ends. */
  ghost predicate NothingLost<R>(msgs: seq<Demux.Frame>, v: Demux.View<R>, plan: seq<Sched<R>>, base: nat,
                                 cuts: set<nat>)
    decreases |msgs|
  {
    msgs != [] ==>
      && !Lost(msgs[0], v, First(plan), base, cuts)
      && var s := Told(msgs[0], v, First(plan), base, {});
         NothingLost(msgs[1..], s.live, Later(plan), base + s.taken, cuts)
  }

  /** A split changes nothing at the message's own objects, and what the message leaves exactly when it is lost. */
  lemma ToldSplit<R>(m: Demux.Frame, v: Demux.View<R>, d: Sched<R>, base: nat, cuts: set<nat>)
    ensures var s, w := Told(m, v, d, base, cuts), Told(m, v, d, base, {});
            s.views == w.views && s.taken == w.taken && (s.live == w.live <==> !Lost(m, v, d, base, cuts))
  {
  }

  /** The messages of a stream leave the entries they leave when it comes in one piece exactly when no
      deregistration is lost; then the loop also meets the same entries at every object. */
  lemma {:induction false} LeftExactlyWhen<R>(msgs: seq<Demux.Frame>, v: Demux.View<R>, plan: seq<Sched<R>>, base: nat,
                                              cuts: set<nat>)
    ensures var split, whole := CourseOf(msgs, v, plan, base, cuts), CourseOf(msgs, v, plan, base, {});
            && (split.left == whole.left <==> NothingLost(msgs, v, plan, base, cuts))
            && (NothingLost(msgs, v, plan, base, cuts) ==> split == whole)
    decreases |msgs|
  {
    hide Told, Lost;
    if msgs != [] {
      var m, d := msgs[0], First(plan);
      var s, w := Told(m, v, d, base, cuts), Told(m, v, d, base, {});
      ToldSplit(m, v, d, base, cuts);
      if s.live == w.live {
        LeftExactlyWhen(msgs[1..], w.live, Later(plan), base + w.taken, cuts);
        SameHeads(w.live, CourseOf(msgs[1..], w.live, Later(plan), base + w.taken, cuts).left,
                  CourseOf(msgs[1..], w.live, Later(plan), base + w.taken, {}).left);
      } else {
        assert CourseOf(msgs, v, plan, base, cuts).left[0] == s.live;
        assert CourseOf(msgs, v, plan, base, {}).left[0] == w.live;
      }
    }
  }

  lemma SameHeads<T>(x: T, a: seq<T>, b: seq<T>)
    ensures [x] + a == [x] + b <==> a == b
  {
    if [x] + a == [x] + b { assert ([x] + a)[1..] == a && ([x] + b)[1..] == b; }
  }

  // ---------- what is delivered then ----------

  function AllDamaged<R>(ds: seq<Demux.Delivery<R>>, cuts: set<nat>): seq<Demux.Delivery<R>> {
    seq(|ds|, i requires 0 <= i < |ds| => Demux.Damaged(ds[i], cuts))
  }

  lemma DamagedAtSameViews<R>(msgs: seq<Demux.Frame>, views: seq<Demux.View<R>>, base: nat, cuts: set<nat>)
    requires |views| == |Demux.Flatten(msgs)| && Demux.Aligned(msgs, views)
    ensures Demux.Loop(Demux.Flatten(msgs), views, base, cuts) ==
              AllDamaged(Demux.Loop(Demux.Flatten(msgs), views, base, {}), cuts)
  {
    hide Demux.Loop, Demux.Filter, Demux.Damaged, Demux.Aligned, Demux.Flatten;
    Demux.CutLoopIsFilter(msgs, views, base, cuts);
    Demux.CutLoopIsFilter(msgs, views, base, {});
    Demux.DamageIsContained(msgs, views, base, cuts);
  }

  /** The loop at its own entries, whatever other threads do: unless a deregistration is lost, a stream that comes in
      pieces is met, left and delivered as in one, but for the payloads of the messages that a batch end falls
      inside of. */
  lemma SplitsAtOwnEntries<R>(msgs: seq<Demux.Frame>, v: Demux.View<R>, plan: seq<Sched<R>>, base: nat, cuts: set<nat>)
    requires Demux.Aligned(msgs, Play(Demux.Flatten(msgs), v, Turns(msgs, v, plan, base, {}), base, {}).views)
    requires NothingLost(msgs, v, plan, base, cuts)
    ensures var objs := Demux.Flatten(msgs);
            var whole := Play(objs, v, Turns(msgs, v, plan, base, {}), base, {});
            var split := Play(objs, v, Turns(msgs, v, plan, base, cuts), base, cuts);
            && split.views == whole.views && split.live == whole.live
            && Demux.Loop(objs, split.views, base, cuts) == AllDamaged(Demux.Loop(objs, whole.views, base, {}), cuts)
  {
    hide Play, CourseOf, Turns, NothingLost, Demux.Loop, Demux.Aligned, Demux.Flatten, Last;
    NothingMore(Turns(msgs, v, plan, base, {}));
    NothingMore(Turns(msgs, v, plan, base, cuts));
    CourseIsPlay(msgs, v, plan, base, {}, []);
    LeftExactlyWhen(msgs, v, plan, base, cuts);
    CourseIsPlay(msgs, v, plan, base, cuts, []);
    DamagedAtSameViews(msgs, CourseOf(msgs, v, plan, base, cuts).views, base, cuts);
  }

  // ---------- the other threads idle ----------

  ghost predicate AllIdle<R>(script: seq<Sched<R>>) { forall i :: 0 <= i < |script| ==> script[i] == Idle() }

  lemma {:induction false} IdlePlay<R>(objs: seq<Object>, v: Demux.View<R>, script: seq<Sched<R>>, base: nat,
                                       cuts: set<nat>)
    requires AllIdle(script)
    ensures var p, none := Play(objs, v, script, base, cuts), Play(objs, v, [], base, cuts);
            p.views == none.views && p.live == none.live && p.turns == none.turns
    decreases |objs|
  {
    hide OneTurn, Play;
    if objs == [] {
      NothingToPlay(v, script, base, cuts);
      NothingToPlay(v, [], base, cuts);
    } else {
      var body := Next(objs, base, cuts);
      var t := OneTurn(objs[0], body, v, Idle());
      var next, left := base + t.taken, objs[t.taken..];
      assert First(script) == Idle() && AllIdle(Later(script));
      IdlePlay(left, t.live, Later(script), next, cuts);
      PlayStep(objs, v, script, base, cuts, body, t, left, next);
      PlayStep(objs, v, [], base, cuts, body, t, left, next);
    }
  }

  lemma {:induction false} IdleTurns<R>(msgs: seq<Demux.Frame>, v: Demux.View<R>, base: nat, cuts: set<nat>)
    ensures AllIdle(Turns(msgs, v, [], base, cuts))
    decreases |msgs|
  {
    if msgs != [] {
      var s := Told(msgs[0], v, Idle(), base, cuts);
      IdleTurns(msgs[1..], s.live, base + s.taken, cuts);
    }
  }

  /** No batch ends between the header and the record that completes a query registered when the header is reached. */
  predicate NoDoneIsSplit<R>(msgs: seq<Demux.Frame>, views: seq<Demux.View<R>>, base: nat, cuts: set<nat>)
    requires |views| == |Demux.Flatten(msgs)|
    decreases |msgs|
  {
    msgs != [] ==>
      var n := |Demux.Packed(msgs[0])|;
      !DoneIsSplit(msgs[0], views[0], base, cuts) && NoDoneIsSplit(msgs[1..], views[n..], base + n, cuts)
  }

  lemma IdleLost<R>(m: Demux.Frame, v: Demux.View<R>, base: nat, cuts: set<nat>)
    ensures Lost(m, v, Idle(), base, cuts) <==> DoneIsSplit(m, v, base, cuts)
    ensures Told(m, v, Idle(), base, {}).views[0] == v
  {
  }

  lemma {:induction false} NothingIsLost<R>(msgs: seq<Demux.Frame>, v: Demux.View<R>, base: nat, cuts: set<nat>)
    ensures NothingLost(msgs, v, [], base, cuts) <==>
              NoDoneIsSplit(msgs, CourseOf(msgs, v, [], base, {}).views, base, cuts)
    decreases |msgs|
  {
    hide Told, Lost, DoneIsSplit;
    if msgs != [] {
      var s := Told(msgs[0], v, Idle(), base, {});
      IdleLost(msgs[0], v, base, cuts);
      NothingIsLost(msgs[1..], s.live, base + s.taken, cuts);
      DropAll(s.views, CourseOf(msgs[1..], s.live, [], base + s.taken, {}).views);
    }
  }

  lemma DifferBehind<T>(x: seq<T>, a: seq<T>, b: seq<T>)
    requires x + a == x + b
    ensures a == b
  {
    DropAll(x, a);
    DropAll(x, b);
  }

  /** From different entries the loop meets different entries, or there is nothing to meet and it leaves them. */
  lemma DifferAtOnce<R>(objs: seq<Object>, v: Demux.View<R>, w: Demux.View<R>, base: nat, cuts: set<nat>)
    requires v != w
    ensures var p, q := Play(objs, v, [], base, cuts), Play(objs, w, [], base, {});
            p.views != q.views || p.live != q.live
  {
    hide Play;
    if objs == [] {
      NothingToPlay(v, [], base, cuts);
      NothingToPlay(w, [], base, {});
    } else {
      FirstOfPlay(objs, v, [], base, cuts);
      FirstOfPlay(objs, w, [], base, {});
    }
  }

  lemma {:induction false} LostShows<R>(msgs: seq<Demux.Frame>, v: Demux.View<R>, base: nat, cuts: set<nat>)
    requires Demux.Aligned(msgs, CourseOf(msgs, v, [], base, {}).views) && !NothingLost(msgs, v, [], base, cuts)
    ensures var objs := Demux.Flatten(msgs);
            var split, whole := Play(objs, v, [], base, cuts), Play(objs, v, [], base, {});
            split.views != whole.views || split.live != whole.live
    decreases |msgs|
  {
    hide Told, Lost, Play, BodyAlone, CourseOf, Demux.InStep, Last;
    var m, d := msgs[0], Idle();
    var s, w := Told(m, v, d, base, cuts), Told(m, v, d, base, {});
    var rest, next := Demux.Flatten(msgs[1..]), base + w.taken;
    CourseStep(msgs, v, [], base, {}, w, next);
    ToldSplit(m, v, d, base, cuts);
    AlignedBehind(msgs, w.views, CourseOf(msgs[1..], w.live, [], next, {}).views);
    OneMessage(m, rest, v, d, [], base, {}, [], next);
    OneMessage(m, rest, v, d, [], base, cuts, [], next);
    var p, q := Play(rest, s.live, [], next, cuts), Play(rest, w.live, [], next, {});
    if s.live == w.live { LostShows(msgs[1..], w.live, next, cuts); }
    else { DifferAtOnce(rest, s.live, w.live, next, cuts); }
    if s.views + p.views == w.views + q.views { DifferBehind(s.views, p.views, q.views); }
  }

  /** With the other threads idle: a stream of messages that comes in pieces is met and left as in one exactly when
      no batch ends inside of a record that completes a registered query; its deliveries then differ only in the
      payloads of the messages that a batch end falls inside of. */
  lemma SplitShowsExactlyWhen<R>(msgs: seq<Demux.Frame>, v: Demux.View<R>, base: nat, cuts: set<nat>)
    requires Demux.Aligned(msgs, Play(Demux.Flatten(msgs), v, [], base, {}).views)
    ensures var objs := Demux.Flatten(msgs);
            var split, whole := Play(objs, v, [], base, cuts), Play(objs, v, [], base, {});
            && ((split.views == whole.views && split.live == whole.live) <==>
                  NoDoneIsSplit(msgs, whole.views, base, cuts))
            && (NoDoneIsSplit(msgs, whole.views, base, cuts) ==>
                  Demux.Loop(objs, split.views, base, cuts) ==
                    AllDamaged(Demux.Loop(objs, whole.views, base, {}), cuts))
  {
    hide Play, CourseOf, Turns, NothingLost, NoDoneIsSplit, Demux.Loop, Demux.Aligned, Demux.Flatten, Last, AllDamaged;
    var objs := Demux.Flatten(msgs);
    IdleTurns(msgs, v, base, {});
    IdleTurns(msgs, v, base, cuts);
    IdlePlay(objs, v, Turns(msgs, v, [], base, {}), base, {});
    IdlePlay(objs, v, Turns(msgs, v, [], base, cuts), base, cuts);
    NothingMore(Turns(msgs, v, [], base, {}));
    CourseIsPlay(msgs, v, [], base, {}, []);
    NothingIsLost(msgs, v, base, cuts);
    if NothingLost(msgs, v, [], base, cuts) { SplitsAtOwnEntries(msgs, v, [], base, cuts); }
    else { LostShows(msgs, v, base, cuts); }
  }

  // ---------- message by message, whatever the others do ----------

  /** The live entries the loop leaves when the stream ends behind the first `k` messages. */
  function LeftBehind<R>(msgs: seq<Demux.Frame>, k: nat, v: Demux.View<R>, plan: seq<Sched<R>>, base: nat,
                         cuts: set<nat>): Demux.View<R>
    requires k <= |msgs|
  {
    Play(Demux.Flatten(msgs[..k]), v, Turns(msgs[..k], v, plan, base, cuts), base, cuts).live
  }

  /** The first messages: the one in front, and those behind it. */
  lemma PrefixStep<R>(msgs: seq<Demux.Frame>, k: nat, v: Demux.View<R>, plan: seq<Sched<R>>, base: nat, cuts: set<nat>,
                      s: Step<R>, later: seq<Demux.Frame>, next: nat)
    requires 0 < k <= |msgs| && later == msgs[1..][..k - 1]
    requires s == Told(msgs[0], v, First(plan), base, cuts) && next == base + s.taken
    requires Demux.InStep(msgs[0], s.views)
    requires Demux.Aligned(later, CourseOf(later, s.live, Later(plan), next, cuts).views)
    ensures Demux.Aligned(msgs[..k], CourseOf(msgs[..k], v, plan, base, cuts).views)
    ensures Last(v, CourseOf(msgs[..k], v, plan, base, cuts).left) ==
              Last(s.live, CourseOf(later, s.live, Later(plan), next, cuts).left)
  {
    hide Told, Last, Demux.InStep;
    var c := CourseOf(later, s.live, Later(plan), next, cuts);
    assert msgs[..k][1..] == later;
    AlignedInFront(msgs[..k], s.views, c.views);
    LastOfMore(v, s.live, c.left);
  }

  lemma {:induction false} CourseOfPrefix<R>(msgs: seq<Demux.Frame>, k: nat, v: Demux.View<R>, plan: seq<Sched<R>>,
                                             base: nat)
    requires k <= |msgs| && Demux.Aligned(msgs, CourseOf(msgs, v, plan, base, {}).views)
    ensures Demux.Aligned(msgs[..k], CourseOf(msgs[..k], v, plan, base, {}).views)
    decreases k
  {
    hide Told, Demux.InStep;
    if k != 0 {
      var s := Told(msgs[0], v, First(plan), base, {});
      var next := base + s.taken;
      AlignedBehind(msgs, s.views, CourseOf(msgs[1..], s.live, Later(plan), next, {}).views);
      CourseOfPrefix(msgs[1..], k - 1, s.live, Later(plan), next);
      PrefixStep(msgs, k, v, plan, base, {}, s, msgs[1..][..k - 1], next);
    }
  }

  lemma AlignedInFront<R>(msgs: seq<Demux.Frame>, views: seq<Demux.View<R>>, later: seq<Demux.View<R>>)
    requires msgs != [] && |views| == |Demux.Packed(msgs[0])| && |later| == |Demux.Flatten(msgs[1..])|
    requires Demux.InStep(msgs[0], views) && Demux.Aligned(msgs[1..], later)
    ensures Demux.Aligned(msgs, views + later)
  {
    DropAll(views, later);
    assert (views + later)[..|views|] == views;
  }

  lemma {:induction false} NothingLostBefore<R>(msgs: seq<Demux.Frame>, k: nat, v: Demux.View<R>, plan: seq<Sched<R>>,
                                                base: nat, cuts: set<nat>)
    requires k <= |msgs| && NothingLost(msgs, v, plan, base, cuts)
    ensures NothingLost(msgs[..k], v, plan, base, cuts)
    decreases k
  {
    hide Told, Lost;
    if k != 0 {
      var s := Told(msgs[0], v, First(plan), base, {});
      NothingLostBefore(msgs[1..], k - 1, s.live, Later(plan), base + s.taken, cuts);
      assert msgs[..k][1..] == msgs[1..][..k - 1];
    }
  }

  /** The first message that is lost leaves other entries. */
  lemma {:induction false} FirstLost<R>(msgs: seq<Demux.Frame>, v: Demux.View<R>, plan: seq<Sched<R>>, base: nat,
                                        cuts: set<nat>) returns (k: nat)
    requires Demux.Aligned(msgs, CourseOf(msgs, v, plan, base, {}).views) && !NothingLost(msgs, v, plan, base, cuts)
    ensures k <= |msgs| && Demux.Aligned(msgs[..k], CourseOf(msgs[..k], v, plan, base, cuts).views)
    ensures Last(v, CourseOf(msgs[..k], v, plan, base, cuts).left) !=
              Last(v, CourseOf(msgs[..k], v, plan, base, {}).left)
    decreases |msgs|
  {
    hide Told, Lost, Last, Demux.InStep;
    var m, d := msgs[0], First(plan);
    var s, w := Told(m, v, d, base, cuts), Told(m, v, d, base, {});
    var next := base + w.taken;
    ToldSplit(m, v, d, base, cuts);
    AlignedBehind(msgs, w.views, CourseOf(msgs[1..], w.live, Later(plan), next, {}).views);
    var j := 0;
    if s.live != w.live {
      LastOfNone(s.live);
      LastOfNone(w.live);
      NothingAligned(CourseOf([], s.live, Later(plan), next, cuts).views);
      NothingAligned(CourseOf([], w.live, Later(plan), next, {}).views);
    } else {
      j := FirstLost(msgs[1..], w.live, Later(plan), next, cuts);
      CourseOfPrefix(msgs[1..], j, w.live, Later(plan), next);
    }
    k := j + 1;
    var later := msgs[1..][..j];
    PrefixStep(msgs, k, v, plan, base, cuts, s, later, next);
    PrefixStep(msgs, k, v, plan, base, {}, w, later, next);
  }

  lemma NothingAligned<R>(views: seq<Demux.View<R>>)
    requires views == []
    ensures Demux.Aligned([], views)
  {
  }

  lemma LeftIsLast<R>(msgs: seq<Demux.Frame>, k: nat, v: Demux.View<R>, plan: seq<Sched<R>>, base: nat, cuts: set<nat>)
    requires k <= |msgs| && Demux.Aligned(msgs[..k], CourseOf(msgs[..k], v, plan, base, cuts).views)
    ensures LeftBehind(msgs, k, v, plan, base, cuts) == Last(v, CourseOf(msgs[..k], v, plan, base, cuts).left)
  {
    hide Play, CourseOf, Turns, Demux.Aligned, Demux.Flatten, Last;
    CourseIsPlay(msgs[..k], v, plan, base, cuts, []);
    NothingMore(Turns(msgs[..k], v, plan, base, cuts));
  }

  /** Whatever the other threads do: behind every message the loop leaves the entries it would leave had the stream come
      in one piece, exactly when no deregistration is lost. */
  lemma LeavesTheSameExactlyWhen<R>(msgs: seq<Demux.Frame>, v: Demux.View<R>, plan: seq<Sched<R>>, base: nat,
                                    cuts: set<nat>)
    requires Demux.Aligned(msgs, Play(Demux.Flatten(msgs), v, Turns(msgs, v, plan, base, {}), base, {}).views)
    ensures (forall k :: 0 <= k <= |msgs| ==>
               LeftBehind(msgs, k, v, plan, base, cuts) == LeftBehind(msgs, k, v, plan, base, {})) <==>
            NothingLost(msgs, v, plan, base, cuts)
  {
    hide Play, CourseOf, Turns, NothingLost, Demux.Aligned, Demux.Flatten, Last, LeftBehind;
    NothingMore(Turns(msgs, v, plan, base, {}));
    CourseIsPlay(msgs, v, plan, base, {}, []);
    forall k | 0 <= k <= |msgs| && NothingLost(msgs, v, plan, base, cuts)
      ensures LeftBehind(msgs, k, v, plan, base, cuts) == LeftBehind(msgs, k, v, plan, base, {})
    {
      CourseOfPrefix(msgs, k, v, plan, base);
      NothingLostBefore(msgs, k, v, plan, base, cuts);
      LeftExactlyWhen(msgs[..k], v, plan, base, cuts);
      LeftIsLast(msgs, k, v, plan, base, cuts);
      LeftIsLast(msgs, k, v, plan, base, {});
    }
    if !NothingLost(msgs, v, plan, base, cuts) {
      var k := FirstLost(msgs, v, plan, base, cuts);
      CourseOfPrefix(msgs, k, v, plan, base);
      LeftIsLast(msgs, k, v, plan, base, cuts);
      LeftIsLast(msgs, k, v, plan, base, {});
    }
  }

  // ---------- the thread ----------

  /** Two ways to cut the same messages into batches, by two series of polls: if neither cuts a record that completes
      a registered query, the thread meets and leaves the same live entries, and makes the same deliveries to the same
      channels, in the same order; only a message that one of them falls inside of can have another payload. */
  lemma CutsShowOnlyWhereTheyFall<R>(dec: Dec, a: Stand<R>, b: Stand<R>, msgs: seq<Demux.Frame>)
    requires SelfDelimiting(dec) && dec(a.pending).None? && dec(b.pending).None?
    requires Objects(dec, a.pending + Flat(Pieces(a.polls, a.incoming, a.rounds))) == Demux.Flatten(msgs)
    requires Objects(dec, b.pending + Flat(Pieces(b.polls, b.incoming, b.rounds))) == Demux.Flatten(msgs)
    requires b.live == a.live && a.script == b.script == [] && b.views == a.views && b.trace == a.trace
    requires var whole := Play(Demux.Flatten(msgs), a.live, [], |a.views|, {});
             && Demux.Aligned(msgs, whole.views)
             && NoDoneIsSplit(msgs, whole.views, |a.views|, Demux.Ends(BatchesOf(dec, a), |a.views|))
             && NoDoneIsSplit(msgs, whole.views, |a.views|, Demux.Ends(BatchesOf(dec, b), |a.views|))
    ensures var p, q := Pumped(dec, a), Pumped(dec, b);
            var ends := Demux.Ends(BatchesOf(dec, a), |a.views|) + Demux.Ends(BatchesOf(dec, b), |a.views|);
            && p.views == q.views && p.live == q.live && |p.trace| == |q.trace|
            && (forall j :: 0 <= j < |p.trace| ==>
                  var x, y := p.trace[j], q.trace[j];
                  x.at == y.at && x.chan == y.chan && x.hdr == y.hdr && (x != y ==> x.at + 1 in ends))
  {
    hide Play, Pumped, NoDoneIsSplit, Demux.Loop, Demux.Aligned, Demux.Flatten, Objects, Pieces, BatchesOf;
    hide Demux.Ends, Flat;
    PumpedShowsExactlyWhen(dec, a, msgs);
    PumpedShowsExactlyWhen(dec, b, msgs);
  }

  /** The thread, from its own entries and with the other threads idle: however the polls cut the bytes of the messages
      into batches, it meets and leaves what it would with all of them in one exactly when no batch ends inside of a
      record that completes a registered query, and then delivers the same but for the payloads cut off. */
  lemma PumpedShowsExactlyWhen<R>(dec: Dec, s: Stand<R>, msgs: seq<Demux.Frame>)
    requires SelfDelimiting(dec) && dec(s.pending).None? && s.script == []
    requires Objects(dec, s.pending + Flat(Pieces(s.polls, s.incoming, s.rounds))) == Demux.Flatten(msgs)
    requires Demux.Aligned(msgs, Play(Demux.Flatten(msgs), s.live, [], |s.views|, {}).views)
    ensures var objs, cuts := Demux.Flatten(msgs), Demux.Ends(BatchesOf(dec, s), |s.views|);
            var whole, after := Play(objs, s.live, [], |s.views|, {}), Pumped(dec, s);
            && ((after.views == s.views + whole.views && after.live == whole.live) <==>
                  NoDoneIsSplit(msgs, whole.views, |s.views|, cuts))
            && (NoDoneIsSplit(msgs, whole.views, |s.views|, cuts) ==>
                  after.trace == s.trace + AllDamaged(Demux.Loop(objs, whole.views, |s.views|, {}), cuts))
  {
    hide Play, Pumped, NoDoneIsSplit, Demux.Loop, Demux.Aligned, Demux.Flatten, Objects, Pieces, BatchesOf, Demux.Ends;
    hide AllDamaged, Flat;
    var objs, cuts := Demux.Flatten(msgs), Demux.Ends(BatchesOf(dec, s), |s.views|);
    var whole, split := Play(objs, s.live, [], |s.views|, {}), Play(objs, s.live, [], |s.views|, cuts);
    PumpedIsPlay(dec, s);
    SplitShowsExactlyWhen(msgs, s.live, |s.views|, cuts);
    if s.views + split.views == s.views + whole.views { DifferBehind(s.views, split.views, whole.views); }
  }

  /** And whatever the other threads do, unless a deregistration is lost. */
  lemma PumpedUnlessLost<R>(dec: Dec, s: Stand<R>, msgs: seq<Demux.Frame>, plan: seq<Sched<R>>, more: seq<Sched<R>>)
    requires SelfDelimiting(dec) && dec(s.pending).None?
    requires Objects(dec, s.pending + Flat(Pieces(s.polls, s.incoming, s.rounds))) == Demux.Flatten(msgs)
    requires var cuts := Demux.Ends(BatchesOf(dec, s), |s.views|);
             && s.script == Turns(msgs, s.live, plan, |s.views|, cuts) + more
             && NothingLost(msgs, s.live, plan, |s.views|, cuts)
    requires var turns := Turns(msgs, s.live, plan, |s.views|, {});
             Demux.Aligned(msgs, Play(Demux.Flatten(msgs), s.live, turns, |s.views|, {}).views)
    ensures var objs, cuts := Demux.Flatten(msgs), Demux.Ends(BatchesOf(dec, s), |s.views|);
            var whole := Play(objs, s.live, Turns(msgs, s.live, plan, |s.views|, {}), |s.views|, {});
            var after := Pumped(dec, s);
            && after.views == s.views + whole.views && after.live == whole.live && after.script == more
            && after.trace == s.trace + AllDamaged(Demux.Loop(objs, whole.views, |s.views|, {}), cuts)
  {
    hide Play, Pumped, Demux.Loop, Demux.Aligned, Demux.Flatten, Objects, Pieces, BatchesOf, Demux.Ends, Flat, CourseOf;
    hide AllDamaged, Turns, NothingLost, Last;
    var cuts := Demux.Ends(BatchesOf(dec, s), |s.views|);
    PumpedIsPlay(dec, s);
    NothingMore(Turns(msgs, s.live, plan, |s.views|, {}));
    NothingMore(Turns(msgs, s.live, plan, |s.views|, cuts));
    SplitsAtOwnEntries(msgs, s.live, plan, |s.views|, cuts);
    CourseIsPlay(msgs, s.live, plan, |s.views|, {}, []);
    LeftExactlyWhen(msgs, s.live, plan, |s.views|, cuts);
    CourseIsPlay(msgs, s.live, plan, |s.views|, cuts, []);
    CourseIsPlay(msgs, s.live, plan, |s.views|, cuts, more);
  }

  // ---------- the query that is never completed ----------

  /** A batch that ends inside of the record that completes a query: its listener is not told, its entry stays, and a
      later message on its number is delivered that would have been dropped. */
  lemma SplitDoneKeepsQuery<R>(query: R)
    ensures var v: Demux.View<R> := map[1 := Demux.Target(query, Demux.Hears(QUERY))];
            var h, done, ack := ResponseHeader(1, ""), PackRecord(OnComplete), PackRecord(OnAck("node"));
            var objs := [PackHeader(h), done, PackHeader(h), ack];
            var whole, split := Play(objs, v, [], 0, {}), Play(objs, v, [], 0, {1});
            && whole.live == map[]
            && Demux.Loop(objs, whole.views, 0, {}) == [Demux.Delivery(0, query, h, Demux.Body(done))]
            && split.live == v
            && Demux.Loop(objs, split.views, 0, {1}) ==
                 [Demux.Delivery(0, query, h, Demux.Missing), Demux.Delivery(2, query, h, Demux.Body(ack))]
  {
    hide Play, Demux.Loop, Told, CallbackFor, AsHeader;
    var v: Demux.View<R> := map[1 := Demux.Target(query, Demux.Hears(QUERY))];
    var h, done, ack := ResponseHeader(1, ""), PackRecord(OnComplete), PackRecord(OnAck("node"));
    var first, second := Demux.Frame(h, Some(done)), Demux.Frame(h, Some(ack));
    var none: Demux.View<R> := map[];
    RecordRoundTrip(OnComplete);
    RecordRoundTrip(OnAck("node"));
    QueryTold(first, done, v, query, 0, {});
    NoQueryTold(second, ack, none, 2, {});
    TwoMessages(first, second, v, {}, [v, v], none, [none, none], none);
    QueryTold(first, done, v, query, 0, {1});
    QueryTold(second, ack, v, query, 2, {1});
    TwoMessages(first, second, v, {1}, [v, v], v, [v, v], v);
    assert Demux.Packed(first) + Demux.Packed(second) == [PackHeader(h), done, PackHeader(h), ack];
  }

  lemma QueryTold<R>(m: Demux.Frame, o: Object, v: Demux.View<R>, query: R, base: nat, cuts: set<nat>)
    requires m == Demux.Frame(ResponseHeader(1, ""), Some(o)) && v == map[1 := Demux.Target(query, Demux.Hears(QUERY))]
    ensures Told(m, v, Idle(), base, cuts) ==
              Step([v, v], 2, if base + 1 !in cuts && CallbackFor(QUERY, Some(o)) == Some(OnComplete) then map[] else v)
    ensures Unroutable(o) ==> Demux.InStep(m, [v, v])
  {
    hide CallbackFor;
  }

  lemma NoQueryTold<R>(m: Demux.Frame, o: Object, none: Demux.View<R>, base: nat, cuts: set<nat>)
    requires m == Demux.Frame(ResponseHeader(1, ""), Some(o)) && none == map[]
    ensures Told(m, none, Idle(), base, cuts) == Step([none, none], 2, none)
    ensures Unroutable(o) ==> Demux.InStep(m, [none, none])
  {
  }

  lemma TwoMessages<R>(m: Demux.Frame, n: Demux.Frame, v: Demux.View<R>, cuts: set<nat>, vm: seq<Demux.View<R>>,
                       mid: Demux.View<R>, vn: seq<Demux.View<R>>, end: Demux.View<R>)
    requires |vm| == 2 && |vn| == 2 && |Demux.Packed(m)| == 2 && |Demux.Packed(n)| == 2
    requires Told(m, v, Idle(), 0, cuts) == Step(vm, 2, mid) && Told(n, mid, Idle(), 2, cuts) == Step(vn, 2, end)
    requires Demux.InStep(m, vm) && Demux.InStep(n, vn)
    ensures var objs, p := Demux.Packed(m) + Demux.Packed(n), Play(Demux.Packed(m) + Demux.Packed(n), v, [], 0, cuts);
            && p.views == vm + vn && p.live == end
            && Demux.Loop(objs, vm + vn, 0, cuts) == Demux.Deliver(m, vm[0], 0, cuts) + Demux.Deliver(n, vn[0], 2, cuts)
  {
    hide Play, Told, Demux.InStep, Demux.Deliver, Demux.Packed;
    OneMessage(m, Demux.Packed(n), v, Idle(), [], 0, cuts, [], 2);
    OneMessage(n, [], mid, Idle(), [], 2, cuts, [], 4);
    NothingToPlay(end, [], 4, cuts);
    NothingMore(Demux.Packed(n));
    NothingMore(vn);
    NothingMore(Demux.Deliver(n, vn[0], 2, cuts));
    Demux.MessageInFront(m, vm, Demux.Packed(n), vn, 0, cuts, 2);
    Demux.MessageInFront(n, vn, [], [], 2, cuts, 4);
  }
}
