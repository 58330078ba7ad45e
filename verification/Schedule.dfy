/** The other threads as the I/O thread meets them: what they do to the map at each point at which it holds no
    lock, and what that makes of the live entries it sees. */
module Schedule {
  import opened Options
  import opened Messages
  import opened Sequences
  import Demux

  /** A step of another thread: a channel is registered, or an entry removed. */
  datatype Act<R> = Put(q: nat, target: Demux.Target<R>) | Drop(q: nat)

  /** What they do in one turn of the decode loop: before the lookup, between the lookup and the erase or the
      `produce`, between the erase and the `produce`, and between the callback of a completed query and its
      deregistration. */
  datatype Sched<R> = Sched(before: seq<Act<R>>, found: seq<Act<R>>, erased: seq<Act<R>>, done: seq<Act<R>>)

  function After1<R>(v: Demux.View<R>, a: Act<R>): Demux.View<R> {
    match a case Put(q, t) => v[q := t] case Drop(q) => v - {q}
  }

  function After<R>(v: Demux.View<R>, acts: seq<Act<R>>): Demux.View<R> {
    if acts == [] then v else After1(After(v, acts[..|acts| - 1]), acts[|acts| - 1])
  }

  function First<R>(script: seq<Sched<R>>): Sched<R> {
    if script == [] then Sched([], [], [], []) else script[0]
  }

  function Later<R>(script: seq<Sched<R>>): seq<Sched<R>> {
    if script == [] then [] else script[1..]
  }

  function Unplayed<R>(script: seq<Sched<R>>, turns: nat): seq<Sched<R>> {
    if turns <= |script| then script[turns..] else []
  }

  /** All that is to come, in order. */
  function Unroll<R>(d: Sched<R>, rest: seq<Act<R>>): seq<Act<R>> {
    d.before + (d.found + (d.erased + (d.done + rest)))
  }

  function AllActs<R>(script: seq<Sched<R>>): seq<Act<R>> {
    if script == [] then [] else Unroll(script[0], AllActs(script[1..]))
  }

  /** An entry that nobody registers over and nobody removes stays. */
  lemma {:induction false} EntryStays<R>(v: Demux.View<R>, acts: seq<Act<R>>, q: nat)
    requires forall a :: a in acts ==> a.q != q
    ensures q in After(v, acts) <==> q in v
    ensures q in v ==> After(v, acts)[q] == v[q]
    decreases |acts|
  {
    if acts != [] {
      var n := |acts| - 1;
      assert acts[n] in acts && forall a :: a in acts[..n] ==> a in acts;
      EntryStays(v, acts[..n], q);
    }
  }

  lemma FirstOfAll<R>(script: seq<Sched<R>>)
    ensures forall a :: a in First(script).before || a in AllActs(Later(script)) ==> a in AllActs(script)
  {
  }

  // ---------- sends ----------

  predicate Sends<R>(a: Act<R>) { a.Put? && a.target.Request() }

  /** Every send takes the next number: those to come have rising numbers, from the counter on. Numbers left out are
      those of sends that fail. */
  ghost predicate InTurn<R>(acts: seq<Act<R>>, counter: nat) {
    && (forall i :: 0 <= i < |acts| && Sends(acts[i]) ==> counter <= acts[i].q < U64)
    && (forall i, j :: 0 <= i < j < |acts| && Sends(acts[i]) && Sends(acts[j]) ==> acts[i].q < acts[j].q)
  }

  /** Where a send leaves the counter. */
  function Counted<R>(a: Act<R>, counter: nat): nat {
    if Sends(a) then (a.q + 1) % U64 else counter
  }

  function AllCounted<R>(acts: seq<Act<R>>, counter: nat): nat {
    if acts == [] then counter else Counted(acts[|acts| - 1], AllCounted(acts[..|acts| - 1], counter))
  }

  lemma TurnsSplit<R>(a: seq<Act<R>>, b: seq<Act<R>>, counter: nat)
    requires InTurn(a + b, counter)
    ensures InTurn(a, counter) && InTurn(b, counter)
  {
    var ab := a + b;
    assert forall i :: 0 <= i < |a| ==> ab[i] == a[i];
    assert forall i :: 0 <= i < |b| ==> ab[|a| + i] == b[i];
    forall i, j | 0 <= i < j < |b| && Sends(b[i]) && Sends(b[j]) ensures b[i].q < b[j].q {
      assert Sends(ab[|a| + i]) && Sends(ab[|a| + j]);
    }
    forall i | 0 <= i < |b| && Sends(b[i]) ensures counter <= b[i].q < U64 { assert Sends(ab[|a| + i]); }
  }

  /** After a step, the next ones are in turn. */
  lemma NextInTurn<R>(a: Act<R>, rest: seq<Act<R>>, counter: nat)
    requires InTurn([a] + rest, counter)
    ensures InTurn(rest, Counted(a, counter))
  {
    TurnsSplit([a], rest, counter);
    var all := [a] + rest;
    forall i | 0 <= i < |rest| && Sends(rest[i]) && Sends(a) ensures a.q < rest[i].q < U64 {
      assert all[0] == a && all[1 + i] == rest[i];
    }
  }

  // ---------- one turn ----------

  /** A turn: the live entries at each object it takes, how many it takes, and the live entries it leaves. */
  datatype Step<R> = Step(views: seq<Demux.View<R>>, taken: nat, live: Demux.View<R>)

  /** The record completes the query whose channel takes it. */
  predicate EndsQuery<R>(t: Demux.Target<R>, o: Object) {
    t.role.Hears? && CallbackFor(t.role.kind, Some(o)) == Some(OnComplete)
  }

  /** The turn at object `o`, when the decoder would give `body` next. */
  function OneTurn<R>(o: Object, body: Option<Object>, v: Demux.View<R>, sched: Sched<R>): (s: Step<R>)
    ensures s.views != [] && s.taken == |s.views| && (s.taken == 1 || (s.taken == 2 && body.Some?))
  {
    AtLookup(o, body, After(v, sched.before), sched)
  }

  /** The turn from its lookup on, which meets the live entries `found`. */
  function AtLookup<R>(o: Object, body: Option<Object>, found: Demux.View<R>, sched: Sched<R>): (s: Step<R>)
    ensures s.views != [] && s.taken == |s.views| && (s.taken == 1 || (s.taken == 2 && body.Some?))
  {
    match Demux.Route(o, found)
    case Routed(h, t) => Dispatched(h, t, body, found, sched)
    case _ => Step([found], 1, found)
  }

  /** The live entries when a channel that was found is handed its message. */
  function AtProduce<R>(t: Demux.Target<R>, q: nat, found: Demux.View<R>, sched: Sched<R>): Demux.View<R> {
    var kept := After(found, sched.found);
    if t.Request() then After(kept - {q}, sched.erased) else kept
  }

  /** The rest of a turn that found a channel: a request's entry is erased, and a completed query's removed. */
  function Dispatched<R>(h: ResponseHeader, t: Demux.Target<R>, body: Option<Object>, found: Demux.View<R>,
                         sched: Sched<R>): (s: Step<R>)
    ensures s.views != [] && s.views[0] == found && s.taken == |s.views|
    ensures s.taken == 1 || (s.taken == 2 && body.Some?)
  {
    var out := AtProduce(t, h.Seq, found, sched);
    if t.WantsBody() && body.Some? then
      Step([found, out], 2, if EndsQuery(t, body.value) then After(out, sched.done) - {h.Seq} else out)
    else Step([found], 1, out)
  }

  lemma DispatchAddsUp<R>(h: ResponseHeader, t: Demux.Target<R>, body: Option<Object>, found: Demux.View<R>,
                          sched: Sched<R>, out: Demux.View<R>, live: Demux.View<R>, extra: seq<Demux.View<R>>)
    requires var kept := After(found, sched.found);
             out == if t.Request() then After(kept - {h.Seq}, sched.erased) else kept
    requires extra == if t.WantsBody() && body.Some? then [out] else []
    requires live == if body.Some? && EndsQuery(t, body.value) then After(out, sched.done) - {h.Seq} else out
    ensures Dispatched(h, t, body, found, sched) == Step([found] + extra, 1 + |extra|, live)
  {
  }

  // ---------- the loop ----------

  /** The live entries at each object taken, those left in the end, and the number of turns. */
  datatype Show<R> = Show(views: seq<Demux.View<R>>, live: Demux.View<R>, turns: nat)

  /** The object behind the first, unless a batch ends in front of it. */
  function Next(objs: seq<Object>, base: nat, cuts: set<nat>): Option<Object> {
    if 2 <= |objs| && base + 1 !in cuts then Some(objs[1]) else None
  }

  /** The decode loop over a stream of objects, from the live entries `v`, with one schedule for each turn. */
  function Play<R>(objs: seq<Object>, v: Demux.View<R>, script: seq<Sched<R>>, base: nat, cuts: set<nat>): (p: Show<R>)
    ensures |p.views| == |objs|
    decreases |objs|
  {
    if objs == [] then Show([], v, 0)
    else
      var t := OneTurn(objs[0], Next(objs, base, cuts), v, First(script));
      InFront(t.views, 1, Play(objs[t.taken..], t.live, Later(script), base + t.taken, cuts))
  }

  function InFront<R>(views: seq<Demux.View<R>>, turns: nat, p: Show<R>): Show<R> {
    Show(views + p.views, p.live, turns + p.turns)
  }

  // ---------- the loop, one turn at a time ----------

  /** The turn at the first of `objs` meets the live entries `took`, takes `n` objects, and leaves `live`. */
  ghost predicate Turned<R>(objs: seq<Object>, v: Demux.View<R>, sched: Sched<R>, took: seq<Demux.View<R>>, n: nat,
                      live: Demux.View<R>) {
    objs != [] && OneTurn(objs[0], Next(objs, 0, {}), v, sched) == Step(took, n, live)
  }

  /** After some turns, which met `took`, the loop goes on with `left` and the schedule `rest`. */
  ghost predicate PlaysOn<R>(whole: Show<R>, script: seq<Sched<R>>, took: seq<Demux.View<R>>, turns: nat,
                             left: seq<Object>, v: Demux.View<R>, rest: seq<Sched<R>>, at: nat) {
    whole == InFront(took, turns, Play(left, v, rest, at, {})) && rest == Unplayed(script, turns)
  }

  lemma PlaysOneMore<R>(whole: Show<R>, script: seq<Sched<R>>, took: seq<Demux.View<R>>, turns: nat,
                        left: seq<Object>, v: Demux.View<R>, rest: seq<Sched<R>>, at: nat,
                        more: seq<Demux.View<R>>, n: nat, left': seq<Object>, live: Demux.View<R>, next: nat)
    requires PlaysOn(whole, script, took, turns, left, v, rest, at)
    requires Turned(left, v, First(rest), more, n, live) && n <= |left| && left' == left[n..] && next == at + n
    ensures PlaysOn(whole, script, took + more, turns + 1, left', live, Later(rest), next)
  {
    hide Play, OneTurn;
    PlayStep(left, v, rest, at, {}, Next(left, at, {}), Step(more, n, live), left', next);
    InFrontTwice(took, turns, more, 1, Play(left', live, Later(rest), next, {}));
    UnplayedOfOne(script, turns);
  }

  lemma UnplayedOfOne<R>(script: seq<Sched<R>>, n: nat)
    ensures Later(Unplayed(script, n)) == Unplayed(script, n + 1)
  {
  }

  // ---------- batches ----------

  /** The same for batches: the live entries at each object of each batch. */
  datatype Shows<R> = Shows(views: seq<seq<Demux.View<R>>>, live: Demux.View<R>, turns: nat)

  /** The decode loop over one batch after the other. */
  function PlayBatches<R>(batches: seq<seq<Object>>, v: Demux.View<R>, script: seq<Sched<R>>, base: nat): (p: Shows<R>)
    ensures |p.views| == |batches| && forall i :: 0 <= i < |batches| ==> |p.views[i]| == |batches[i]|
    decreases |batches|
  {
    if batches == [] then Shows([], v, 0)
    else
      var p := Play(batches[0], v, script, base, {});
      var later := PlayBatches(batches[1..], p.live, Unplayed(script, p.turns), base + |batches[0]|);
      Shows([p.views] + later.views, later.live, p.turns + later.turns)
  }

  lemma PlayBatchesStep<R>(b: seq<Object>, later: seq<seq<Object>>, v: Demux.View<R>, script: seq<Sched<R>>, base: nat,
                           end: nat)
    requires end == base + |b|
    ensures var p := Play(b, v, script, base, {});
            var q := PlayBatches(later, p.live, Unplayed(script, p.turns), end);
            PlayBatches([b] + later, v, script, base) == Shows([p.views] + q.views, q.live, p.turns + q.turns)
  {
    hide Play;
    assert ([b] + later)[1..] == later;
  }

  lemma UnplayedOfRemaining<R>(script: seq<Sched<R>>, a: nat, b: nat)
    ensures Unplayed(Unplayed(script, a), b) == Unplayed(script, a + b)
  {
  }

  /** One turn and the rest, however they are written. */
  lemma PlayStep<R>(objs: seq<Object>, v: Demux.View<R>, script: seq<Sched<R>>, base: nat, cuts: set<nat>,
                    body: Option<Object>, t: Step<R>, left: seq<Object>, next: nat)
    requires objs != [] && body == Next(objs, base, cuts) && t == OneTurn(objs[0], body, v, First(script))
    requires objs[t.taken..] == left && next == base + t.taken
    ensures Play(objs, v, script, base, cuts) == InFront(t.views, 1, Play(left, t.live, Later(script), next, cuts))
  {
    hide OneTurn;
  }

  lemma NothingToPlay<R>(v: Demux.View<R>, script: seq<Sched<R>>, base: nat, cuts: set<nat>)
    ensures Play([], v, script, base, cuts) == Show([], v, 0)
  {
  }

  // ---------- batches as cuts ----------

  /** One batch in front of the rest of the stream. */
  lemma {:induction false} PlayInFront<R>(b: seq<Object>, rest: seq<Object>, v: Demux.View<R>, script: seq<Sched<R>>,
                                          base: nat, end: nat, cuts: set<nat>)
    requires end == base + |b| && end in cuts && forall c :: c in cuts ==> end <= c
    ensures var p := Play(b, v, script, base, {});
            Play(b + rest, v, script, base, cuts) ==
              InFront(p.views, p.turns, Play(rest, p.live, Unplayed(script, p.turns), end, cuts))
    decreases |b|
  {
    hide OneTurn, Play;
    if b == [] {
      assert b + rest == rest;
      NothingToPlay(v, script, base, {});
      NoneInFront(Play(rest, v, script, base, cuts));
    } else {
      var body := Next(b, base, {});
      var t := OneTurn(b[0], body, v, First(script));
      var next, left := base + t.taken, b[t.taken..];
      var p := Play(left, t.live, Later(script), next, {});
      PlayInFront(left, rest, t.live, Later(script), next, end, cuts);
      DropOfSum(b, rest, t.taken);
      PlayStep(b + rest, v, script, base, cuts, body, t, left + rest, next);
      PlayStep(b, v, script, base, {}, body, t, left, next);
      InFrontTwice(t.views, 1, p.views, p.turns, Play(rest, p.live, Unplayed(Later(script), p.turns), end, cuts));
      UnplayedOfLater(script, p.turns);
    }
  }

  lemma NoneInFront<R>(p: Show<R>)
    ensures InFront([], 0, p) == p
  {
  }

  lemma InFrontTwice<R>(a: seq<Demux.View<R>>, m: nat, b: seq<Demux.View<R>>, n: nat, p: Show<R>)
    ensures InFront(a, m, InFront(b, n, p)) == InFront(a + b, m + n, p)
  {
    Assoc(a, b, p.views);
  }

  lemma UnplayedOfLater<R>(script: seq<Sched<R>>, n: nat)
    ensures Unplayed(Later(script), n) == Unplayed(script, 1 + n)
  {
  }

  /** Batch by batch, or over the whole stream with the batch ends marked: the same. */
  lemma {:induction false} PlayBatchesIsPlay<R>(batches: seq<seq<Object>>, v: Demux.View<R>, script: seq<Sched<R>>,
                                                base: nat, cuts: set<nat>)
    requires cuts == Demux.Ends(batches, base)
    ensures var p, w := PlayBatches(batches, v, script, base), Play(Flat(batches), v, script, base, cuts);
            Flat(p.views) == w.views && p.live == w.live && p.turns == w.turns
    decreases |batches|
  {
    hide Play, OneTurn;
    if batches == [] {
      NothingToPlay(v, script, base, cuts);
    } else {
      var b, end := batches[0], base + |batches[0]|;
      var p, later := Play(b, v, script, base, {}), Demux.Ends(batches[1..], end);
      var rest := Unplayed(script, p.turns);
      Demux.EndsAreBeyond(batches[1..], end);
      PlayBatchesIsPlay(batches[1..], p.live, rest, end, later);
      PlayInFront(b, Flat(batches[1..]), v, script, base, end, cuts);
      EarlyCut(Flat(batches[1..]), p.live, rest, end, later, end);
      assert cuts == later + {end};
      FlatStep(p.views, PlayBatches(batches[1..], p.live, rest, end).views);
    }
  }

  /** A cut in front of everything cuts nothing. */
  lemma {:induction false} EarlyCut<R>(objs: seq<Object>, v: Demux.View<R>, script: seq<Sched<R>>, base: nat,
                                         cuts: set<nat>, extra: nat)
    requires extra <= base
    ensures Play(objs, v, script, base, cuts + {extra}) == Play(objs, v, script, base, cuts)
    decreases |objs|
  {
    hide OneTurn, Play;
    if objs == [] {
      NothingToPlay(v, script, base, cuts);
      NothingToPlay(v, script, base, cuts + {extra});
    } else {
      var body := Next(objs, base, cuts);
      var t := OneTurn(objs[0], body, v, First(script));
      var next, left := base + t.taken, objs[t.taken..];
      EarlyCut(left, t.live, Later(script), next, cuts, extra);
      PlayStep(objs, v, script, base, cuts, body, t, left, next);
      PlayStep(objs, v, script, base, cuts + {extra}, body, t, left, next);
    }
  }

  // ---------- cuts that matter ----------

  /** Behind every object that finds a channel which wants a body, both or neither have a cut. */
  ghost predicate SameSplits<R>(objs: seq<Object>, views: seq<Demux.View<R>>, base: nat, cuts: set<nat>,
                                cuts': set<nat>) {
    forall i :: 0 <= i < |objs| && i < |views| && !Demux.Unwanted(objs[i], views[i]) ==>
      (base + i + 1 in cuts <==> base + i + 1 in cuts')
  }

  /** A turn that finds no channel wanting a body does not look at what comes next. */
  lemma UnwantedTurn<R>(o: Object, body: Option<Object>, body': Option<Object>, v: Demux.View<R>, sched: Sched<R>)
    requires Demux.Unwanted(o, OneTurn(o, body, v, sched).views[0])
    ensures OneTurn(o, body', v, sched) == OneTurn(o, body, v, sched)
  {
  }

  lemma SplitsFurther<R>(objs: seq<Object>, views: seq<Demux.View<R>>, base: nat, cuts: set<nat>, cuts': set<nat>,
                         n: nat, next: nat)
    requires |views| == |objs| && n <= |objs| && next == base + n && SameSplits(objs, views, base, cuts, cuts')
    ensures SameSplits(objs[n..], views[n..], next, cuts, cuts')
  {
    forall i | 0 <= i < |objs| - n && !Demux.Unwanted(objs[n..][i], views[n..][i])
      ensures next + i + 1 in cuts <==> next + i + 1 in cuts'
    {
      assert !Demux.Unwanted(objs[n + i], views[n + i]) && base + (n + i) + 1 == next + i + 1;
    }
  }

  lemma {:induction false} PlayBySplits<R>(objs: seq<Object>, v: Demux.View<R>, script: seq<Sched<R>>, base: nat,
                                           cuts: set<nat>, cuts': set<nat>)
    requires SameSplits(objs, Play(objs, v, script, base, cuts).views, base, cuts, cuts')
    ensures Play(objs, v, script, base, cuts') == Play(objs, v, script, base, cuts)
    decreases |objs|
  {
    hide OneTurn;
    if objs != [] {
      var body := Next(objs, base, cuts);
      var t, left := OneTurn(objs[0], body, v, First(script)), Play(objs, v, script, base, cuts).views;
      var next := base + t.taken;
      PlayStep(objs, v, script, base, cuts, body, t, objs[t.taken..], next);
      SameNext(objs, v, First(script), base, cuts, cuts', t, left[0]);
      SplitsFurther(objs, left, base, cuts, cuts', t.taken, next);
      PlayBySplits(objs[t.taken..], t.live, Later(script), next, cuts, cuts');
      PlayStep(objs, v, script, base, cuts', Next(objs, base, cuts'), t, objs[t.taken..], next);
    }
  }

  lemma SameNext<R>(objs: seq<Object>, v: Demux.View<R>, sched: Sched<R>, base: nat, cuts: set<nat>, cuts': set<nat>,
                    t: Step<R>, found: Demux.View<R>)
    requires objs != [] && t == OneTurn(objs[0], Next(objs, base, cuts), v, sched) && found == t.views[0]
    requires !Demux.Unwanted(objs[0], found) ==> (base + 1 in cuts <==> base + 1 in cuts')
    ensures OneTurn(objs[0], Next(objs, base, cuts'), v, sched) == t
  {
    hide OneTurn;
    if Demux.Unwanted(objs[0], found) {
      UnwantedTurn(objs[0], Next(objs, base, cuts), Next(objs, base, cuts'), v, sched);
    }
  }

  lemma {:induction false} LoopBySplits<R>(objs: seq<Object>, views: seq<Demux.View<R>>, base: nat,
                                           cuts: set<nat>, cuts': set<nat>)
    requires |views| == |objs| && SameSplits(objs, views, base, cuts, cuts')
    ensures Demux.Loop(objs, views, base, cuts') == Demux.Loop(objs, views, base, cuts)
    decreases |objs|
  {
    if objs != [] {
      var n := Demux.Taken(objs, views, base, cuts);
      var next := base + n;
      SameTaken(objs, views, base, cuts, cuts');
      SplitsFurther(objs, views, base, cuts, cuts', n, next);
      LoopBySplits(objs[n..], views[n..], next, cuts, cuts');
      Demux.LoopStep(objs, views, base, cuts, n, Demux.Turn(objs, views, base, cuts), objs[n..], views[n..], next);
      Demux.LoopStep(objs, views, base, cuts', n, Demux.Turn(objs, views, base, cuts), objs[n..], views[n..], next);
    }
  }

  lemma SameTaken<R>(objs: seq<Object>, views: seq<Demux.View<R>>, base: nat, cuts: set<nat>, cuts': set<nat>)
    requires |views| == |objs| && objs != [] && SameSplits(objs, views, base, cuts, cuts')
    ensures Demux.Taken(objs, views, base, cuts') == Demux.Taken(objs, views, base, cuts)
    ensures Demux.Turn(objs, views, base, cuts') == Demux.Turn(objs, views, base, cuts)
  {
    assert !Demux.Unwanted(objs[0], views[0]) ==> (base + 0 + 1 in cuts <==> base + 0 + 1 in cuts');
  }

  /** More than is needed of a schedule makes no difference. */
  lemma {:induction false} PlayLonger<R>(objs: seq<Object>, v: Demux.View<R>, script: seq<Sched<R>>,
                                         more: seq<Sched<R>>, base: nat, cuts: set<nat>)
    requires Play(objs, v, script, base, cuts).turns <= |script|
    ensures Play(objs, v, script + more, base, cuts) == Play(objs, v, script, base, cuts)
    decreases |objs|
  {
    hide OneTurn, Play;
    if objs == [] {
      NothingToPlay(v, script, base, cuts);
      NothingToPlay(v, script + more, base, cuts);
    } else {
      var body := Next(objs, base, cuts);
      var t := OneTurn(objs[0], body, v, First(script));
      var next, left := base + t.taken, objs[t.taken..];
      PlayStep(objs, v, script, base, cuts, body, t, left, next);
      assert First(script + more) == First(script) && Later(script + more) == Later(script) + more;
      PlayLonger(left, t.live, Later(script), more, next, cuts);
      PlayStep(objs, v, script + more, base, cuts, body, t, left, next);
    }
  }

  // ---------- other names for the channels ----------

  function Renamed<R, S>(f: R -> S, t: Demux.Target<R>): Demux.Target<S> {
    Demux.Target(f(t.chan), t.role)
  }

  function RenamedView<R, S>(f: R -> S, v: Demux.View<R>): Demux.View<S> {
    map q | q in v :: Renamed(f, v[q])
  }

  function RenamedViews<R, S>(f: R -> S, vs: seq<Demux.View<R>>): seq<Demux.View<S>> {
    seq(|vs|, i requires 0 <= i < |vs| => RenamedView(f, vs[i]))
  }

  function RenamedAct<R, S>(f: R -> S, a: Act<R>): Act<S> {
    match a case Put(q, t) => Put(q, Renamed(f, t)) case Drop(q) => Drop(q)
  }

  function RenamedActs<R, S>(f: R -> S, acts: seq<Act<R>>): seq<Act<S>> {
    seq(|acts|, i requires 0 <= i < |acts| => RenamedAct(f, acts[i]))
  }

  function RenamedSched<R, S>(f: R -> S, d: Sched<R>): Sched<S> {
    Sched(RenamedActs(f, d.before), RenamedActs(f, d.found), RenamedActs(f, d.erased), RenamedActs(f, d.done))
  }

  function RenamedScript<R, S>(f: R -> S, script: seq<Sched<R>>): seq<Sched<S>> {
    seq(|script|, i requires 0 <= i < |script| => RenamedSched(f, script[i]))
  }

  function RenamedDeliveries<R, S>(f: R -> S, ds: seq<Demux.Delivery<R>>): seq<Demux.Delivery<S>> {
    seq(|ds|, i requires 0 <= i < |ds| => Demux.Delivery(ds[i].at, f(ds[i].chan), ds[i].hdr, ds[i].payload))
  }

  lemma {:induction false} AllActsRenamed<R, S>(f: R -> S, script: seq<Sched<R>>)
    ensures AllActs(RenamedScript(f, script)) == RenamedActs(f, AllActs(script))
  {
    if script != [] {
      AllActsRenamed(f, script[1..]);
      assert RenamedScript(f, script)[1..] == RenamedScript(f, script[1..]);
      UnrollRenamed(f, script[0], AllActs(script[1..]));
    }
  }

  lemma UnrollRenamed<R, S>(f: R -> S, d: Sched<R>, rest: seq<Act<R>>)
    ensures Unroll(RenamedSched(f, d), RenamedActs(f, rest)) == RenamedActs(f, Unroll(d, rest))
  {
    ActsRenamed(f, d.done, rest);
    ActsRenamed(f, d.erased, d.done + rest);
    ActsRenamed(f, d.found, d.erased + (d.done + rest));
    ActsRenamed(f, d.before, d.found + (d.erased + (d.done + rest)));
  }

  lemma ActsRenamed<R, S>(f: R -> S, a: seq<Act<R>>, b: seq<Act<R>>)
    ensures RenamedActs(f, a + b) == RenamedActs(f, a) + RenamedActs(f, b)
  {
  }

  lemma InTurnRenamed<R, S>(f: R -> S, acts: seq<Act<R>>, counter: nat)
    requires InTurn(acts, counter)
    ensures InTurn(RenamedActs(f, acts), counter)
  {
  }

  lemma {:induction false} AfterRenamed<R, S>(f: R -> S, v: Demux.View<R>, acts: seq<Act<R>>)
    ensures After(RenamedView(f, v), RenamedActs(f, acts)) == RenamedView(f, After(v, acts))
  {
    if acts != [] {
      var n := |acts| - 1;
      AfterRenamed(f, v, acts[..n]);
      assert RenamedActs(f, acts)[..n] == RenamedActs(f, acts[..n]);
      assert RenamedActs(f, acts)[n] == RenamedAct(f, acts[n]);
      OneActRenamed(f, After(v, acts[..n]), acts[n]);
    }
  }

  lemma OneActRenamed<R, S>(f: R -> S, v: Demux.View<R>, a: Act<R>)
    ensures After1(RenamedView(f, v), RenamedAct(f, a)) == RenamedView(f, After1(v, a))
  {
  }

  lemma WithoutRenamed<R, S>(f: R -> S, v: Demux.View<R>, q: nat)
    ensures RenamedView(f, v - {q}) == RenamedView(f, v) - {q}
  {
  }

  lemma TurnRenamed<R, S>(f: R -> S, o: Object, body: Option<Object>, v: Demux.View<R>, d: Sched<R>)
    ensures var t := OneTurn(o, body, v, d);
            OneTurn(o, body, RenamedView(f, v), RenamedSched(f, d)) ==
              Step(RenamedViews(f, t.views), t.taken, RenamedView(f, t.live))
  {
    AfterRenamed(f, v, d.before);
    var found := After(v, d.before);
    match Demux.Route(o, found) {
      case Routed(h, t) => DispatchRenamed(f, h, t, body, found, d);
      case _ => assert RenamedViews(f, [found]) == [RenamedView(f, found)];
    }
  }

  lemma DispatchRenamed<R, S>(f: R -> S, h: ResponseHeader, t: Demux.Target<R>, body: Option<Object>,
                              found: Demux.View<R>, d: Sched<R>)
    ensures var p := Dispatched(h, t, body, found, d);
            Dispatched(h, Renamed(f, t), body, RenamedView(f, found), RenamedSched(f, d)) ==
              Step(RenamedViews(f, p.views), p.taken, RenamedView(f, p.live))
  {
    var kept := After(found, d.found);
    var out := if t.Request() then After(kept - {h.Seq}, d.erased) else kept;
    AfterRenamed(f, found, d.found);
    WithoutRenamed(f, kept, h.Seq);
    AfterRenamed(f, kept - {h.Seq}, d.erased);
    AfterRenamed(f, out, d.done);
    WithoutRenamed(f, After(out, d.done), h.Seq);
    assert RenamedViews(f, [found]) == [RenamedView(f, found)];
    assert RenamedViews(f, [found, out]) == [RenamedView(f, found), RenamedView(f, out)];
  }

  lemma {:induction false} PlayRenamed<R, S>(f: R -> S, objs: seq<Object>, v: Demux.View<R>, script: seq<Sched<R>>,
                                             base: nat, cuts: set<nat>)
    ensures var p := Play(objs, v, script, base, cuts);
            Play(objs, RenamedView(f, v), RenamedScript(f, script), base, cuts) ==
              Show(RenamedViews(f, p.views), RenamedView(f, p.live), p.turns)
    decreases |objs|
  {
    hide OneTurn, Play;
    if objs == [] {
      NothingToPlay(v, script, base, cuts);
      NothingToPlay(RenamedView(f, v), RenamedScript(f, script), base, cuts);
    } else {
      var body := Next(objs, base, cuts);
      var t := OneTurn(objs[0], body, v, First(script));
      var next, left := base + t.taken, objs[t.taken..];
      var p := Play(left, t.live, Later(script), next, cuts);
      FirstRenamed(f, script);
      TurnRenamed(f, objs[0], body, v, First(script));
      PlayRenamed(f, left, t.live, Later(script), next, cuts);
      PlayStep(objs, v, script, base, cuts, body, t, left, next);
      PlayStep(objs, RenamedView(f, v), RenamedScript(f, script), base, cuts, body,
               OneTurn(objs[0], body, RenamedView(f, v), First(RenamedScript(f, script))), left, next);
      assert RenamedViews(f, t.views + p.views) == RenamedViews(f, t.views) + RenamedViews(f, p.views);
    }
  }

  lemma FirstRenamed<R, S>(f: R -> S, script: seq<Sched<R>>)
    ensures First(RenamedScript(f, script)) == RenamedSched(f, First(script))
    ensures Later(RenamedScript(f, script)) == RenamedScript(f, Later(script))
  {
  }

  lemma {:induction false} LoopRenamed<R, S>(f: R -> S, objs: seq<Object>, views: seq<Demux.View<R>>, base: nat,
                                             cuts: set<nat>)
    requires |views| == |objs|
    ensures Demux.Loop(objs, RenamedViews(f, views), base, cuts) ==
              RenamedDeliveries(f, Demux.Loop(objs, views, base, cuts))
    decreases |objs|
  {
    if objs != [] {
      var n := Demux.Taken(objs, views, base, cuts);
      var next, turn := base + n, Demux.Turn(objs, views, base, cuts);
      LoopRenamed(f, objs[n..], views[n..], next, cuts);
      LoopTurnRenamed(f, objs, views, base, cuts);
      assert RenamedViews(f, views)[n..] == RenamedViews(f, views[n..]);
      Demux.LoopStep(objs, views, base, cuts, n, turn, objs[n..], views[n..], next);
      Demux.LoopStep(objs, RenamedViews(f, views), base, cuts, n, RenamedDeliveries(f, turn), objs[n..],
                     RenamedViews(f, views[n..]), next);
      DeliveriesRenamed(f, turn, Demux.Loop(objs[n..], views[n..], next, cuts));
    }
  }

  lemma LoopTurnRenamed<R, S>(f: R -> S, objs: seq<Object>, views: seq<Demux.View<R>>, base: nat, cuts: set<nat>)
    requires |views| == |objs| && objs != []
    ensures Demux.Taken(objs, RenamedViews(f, views), base, cuts) == Demux.Taken(objs, views, base, cuts)
    ensures Demux.Turn(objs, RenamedViews(f, views), base, cuts) ==
              RenamedDeliveries(f, Demux.Turn(objs, views, base, cuts))
  {
  }

  lemma DeliveriesRenamed<R, S>(f: R -> S, a: seq<Demux.Delivery<R>>, b: seq<Demux.Delivery<R>>)
    ensures RenamedDeliveries(f, a + b) == RenamedDeliveries(f, a) + RenamedDeliveries(f, b)
  {
  }

  // ---------- turns that are over ----------

  /** Whatever comes next, the loop from the live entries `start` takes `objs` at `views` with the schedule `script`,
      one turn for each, and goes on at `live`. */
  ghost predicate PlaysThrough<R(!new)>(objs: seq<Object>, start: Demux.View<R>, script: seq<Sched<R>>, cuts: set<nat>,
                                        views: seq<Demux.View<R>>, live: Demux.View<R>) {
    forall rest: seq<Object>, more: seq<Sched<R>>, extra: set<nat> :: (forall c :: c in extra ==> |objs| < c) ==>
      Play(objs + rest, start, script + more, 0, cuts + extra) ==
        InFront(views, |script|, Play(rest, live, more, |objs|, cuts + extra))
  }

  lemma ThroughThen<R(!new)>(objs: seq<Object>, start: Demux.View<R>, script: seq<Sched<R>>, cuts: set<nat>,
                             views: seq<Demux.View<R>>, live: Demux.View<R>,
                             rest: seq<Object>, more: seq<Sched<R>>, extra: set<nat>)
    requires PlaysThrough(objs, start, script, cuts, views, live) && forall c :: c in extra ==> |objs| < c
    ensures Play(objs + rest, start, script + more, 0, cuts + extra) ==
              InFront(views, |script|, Play(rest, live, more, |objs|, cuts + extra))
  {
    hide Play;
  }

  lemma ThroughNothing<R(!new)>(v: Demux.View<R>)
    ensures PlaysThrough([], v, [], {}, [], v)
  {
    forall rest: seq<Object>, more: seq<Sched<R>>, extra: set<nat>
      ensures Play([] + rest, v, [] + more, 0, {} + extra) == InFront([], 0, Play(rest, v, more, 0, {} + extra))
    {
      assert [] + rest == rest && [] + more == more;
    }
  }

  /** A turn over: it takes the objects `unit`, the first at position `at`, whatever comes next. */
  ghost predicate Sealed<R>(unit: seq<Object>, at: nat, cuts: set<nat>, v: Demux.View<R>, sched: Sched<R>,
                            took: seq<Demux.View<R>>, live: Demux.View<R>) {
    || (|unit| == 1 && OneTurn(unit[0], None, v, sched) == Step(took, 1, live)
        && (at + 1 in cuts || Demux.Unwanted(unit[0], took[0])))
    || (|unit| == 2 && OneTurn(unit[0], Some(unit[1]), v, sched) == Step(took, 2, live) && at + 1 !in cuts)
  }

  lemma SealedTurn<R>(unit: seq<Object>, at: nat, cuts: set<nat>, v: Demux.View<R>, sched: Sched<R>,
                      took: seq<Demux.View<R>>, live: Demux.View<R>, rest: seq<Object>, extra: set<nat>)
    requires Sealed(unit, at, cuts, v, sched, took, live) && forall c :: c in extra ==> at + |unit| < c
    ensures OneTurn(unit[0], Next(unit + rest, at, cuts + extra), v, sched) == Step(took, |unit|, live)
  {
    hide OneTurn;
    var body := Next(unit + rest, at, cuts + extra);
    if |unit| == 1 && body.Some? { UnwantedTurn(unit[0], None, body, v, sched); }
  }

  lemma TurnOver<R(!new)>(objs: seq<Object>, start: Demux.View<R>, script: seq<Sched<R>>, cuts: set<nat>,
                          views: seq<Demux.View<R>>, live: Demux.View<R>, unit: seq<Object>, sched: Sched<R>,
                          took: seq<Demux.View<R>>, live': Demux.View<R>, cuts': set<nat>)
    requires PlaysThrough(objs, start, script, cuts, views, live) && cuts <= cuts' <= cuts + {|objs| + 1}
    requires Sealed(unit, |objs|, cuts', live, sched, took, live')
    ensures PlaysThrough(objs + unit, start, script + [sched], cuts', views + took, live')
  {
    hide Play, OneTurn, Sealed;
    forall rest: seq<Object>, more: seq<Sched<R>>, extra: set<nat> | forall c :: c in extra ==> |objs + unit| < c
      ensures Play(objs + unit + rest, start, script + [sched] + more, 0, cuts' + extra) ==
                InFront(views + took, |script + [sched]|, Play(rest, live', more, |objs + unit|, cuts' + extra))
    {
      OneTurnOver(objs, start, script, cuts, views, live, unit, sched, took, live', cuts', rest, more, extra);
    }
  }

  lemma OneTurnOver<R(!new)>(objs: seq<Object>, start: Demux.View<R>, script: seq<Sched<R>>, cuts: set<nat>,
                             views: seq<Demux.View<R>>, live: Demux.View<R>, unit: seq<Object>, sched: Sched<R>,
                             took: seq<Demux.View<R>>, live': Demux.View<R>, cuts': set<nat>,
                             rest: seq<Object>, more: seq<Sched<R>>, extra: set<nat>)
    requires PlaysThrough(objs, start, script, cuts, views, live) && cuts <= cuts' <= cuts + {|objs| + 1}
    requires Sealed(unit, |objs|, cuts', live, sched, took, live') && forall c :: c in extra ==> |objs + unit| < c
    ensures Play(objs + unit + rest, start, script + [sched] + more, 0, cuts' + extra) ==
              InFront(views + took, |script + [sched]|, Play(rest, live', more, |objs + unit|, cuts' + extra))
  {
    hide Play, OneTurn, PlaysThrough, Sealed;
    var all, ahead := cuts' + extra, (cuts' - cuts) + extra;
    var next := Play(rest, live', more, |objs + unit|, all);
    ThroughThen(objs, start, script, cuts, views, live, unit + rest, [sched] + more, ahead);
    assert cuts + ahead == all;
    Assoc(objs, unit, rest);
    Assoc(script, [sched], more);
    SealedTurn(unit, |objs|, cuts', live, sched, took, live', rest, extra);
    DropAll(unit, rest);
    DropAll([sched], more);
    PlayStep(unit + rest, live, [sched] + more, |objs|, all, Next(unit + rest, |objs|, all), Step(took, |unit|, live'),
             rest, |objs + unit|);
    InFrontTwice(views, |script|, took, 1, next);
  }
}
