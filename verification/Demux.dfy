/** The decode loop as a function of the objects it takes and of the map it sees at each of them.

    The loop keeps no memory of where messages begin: it takes every object it meets for a header,
    and lets the channel it finds take one object more. */
module Demux {
  import opened Options
  import opened Messages
  import opened Sequences

  /** A live entry of the map: the channel, and what it is; all but plain requests take a body object. */
  datatype Target<R> = Target(chan: R, role: Role) {
    predicate WantsBody() { !role.Plain? }

    predicate Request() { !role.Hears? }
  }

  /** A typed or a plain request, or a listener. */
  datatype Role = Typed | Plain | Hears(kind: ListenerKind)

  /** The live entries at one moment. */
  type View<R> = map<nat, Target<R>>

  datatype Payload = NoBody | Missing | Body(obj: Object)

  /** One `produce`: `at` is the position of the header in the stream of objects. */
  datatype Delivery<R> = Delivery(at: nat, chan: R, hdr: ResponseHeader, payload: Payload)

  datatype Routing<R> = Garbage | Unrouted(hdr: ResponseHeader) | Routed(hdr: ResponseHeader, target: Target<R>)

  /** What the loop does with an object it takes for a header. */
  function Route<R>(o: Object, view: View<R>): Routing<R> {
    match AsHeader(o)
    case None => Garbage
    case Some(h) => if h.Seq in view then Routed(h, view[h.Seq]) else Unrouted(h)
  }

  /** How many objects one turn of the loop takes: two when a channel is found that wants a body and
      the decoder has one to give. A batch ends at the positions in `cuts`, and at the end of `objs`. */
  function Taken<R>(objs: seq<Object>, views: seq<View<R>>, base: nat, cuts: set<nat>): (n: nat)
    requires |views| == |objs| && objs != []
    ensures 1 <= n <= |objs|
  {
    var r := Route(objs[0], views[0]);
    if r.Routed? && r.target.WantsBody() && 2 <= |objs| && base + 1 !in cuts then 2 else 1
  }

  /** What one turn of the loop produces. */
  function Turn<R>(objs: seq<Object>, views: seq<View<R>>, base: nat, cuts: set<nat>): seq<Delivery<R>>
    requires |views| == |objs| && objs != []
  {
    match Route(objs[0], views[0])
    case Garbage => []
    case Unrouted(_) => []
    case Routed(h, t) =>
      [Delivery(base, t.chan, h, if !t.WantsBody() then NoBody
                                 else if Taken(objs, views, base, cuts) == 2 then Body(objs[1]) else Missing)]
  }

  /** The loop over a stream of objects: `views[i]` is the map when object `i` is taken, and `base` the
      position of the first of them. */
  function Loop<R>(objs: seq<Object>, views: seq<View<R>>, base: nat, cuts: set<nat>): seq<Delivery<R>>
    requires |views| == |objs|
    decreases |objs|
  {
    if objs == [] then []
    else
      var n := Taken(objs, views, base, cuts);
      Turn(objs, views, base, cuts) + Loop(objs[n..], views[n..], base + n, cuts)
  }

  /** The loop over one batch of complete objects. */
  function Decode<R>(objs: seq<Object>, views: seq<View<R>>, base: nat): seq<Delivery<R>>
    requires |views| == |objs|
  {
    Loop(objs, views, base, {})
  }

  /** The loop over successive batches; between two of them the decoder has nothing complete. */
  function DecodeBatches<R>(batches: seq<seq<Object>>, views: seq<seq<View<R>>>, base: nat): seq<Delivery<R>>
    requires |views| == |batches|
    requires forall i :: 0 <= i < |batches| ==> |views[i]| == |batches[i]|
    decreases |batches|
  {
    if batches == [] then []
    else Decode(batches[0], views[0], base) + DecodeBatches(batches[1..], views[1..], base + |batches[0]|)
  }

  lemma DecodeBatchesStep<R>(b: seq<Object>, later: seq<seq<Object>>, vb: seq<View<R>>, vl: seq<seq<View<R>>>,
                             base: nat, end: nat)
    requires |vb| == |b| && |vl| == |later| && end == base + |b|
    requires forall i :: 0 <= i < |later| ==> |vl[i]| == |later[i]|
    ensures DecodeBatches([b] + later, [vb] + vl, base) == Decode(b, vb, base) + DecodeBatches(later, vl, end)
  {
    assert ([b] + later)[1..] == later && ([vb] + vl)[1..] == vl;
  }

  // ---------- the simple specification: filter the agent's messages ----------

  /** A message on the wire: a header, and a body object after it or not. */
  datatype Frame = Frame(hdr: ResponseHeader, body: Option<Object>)

  function Packed(m: Frame): seq<Object> {
    if m.body.Some? then [PackHeader(m.hdr), m.body.value] else [PackHeader(m.hdr)]
  }

  function Flatten(msgs: seq<Frame>): seq<Object> {
    if msgs == [] then [] else Packed(msgs[0]) + Flatten(msgs[1..])
  }

  /** A message is delivered if its number is registered when its header is reached; its body is missing
      exactly when a batch ends between it and the header (`cuts` holds the positions at which a batch
      ends). */
  function Deliver<R>(m: Frame, view: View<R>, base: nat, cuts: set<nat>): seq<Delivery<R>> {
    if m.hdr.Seq !in view then []
    else
      var payload := if m.body.None? then NoBody else if base + 1 in cuts then Missing else Body(m.body.value);
      [Delivery(base, view[m.hdr.Seq].chan, m.hdr, payload)]
  }

  /** Deliver the registered messages, drop the others. */
  function Filter<R>(msgs: seq<Frame>, views: seq<View<R>>, base: nat, cuts: set<nat>): seq<Delivery<R>>
    requires |views| == |Flatten(msgs)|
    decreases |msgs|
  {
    if msgs == [] then []
    else
      var n := |Packed(msgs[0])|;
      Deliver(msgs[0], views[0], base, cuts) + Filter(msgs[1..], views[n..], base + n, cuts)
  }

  /** What is assumed of the agent and the map: numbers are 64-bit, no body routes as a header,
      number 0 has no entry where a body stands, and a channel found by a header takes a body exactly
      when one follows. */
  ghost predicate Aligned<R>(msgs: seq<Frame>, views: seq<View<R>>)
    requires |views| == |Flatten(msgs)|
    decreases |msgs|
  {
    msgs != [] ==>
      var n := |Packed(msgs[0])|;
      InStep(msgs[0], views[..n]) && Aligned(msgs[1..], views[n..])
  }

  predicate InStep<R>(m: Frame, views: seq<View<R>>)
    requires |views| == |Packed(m)|
  {
    && m.hdr.Seq < U64
    && (m.body.Some? ==> Unroutable(m.body.value) && 0 !in views[1])
    && (m.hdr.Seq in views[0] ==> (views[0][m.hdr.Seq].WantsBody() <==> m.body.Some?))
  }

  // ---------- resynchronisation ----------

  /** No channel that wants a body is found by this object. */
  predicate Unwanted<R>(o: Object, view: View<R>) {
    !(Route(o, view).Routed? && Route(o, view).target.WantsBody())
  }

  /** The first turn sees no further than what it takes. */
  lemma SameTurn<R>(a: seq<Object>, va: seq<View<R>>, b: seq<Object>, vb: seq<View<R>>, base: nat, cuts: set<nat>)
    requires |va| == |a| && |vb| == |b| && a != []
    requires |a| == 1 ==> b == [] || base + 1 in cuts || Unwanted(a[0], va[0])
    requires base + 1 in cuts ==> |a| == 1
    ensures Taken(a + b, va + vb, base, cuts) == Taken(a, va, base, {})
    ensures Turn(a + b, va + vb, base, cuts) == Turn(a, va, base, {})
  {
    assert (a + b)[0] == a[0] && (va + vb)[0] == va[0];
    assert 2 <= |a| ==> (a + b)[1] == a[1];
  }

  /** One turn and the rest, however they are written. */
  lemma LoopStep<R>(objs: seq<Object>, views: seq<View<R>>, base: nat, cuts: set<nat>, n: nat,
                    turn: seq<Delivery<R>>, objs': seq<Object>, views': seq<View<R>>, base': nat)
    requires |views| == |objs| && objs != [] && Taken(objs, views, base, cuts) == n && base' == base + n
    requires Turn(objs, views, base, cuts) == turn && objs[n..] == objs' && views[n..] == views'
    ensures Loop(objs, views, base, cuts) == turn + Loop(objs', views', base', cuts)
  {
  }

  lemma FrontTurn<R>(a: seq<Object>, va: seq<View<R>>, b: seq<Object>, vb: seq<View<R>>, base: nat, cuts: set<nat>,
                     n: nat, next: nat)
    requires |va| == |a| && |vb| == |b| && a != [] && n == Taken(a, va, base, {}) && next == base + n
    requires |a| == 1 ==> b == [] || base + 1 in cuts || Unwanted(a[0], va[0])
    requires base + 1 in cuts ==> |a| == 1
    ensures Loop(a + b, va + vb, base, cuts) ==
              Turn(a, va, base, {}) + Loop(a[n..] + b, va[n..] + vb, next, cuts)
  {
    SameTurn(a, va, b, vb, base, cuts);
    DropOfSum(a, b, n);
    DropOfSum(va, vb, n);
    LoopStep(a + b, va + vb, base, cuts, n, Turn(a, va, base, {}), a[n..] + b, va[n..] + vb, next);
  }

  /** A first turn that takes all of `a`. */
  lemma WholeTurn<R>(a: seq<Object>, va: seq<View<R>>, b: seq<Object>, vb: seq<View<R>>, base: nat, cuts: set<nat>,
                     next: nat)
    requires |va| == |a| && |vb| == |b| && a != [] && Taken(a, va, base, {}) == |a| && next == base + |a|
    requires |a| == 1 ==> next in cuts || Unwanted(a[0], va[0])
    requires base + 1 in cuts ==> |a| == 1
    ensures Loop(a + b, va + vb, base, cuts) == Turn(a, va, base, {}) + Loop(b, vb, next, cuts)
  {
    SameTurn(a, va, b, vb, base, cuts);
    DropAll(a, b);
    DropAll(va, vb);
    LoopStep(a + b, va + vb, base, cuts, |a|, Turn(a, va, base, {}), b, vb, next);
  }

  /** The loop at the front of a message delivers that message if it is registered, and is at the next header
      afterwards: the body has been taken, or it is dropped now. */
  lemma MessageInFront<R>(m: Frame, vm: seq<View<R>>, rest: seq<Object>, vr: seq<View<R>>, base: nat, cuts: set<nat>,
                          next: nat)
    requires |vm| == |Packed(m)| && |vr| == |rest| && InStep(m, vm) && next == base + |Packed(m)|
    ensures Loop(Packed(m) + rest, vm + vr, base, cuts) == Deliver(m, vm[0], base, cuts) + Loop(rest, vr, next, cuts)
  {
    if m.body.None? || (m.hdr.Seq in vm[0] && base + 1 !in cuts) { WholeInFront(m, vm, rest, vr, base, cuts, next); }
    else { SplitInFront(m, vm, rest, vr, base, cuts, base + 1, next); }
  }

  lemma WholeInFront<R>(m: Frame, vm: seq<View<R>>, rest: seq<Object>, vr: seq<View<R>>, base: nat, cuts: set<nat>,
                        next: nat)
    requires |vm| == |Packed(m)| && |vr| == |rest| && InStep(m, vm) && next == base + |Packed(m)|
    requires m.body.None? || (m.hdr.Seq in vm[0] && base + 1 !in cuts)
    ensures Loop(Packed(m) + rest, vm + vr, base, cuts) == Deliver(m, vm[0], base, cuts) + Loop(rest, vr, next, cuts)
  {
    WholeMessage(m, vm, base, cuts);
    WholeTurn(Packed(m), vm, rest, vr, base, cuts, next);
  }

  lemma SplitInFront<R>(m: Frame, vm: seq<View<R>>, rest: seq<Object>, vr: seq<View<R>>, base: nat, cuts: set<nat>,
                        mid: nat, next: nat)
    requires |vm| == |Packed(m)| && |vr| == |rest| && InStep(m, vm) && m.body.Some?
    requires mid == base + 1 && next == mid + 1 && (m.hdr.Seq !in vm[0] || mid in cuts)
    ensures Loop(Packed(m) + rest, vm + vr, base, cuts) == Deliver(m, vm[0], base, cuts) + Loop(rest, vr, next, cuts)
  {
    var h, o := PackHeader(m.hdr), m.body.value;
    PackedTwo(m, vm, rest, vr);
    HeaderAlone(m, vm, base, cuts);
    WholeTurn([h], [vm[0]], [o] + rest, [vm[1]] + vr, base, cuts, mid);
    WholeTurn([o], [vm[1]], rest, vr, mid, cuts, next);
    NoTurn(o, vm[1], mid);
  }

  lemma PackedTwo<R>(m: Frame, vm: seq<View<R>>, rest: seq<Object>, vr: seq<View<R>>)
    requires |vm| == |Packed(m)| && m.body.Some?
    ensures Packed(m) + rest == [PackHeader(m.hdr)] + ([m.body.value] + rest)
    ensures vm + vr == [vm[0]] + ([vm[1]] + vr)
  {
  }

  /** One turn takes the whole message. */
  lemma WholeMessage<R>(m: Frame, vm: seq<View<R>>, base: nat, cuts: set<nat>)
    requires |vm| == |Packed(m)| && InStep(m, vm)
    requires m.body.None? || (m.hdr.Seq in vm[0] && base + 1 !in cuts)
    ensures Taken(Packed(m), vm, base, {}) == |Packed(m)|
    ensures Turn(Packed(m), vm, base, {}) == Deliver(m, vm[0], base, cuts)
    ensures |Packed(m)| == 1 ==> Unwanted(Packed(m)[0], vm[0])
  {
    HeaderRoundTrip(m.hdr);
  }

  /** The turn at the header leaves the body behind. */
  lemma HeaderAlone<R>(m: Frame, vm: seq<View<R>>, base: nat, cuts: set<nat>)
    requires |vm| == |Packed(m)| && InStep(m, vm) && m.body.Some?
    requires m.hdr.Seq !in vm[0] || base + 1 in cuts
    ensures var header := [PackHeader(m.hdr)];
            && Taken(header, [vm[0]], base, {}) == 1
            && Turn(header, [vm[0]], base, {}) == Deliver(m, vm[0], base, cuts)
            && (base + 1 in cuts || Unwanted(header[0], vm[0]))
  {
    HeaderRoundTrip(m.hdr);
  }

  /** And the turn at the body makes no delivery. */
  lemma NoTurn<R>(o: Object, v: View<R>, base: nat)
    requires Unroutable(o) && 0 !in v
    ensures Turn([o], [v], base, {}) == [] && Unwanted(o, v)
  {
  }

  /** On any stream of registered, timed-out and never-registered messages, cut into batches
      anywhere, the loop delivers exactly what the filter does: orphan bodies are dropped and the
      next header is read as a header. */
  lemma {:induction false} CutLoopIsFilter<R>(msgs: seq<Frame>, views: seq<View<R>>, base: nat, cuts: set<nat>)
    requires |views| == |Flatten(msgs)| && Aligned(msgs, views)
    ensures Loop(Flatten(msgs), views, base, cuts) == Filter(msgs, views, base, cuts)
    decreases |msgs|
  {
    if msgs != [] {
      var n := |Packed(msgs[0])|;
      MessageInFront(msgs[0], views[..n], Flatten(msgs[1..]), views[n..], base, cuts, base + n);
      assert views[..n] + views[n..] == views;
      CutLoopIsFilter(msgs[1..], views[n..], base + n, cuts);
    }
  }

  // ---------- batches ----------

  /** The positions at which the batches end. */
  function Ends(batches: seq<seq<Object>>, base: nat): set<nat>
    decreases |batches|
  {
    if batches == [] then {}
    else {base + |batches[0]|} + Ends(batches[1..], base + |batches[0]|)
  }

  lemma {:induction false} EndsAreBeyond(batches: seq<seq<Object>>, base: nat)
    ensures forall e :: e in Ends(batches, base) ==> base <= e
    decreases |batches|
  {
    if batches != [] { EndsAreBeyond(batches[1..], base + |batches[0]|); }
  }

  /** One batch in front of the rest of the stream. */
  lemma {:induction false} BatchInFront<R>(b: seq<Object>, vb: seq<View<R>>, rest: seq<Object>, vr: seq<View<R>>,
                                          base: nat, end: nat, cuts: set<nat>)
    requires |vb| == |b| && |vr| == |rest| && end == base + |b|
    requires end in cuts && forall e :: e in cuts ==> end <= e
    ensures Loop(b + rest, vb + vr, base, cuts) == Loop(b, vb, base, {}) + Loop(rest, vr, end, cuts)
    decreases |b|
  {
    if b == [] {
      NothingInFront(b, vb, rest, vr);
    } else {
      var n := Taken(b, vb, base, {});
      var next := base + n;
      BatchInFront(b[n..], vb[n..], rest, vr, next, end, cuts);
      FrontTurn(b, vb, rest, vr, base, cuts, n, next);
      LoopStep(b, vb, base, {}, n, Turn(b, vb, base, {}), b[n..], vb[n..], next);
      Rejoin(Loop(b + rest, vb + vr, base, cuts), Turn(b, vb, base, {}), Loop(b[n..] + rest, vb[n..] + vr, next, cuts),
             Loop(b[n..], vb[n..], next, {}), Loop(rest, vr, end, cuts), Loop(b, vb, base, {}));
    }
  }

  lemma NothingInFront<R>(b: seq<Object>, vb: seq<View<R>>, rest: seq<Object>, vr: seq<View<R>>)
    requires b == [] && vb == []
    ensures b + rest == rest && vb + vr == vr
  {
  }

  /** Batch by batch, or over the whole stream with the batch ends marked: the same deliveries. */
  lemma {:induction false} BatchesAreCuts<R>(batches: seq<seq<Object>>, views: seq<seq<View<R>>>,
                                            base: nat, cuts: set<nat>)
    requires |views| == |batches| && forall i :: 0 <= i < |batches| ==> |views[i]| == |batches[i]|
    requires |Flat(views)| == |Flat(batches)| && cuts == Ends(batches, base)
    ensures DecodeBatches(batches, views, base) == Loop(Flat(batches), Flat(views), base, cuts)
    decreases |batches|
  {
    if batches != [] {
      var b := batches[0];
      var later := Ends(batches[1..], base + |b|);
      EndsAreBeyond(batches[1..], base + |b|);
      FlatLength(batches[1..], views[1..]);
      BatchesAreCuts(batches[1..], views[1..], base + |b|, later);
      BatchInFront(b, views[0], Flat(batches[1..]), Flat(views[1..]), base, base + |b|, cuts);
      MoreCuts(Flat(batches[1..]), Flat(views[1..]), base + |b|, later, base + |b|);
      assert cuts == later + {base + |b|};
    }
  }

  /** A cut in front of everything cuts nothing. */
  lemma {:induction false} MoreCuts<R>(objs: seq<Object>, views: seq<View<R>>, base: nat, cuts: set<nat>, extra: nat)
    requires |views| == |objs| && extra <= base
    ensures Loop(objs, views, base, cuts + {extra}) == Loop(objs, views, base, cuts)
    decreases |objs|
  {
    if objs != [] {
      var n := Taken(objs, views, base, cuts);
      assert Taken(objs, views, base, cuts + {extra}) == n;
      MoreCuts(objs[n..], views[n..], base + n, cuts, extra);
    }
  }

  /** The refinement: however the stream is cut into batches, the decode loop delivers exactly the
      messages whose number is registered when their header is reached, in order. */
  lemma LoopRefinesFilter<R>(msgs: seq<Frame>, batches: seq<seq<Object>>, views: seq<seq<View<R>>>, base: nat)
    requires |views| == |batches| && forall i :: 0 <= i < |batches| ==> |views[i]| == |batches[i]|
    requires Flat(batches) == Flatten(msgs) && |Flat(views)| == |Flatten(msgs)|
    requires Aligned(msgs, Flat(views))
    ensures DecodeBatches(batches, views, base) == Filter(msgs, Flat(views), base, Ends(batches, base))
  {
    BatchesAreCuts(batches, views, base, Ends(batches, base));
    CutLoopIsFilter(msgs, Flat(views), base, Ends(batches, base));
  }

  // ---------- damage containment ----------

  /** What a split does to one delivery. */
  function Damaged<R>(d: Delivery<R>, cuts: set<nat>): Delivery<R> {
    if d.payload.Body? && d.at + 1 in cuts then d.(payload := Missing) else d
  }

  /** Batch boundaries change nothing but the payload of the messages they fall inside: every other
      message is delivered as if the stream had come in one piece. */
  lemma {:induction false} DamageIsContained<R>(msgs: seq<Frame>, views: seq<View<R>>, base: nat, cuts: set<nat>)
    requires |views| == |Flatten(msgs)|
    ensures var whole, split := Filter(msgs, views, base, {}), Filter(msgs, views, base, cuts);
            && |split| == |whole|
            && (forall j :: 0 <= j < |split| ==> split[j] == Damaged(whole[j], cuts))
    decreases |msgs|
  {
    if msgs != [] {
      var n := |Packed(msgs[0])|;
      DamageIsContained(msgs[1..], views[n..], base + n, cuts);
    }
  }

  /** A body is missing exactly where there is a cut behind the header; otherwise it is the object that follows. */
  lemma {:induction false} MissingExactlyAtCuts<R>(msgs: seq<Frame>, views: seq<View<R>>, base: nat, cuts: set<nat>,
                                                   d: Delivery<R>)
    requires |views| == |Flatten(msgs)| && d in Filter(msgs, views, base, cuts) && !d.payload.NoBody?
    ensures base < d.at + 1 < base + |Flatten(msgs)|
    ensures d.payload == if d.at + 1 in cuts then Missing else Body(Flatten(msgs)[d.at + 1 - base])
    decreases |msgs|
  {
    if msgs != [] {
      var n := |Packed(msgs[0])|;
      if d in Filter(msgs[1..], views[n..], base + n, cuts) {
        MissingExactlyAtCuts(msgs[1..], views[n..], base + n, cuts, d);
      }
    }
  }

  /** So of all messages of the stream only those suffer that a batch boundary falls inside of: the others
      are delivered as if everything had come in one batch. */
  lemma SplitsAreContained<R>(msgs: seq<Frame>, batches: seq<seq<Object>>, views: seq<seq<View<R>>>, base: nat)
    requires |views| == |batches| && forall i :: 0 <= i < |batches| ==> |views[i]| == |batches[i]|
    requires Flat(batches) == Flatten(msgs) && |Flat(views)| == |Flatten(msgs)|
    requires Aligned(msgs, Flat(views))
    ensures var whole, split := Decode(Flatten(msgs), Flat(views), base), DecodeBatches(batches, views, base);
            && |split| == |whole|
            && (forall j :: 0 <= j < |split| ==> split[j] == Damaged(whole[j], Ends(batches, base)))
  {
    LoopRefinesFilter(msgs, batches, views, base);
    CutLoopIsFilter(msgs, Flat(views), base, {});
    DamageIsContained(msgs, Flat(views), base, Ends(batches, base));
  }

  /** The deliveries are of distinct messages, in stream order. */
  predicate InOrder<R>(ds: seq<Delivery<R>>, lo: nat, hi: nat) {
    && (forall j :: 0 <= j < |ds| ==> lo <= ds[j].at < hi)
    && (forall i, j :: 0 <= i < j < |ds| ==> ds[i].at < ds[j].at)
  }

  lemma {:induction false} DeliveredInOrder<R>(msgs: seq<Frame>, views: seq<View<R>>, base: nat, cuts: set<nat>)
    requires |views| == |Flatten(msgs)|
    ensures InOrder(Filter(msgs, views, base, cuts), base, base + |Flatten(msgs)|)
    decreases |msgs|
  {
    if msgs != [] {
      var n := |Packed(msgs[0])|;
      assert |Flatten(msgs)| == n + |Flatten(msgs[1..])|;
      DeliveredInOrder(msgs[1..], views[n..], base + n, cuts);
      EarlierFirst(Deliver(msgs[0], views[0], base, cuts), Filter(msgs[1..], views[n..], base + n, cuts),
                   base, base + n, base + |Flatten(msgs)|);
    }
  }

  lemma EarlierFirst<R>(a: seq<Delivery<R>>, b: seq<Delivery<R>>, lo: nat, mid: nat, hi: nat)
    requires lo <= mid <= hi && InOrder(a, lo, mid) && InOrder(b, mid, hi)
    ensures InOrder(a + b, lo, hi)
  {
  }

  /** The alignment assumption is needed: when a typed request is answered without a body, its channel
      takes the next header for the body and that message is lost. */
  lemma MissingBodySwallowsHeader<R>(typed: R, plain: R)
    ensures var view: View<R> := map[1 := Target(typed, Typed), 2 := Target(plain, Plain)];
            var msgs := [Frame(ResponseHeader(1, ""), None), Frame(ResponseHeader(2, ""), None)];
            && Flatten(msgs) == [PackHeader(msgs[0].hdr), PackHeader(msgs[1].hdr)]
            && Decode(Flatten(msgs), [view, view], 0) ==
                 [Delivery(0, typed, msgs[0].hdr, Body(PackHeader(msgs[1].hdr)))]
  {
    var msgs := [Frame(ResponseHeader(1, ""), None), Frame(ResponseHeader(2, ""), None)];
    assert Flatten(msgs[1..][1..]) == [];
    assert Flatten(msgs) == [PackHeader(msgs[0].hdr), PackHeader(msgs[1].hdr)];
    HeaderRoundTrip(msgs[0].hdr);
    var view: View<R> := map[1 := Target(typed, Typed), 2 := Target(plain, Plain)];
    var objs, views := Flatten(msgs), [view, view];
    assert objs[2..] == [] && views[2..] == [];
    assert Loop(objs, views, 0, {}) == Turn(objs, views, 0, {}) + Loop(objs[2..], views[2..], 2, {});
  }

  // ---------- composing ----------

  /** The batch does not end between a header and the body its channel asks for. */
  predicate Complete<R>(objs: seq<Object>, views: seq<View<R>>)
    requires |views| == |objs|
    decreases |objs|
  {
    objs == [] ||
    var n := Taken(objs, views, 0, {});
    && (n == 1 ==> Unwanted(objs[0], views[0]))
    && Complete(objs[n..], views[n..])
  }

  /** A batch taken apart between messages: the rest is decoded as a batch of its own. */
  lemma {:induction false} DecodeAppend<R>(a: seq<Object>, va: seq<View<R>>, b: seq<Object>, vb: seq<View<R>>,
                                          base: nat, end: nat)
    requires |va| == |a| && |vb| == |b| && Complete(a, va) && end == base + |a|
    ensures Loop(a + b, va + vb, base, {}) == Loop(a, va, base, {}) + Loop(b, vb, end, {})
    decreases |a|
  {
    if a == [] {
      NothingInFront(a, va, b, vb);
    } else {
      var n := Taken(a, va, base, {});
      var next := base + n;
      DecodeAppend(a[n..], va[n..], b, vb, next, end);
      FrontTurn(a, va, b, vb, base, {}, n, next);
      LoopStep(a, va, base, {}, n, Turn(a, va, base, {}), a[n..], va[n..], next);
      Rejoin(Loop(a + b, va + vb, base, {}), Turn(a, va, base, {}), Loop(a[n..] + b, va[n..] + vb, next, {}),
             Loop(a[n..], va[n..], next, {}), Loop(b, vb, end, {}), Loop(a, va, base, {}));
    }
  }

  lemma {:induction false} CompleteAppend<R>(a: seq<Object>, va: seq<View<R>>, b: seq<Object>, vb: seq<View<R>>)
    requires |va| == |a| && |vb| == |b| && Complete(a, va) && Complete(b, vb)
    ensures Complete(a + b, va + vb)
    decreases |a|
  {
    if a == [] {
      assert a + b == b && va + vb == vb;
    } else {
      var n := Taken(a, va, 0, {});
      SameTurn(a, va, b, vb, 0, {});
      DropOfSum(a, b, n);
      DropOfSum(va, vb, n);
      CompleteAppend(a[n..], va[n..], b, vb);
    }
  }

  // ---------- one message more ----------

  lemma {:induction false} FlattenSnoc(msgs: seq<Frame>, m: Frame)
    ensures Flatten(msgs + [m]) == Flatten(msgs) + Packed(m)
  {
    if msgs == [] {
      assert msgs + [m] == [m] && [m][1..] == [];
      assert Flatten([m]) == Packed(m) + Flatten([m][1..]);
    } else {
      assert (msgs + [m])[1..] == msgs[1..] + [m];
      FlattenSnoc(msgs[1..], m);
      Assoc(Packed(msgs[0]), Flatten(msgs[1..]), Packed(m));
    }
  }

  lemma {:induction false} FlattenAppend(a: seq<Frame>, b: seq<Frame>)
    ensures Flatten(a + b) == Flatten(a) + Flatten(b)
  {
    if a == [] {
      assert a + b == b;
    } else {
      assert (a + b)[1..] == a[1..] + b;
      FlattenAppend(a[1..], b);
      Assoc(Packed(a[0]), Flatten(a[1..]), Flatten(b));
    }
  }

  lemma {:induction false} FilterSnoc<R>(msgs: seq<Frame>, views: seq<View<R>>, m: Frame, vm: seq<View<R>>,
                                         base: nat, end: nat, cuts: set<nat>)
    requires |views| == |Flatten(msgs)| && |vm| == |Packed(m)| && end == base + |views|
    ensures |views + vm| == |Flatten(msgs + [m])|
    ensures Filter(msgs + [m], views + vm, base, cuts) == Filter(msgs, views, base, cuts) + Deliver(m, vm[0], end, cuts)
    decreases |msgs|
  {
    FlattenSnoc(msgs, m);
    if msgs == [] {
      LastOnly(m, vm, base, cuts);
      assert msgs + [m] == [m] && views + vm == vm;
    } else {
      var n := |Packed(msgs[0])|;
      var next := base + n;
      var first := Deliver(msgs[0], views[0], base, cuts);
      DropOfSum(msgs, [m], 1);
      DropOfSum(views, vm, n);
      FilterSnoc(msgs[1..], views[n..], m, vm, next, end, cuts);
      FilterStep(msgs + [m], views + vm, base, cuts, msgs[0], views[0], msgs[1..] + [m], views[n..] + vm, n, next);
      FilterStep(msgs, views, base, cuts, msgs[0], views[0], msgs[1..], views[n..], n, next);
      Rejoin(Filter(msgs + [m], views + vm, base, cuts), first, Filter(msgs[1..] + [m], views[n..] + vm, next, cuts),
             Filter(msgs[1..], views[n..], next, cuts), Deliver(m, vm[0], end, cuts), Filter(msgs, views, base, cuts));
    }
  }

  /** One message and the rest, however they are written. */
  lemma FilterStep<R>(msgs: seq<Frame>, views: seq<View<R>>, base: nat, cuts: set<nat>, m: Frame, v: View<R>,
                      msgs': seq<Frame>, views': seq<View<R>>, n: nat, next: nat)
    requires |views| == |Flatten(msgs)| && msgs != [] && msgs[0] == m && views[0] == v
    requires n == |Packed(m)| && next == base + n && msgs[1..] == msgs' && views[n..] == views'
    ensures |views'| == |Flatten(msgs')|
    ensures Filter(msgs, views, base, cuts) == Deliver(m, v, base, cuts) + Filter(msgs', views', next, cuts)
  {
  }

  lemma LastOnly<R>(m: Frame, vm: seq<View<R>>, base: nat, cuts: set<nat>)
    requires |vm| == |Packed(m)|
    ensures |vm| == |Flatten([m])| && Filter([m], vm, base, cuts) == Deliver(m, vm[0], base, cuts)
    ensures InStep(m, vm) ==> Aligned([m], vm)
  {
    assert [m][1..] == [] && vm[|vm|..] == [] && vm[..|vm|] == vm;
    assert Flatten([m]) == Packed(m) + Flatten([m][1..]);
  }

  lemma {:induction false} AlignedSnoc<R>(msgs: seq<Frame>, views: seq<View<R>>, m: Frame, vm: seq<View<R>>)
    requires |views| == |Flatten(msgs)| && |vm| == |Packed(m)| && Aligned(msgs, views) && InStep(m, vm)
    ensures |views + vm| == |Flatten(msgs + [m])| && Aligned(msgs + [m], views + vm)
    decreases |msgs|
  {
    FlattenSnoc(msgs, m);
    if msgs == [] {
      LastOnly(m, vm, 0, {});
      assert msgs + [m] == [m] && views + vm == vm;
    } else {
      var n := |Packed(msgs[0])|;
      assert (msgs + [m])[1..] == msgs[1..] + [m] && (msgs + [m])[0] == msgs[0] && (views + vm)[..n] == views[..n];
      DropOfSum(views, vm, n);
      AlignedSnoc(msgs[1..], views[n..], m, vm);
    }
  }

  /** A cut behind everything cuts nothing. */
  lemma {:induction false} CutBehind<R>(msgs: seq<Frame>, views: seq<View<R>>, base: nat, cuts: set<nat>, extra: nat)
    requires |views| == |Flatten(msgs)| && base + |views| <= extra
    ensures Filter(msgs, views, base, cuts + {extra}) == Filter(msgs, views, base, cuts)
    decreases |msgs|
  {
    if msgs != [] {
      var n := |Packed(msgs[0])|;
      assert Deliver(msgs[0], views[0], base, cuts + {extra}) == Deliver(msgs[0], views[0], base, cuts);
      CutBehind(msgs[1..], views[n..], base + n, cuts, extra);
    }
  }

  // ---------- the loop, one turn at a time ----------

  /** The objects `done`, taken while the map looked like `took`, have added what the loop says to the
      deliveries; a body can be missing only when nothing is `left`. */
  ghost predicate Decoded<R>(done: seq<Object>, took: seq<View<R>>, base: nat,
                                   before: seq<Delivery<R>>, after: seq<Delivery<R>>, left: seq<Object>)
  {
    && |took| == |done|
    && after == before + Decode(done, took, base)
    && (Complete(done, took) || left == [])
  }

  lemma SkippedTurn<R>(o: Object, view: View<R>, at: nat, ds: seq<Delivery<R>>, left: seq<Object>)
    requires !Route(o, view).Routed?
    ensures Decoded([o], [view], at, ds, ds, left)
  {
    assert [o][1..] == [] && [view][1..] == [];
    assert Decode([o], [view], at) == Turn([o], [view], at, {}) + Loop([o][1..], [view][1..], at + 1, {});
  }

  /** The objects a turn takes that finds a channel: the header, and the body if one is wanted and there. */
  function Unit<R>(o: Object, objs: seq<Object>, t: Target<R>): seq<Object> {
    if t.WantsBody() && objs != [] then [o, objs[0]] else [o]
  }

  function PayloadOf<R>(objs: seq<Object>, t: Target<R>): Payload {
    if !t.WantsBody() then NoBody else if objs == [] then Missing else Body(objs[0])
  }

  /** A turn that finds a channel adds one delivery and takes one unit. */
  lemma ServedTurn<R>(o: Object, objs: seq<Object>, took: seq<View<R>>, at: nat, ds: seq<Delivery<R>>,
                      left: seq<Object>)
    requires took != [] && Route(o, took[0]).Routed?
    requires var t := Route(o, took[0]).target;
             |took| == |Unit(o, objs, t)| && left == (if t.WantsBody() && objs != [] then objs[1..] else objs)
    ensures var r := Route(o, took[0]);
            && Decoded(Unit(o, objs, r.target), took, at, ds,
                       ds + [Delivery(at, r.target.chan, r.hdr, PayloadOf(objs, r.target))], left)
            && Unit(o, objs, r.target) + left == [o] + objs
  {
    var unit := Unit(o, objs, Route(o, took[0]).target);
    var n := Taken(unit, took, at, {});
    assert n == |unit| && unit[n..] == [] && took[n..] == [];
    assert Decode(unit, took, at) == Turn(unit, took, at, {}) + Loop(unit[n..], took[n..], at + n, {});
  }

  /** Turns add up. */
  lemma TurnsAddUp<R>(done: seq<Object>, took: seq<View<R>>, unit: seq<Object>, more: seq<View<R>>, base: nat,
                            start: seq<Delivery<R>>, now: seq<Delivery<R>>, next: seq<Delivery<R>>,
                            left: seq<Object>, left': seq<Object>)
    requires Decoded(done, took, base, start, now, left) && left != []
    requires Decoded(unit, more, base + |done|, now, next, left')
    ensures Decoded(done + unit, took + more, base, start, next, left')
  {
    DecodeAppend(done, took, unit, more, base, base + |done|);
    if Complete(unit, more) { CompleteAppend(done, took, unit, more); }
    Assoc(start, Decode(done, took, base), Decode(unit, more, base + |done|));
  }
}
