/** The channels of SerfChannel.h and SerfChannel.cpp. */
module Channels {
  import opened Options
  import opened Messages
  import opened Decoder
  import Demux

  /** What `next` would give for the body. */
  ghost function Offered(unp: Unpacker): Option<Object>
    reads unp, unp.buf
    requires unp.Valid()
  {
    var objs := Objects(unp.dec, unp.Pending());
    if objs == [] then None else Some(objs[0])
  }

  /** The objects left to decode after a channel has taken what it wants. */
  ghost function Leftover(unp: Unpacker, takes: bool): seq<Object>
    reads unp, unp.buf
    requires unp.Valid()
  {
    var objs := Objects(unp.dec, unp.Pending());
    if takes && objs != [] then objs[1..] else objs
  }

  /** `ResultChannel<T>`, and `ResultChannel<bool>` when it is not typed. `accepts` tells which objects
      convert to the result type. */
  class ResultChannel {
    const typed: bool
    const accepts: Object -> bool
    var hdr: ResponseHeader
    var data: Option<Object>
    var dataPending: bool

    constructor (typed: bool, accepts: Object -> bool)
      ensures this.typed == typed && this.accepts == accepts
      ensures hdr == ResponseHeader(0, "") && data == None && !dataPending
    {
      this.typed, this.accepts := typed, accepts;
      hdr, data, dataPending := ResponseHeader(0, ""), None, false;
    }

    ghost function Held(): Slot
      reads this
    {
      Slot(hdr, data, dataPending)
    }

    /** The header is stored first; a body that does not convert throws before the data is pending. */
    method Produce(h: ResponseHeader, unp: Unpacker) returns (threw: bool)
      requires unp.Valid()
      modifies this`hdr, this`data, this`dataPending, unp`parsed
      ensures unp.Valid() && hdr == h
      ensures var body := if typed then old(Offered(unp)) else None;
              && (threw <==> body.Some? && !accepts(body.value))
              && dataPending == (!threw || old(dataPending))
              && data == (if body.Some? && !threw then body else old(data))
      ensures Objects(unp.dec, unp.Pending()) == old(Leftover(unp, typed))
      ensures Rest(unp.dec, unp.Pending()) == old(Rest(unp.dec, unp.Pending()))
    {
      hdr := h;
      if typed {
        var o := unp.Next();
        if o.Some? {
          if !accepts(o.value) { return true; }
          data := o;
        }
      }
      dataPending := true;
      threw := false;
    }
  }

  /** `LogChannel`, `EventChannel` and `QueryChannel` with their listener: `called` is what the listener
      has been told, in order. */
  class ListenerChannel {
    const kind: ListenerKind
    var called: seq<Callback>

    constructor (kind: ListenerKind)
      ensures this.kind == kind && called == []
    {
      this.kind := kind;
      called := [];
    }

    /** Takes one object if there is one and tells the listener what it means. A log record that does
        not convert throws; the others swallow their exceptions. `done` asks for deregistration. */
    method Produce(h: ResponseHeader, unp: Unpacker) returns (threw: bool, done: bool)
      requires unp.Valid()
      modifies this`called, unp`parsed
      ensures unp.Valid()
      ensures var c := CallbackFor(kind, old(Offered(unp)));
              && called == old(called) + (if c.Some? then [c.value] else [])
              && (done <==> c == Some(OnComplete))
              && (threw <==> kind == LOG && c.None?)
      ensures Objects(unp.dec, unp.Pending()) == old(Leftover(unp, true))
      ensures Rest(unp.dec, unp.Pending()) == old(Rest(unp.dec, unp.Pending()))
    {
      threw, done := false, false;
      var o := unp.Next();
      match kind {
        case LOG =>
          var record := OnLog("");
          if o.Some? {
            var r := LogCallback(o.value);
            if r.None? { return true, false; }
            record := r.value;
          }
          called := called + [record];
        case EVENT =>
          if o.Some? {
            var r := EventCallback(o.value);
            if r.Some? { called := called + [r.value]; }
          }
        case QUERY =>
          if o.Some? {
            var r := QueryCallback(o.value);
            if r.Some? {
              called := called + [r.value];
              done := r.value.OnComplete?;
            }
          }
      }
    }
  }

  /** `ChannelBase *`: the type tag and the object behind it. */
  datatype Channel = Request(r: ResultChannel) | Listener(l: ListenerChannel)

  function RoleOf(c: Channel): Demux.Role {
    match c
    case Request(r) => if r.typed then Demux.Typed else Demux.Plain
    case Listener(l) => Demux.Hears(l.kind)
  }

  predicate WantsBody(c: Channel) { c.Listener? || c.r.typed }

  ghost function ObjectOf(c: Channel): object {
    match c case Request(r) => r case Listener(l) => l
  }

  // ---------- what a channel makes of the deliveries it gets ----------

  /** The answer a result channel holds. */
  datatype Slot = Slot(hdr: ResponseHeader, data: Option<Object>, pending: bool)

  function Answered(s: Slot, accepts: Object -> bool, h: ResponseHeader, p: Demux.Payload): Slot {
    match p
    case Body(o) => if accepts(o) then Slot(h, Some(o), true) else s.(hdr := h)
    case _ => Slot(h, s.data, true)
  }

  function Told(kind: ListenerKind, p: Demux.Payload): seq<Callback> {
    match CallbackFor(kind, if p.Body? then Some(p.obj) else None) case Some(c) => [c] case None => []
  }

  /** The answer that a series of deliveries leaves in a result channel. */
  ghost function Stored(trace: seq<Demux.Delivery<Channel>>, r: ResultChannel): Slot {
    if trace == [] then Slot(ResponseHeader(0, ""), None, false)
    else
      var d := trace[|trace| - 1];
      var before := Stored(trace[..|trace| - 1], r);
      if d.chan == Request(r) then Answered(before, r.accepts, d.hdr, d.payload) else before
  }

  /** The callbacks that a series of deliveries makes to the listener of a channel. */
  ghost function Heard(trace: seq<Demux.Delivery<Channel>>, l: ListenerChannel): seq<Callback> {
    if trace == [] then []
    else
      var d := trace[|trace| - 1];
      Heard(trace[..|trace| - 1], l) + if d.chan == Listener(l) then Told(l.kind, d.payload) else []
  }

  /** The state of a channel is what those deliveries have made of it. */
  ghost predicate Reflects(trace: seq<Demux.Delivery<Channel>>, o: object)
    reads o
  {
    && (o is ResultChannel ==> var r := o as ResultChannel; r.Held() == Stored(trace, r))
    && (o is ListenerChannel ==> var l := o as ListenerChannel; l.called == Heard(trace, l))
  }

  /** A channel that no delivery was made to. */
  lemma {:induction false} Untouched(trace: seq<Demux.Delivery<Channel>>, o: object)
    requires forall i :: 0 <= i < |trace| ==> ObjectOf(trace[i].chan) != o
    ensures o is ResultChannel ==> Stored(trace, o as ResultChannel) == Slot(ResponseHeader(0, ""), None, false)
    ensures o is ListenerChannel ==> Heard(trace, o as ListenerChannel) == []
  {
    if trace != [] {
      assert ObjectOf(trace[|trace| - 1].chan) != o;
      Untouched(trace[..|trace| - 1], o);
    }
  }

  /** An answer is that of the last delivery to the channel. */
  lemma {:induction false} AnswerIsDelivered(trace: seq<Demux.Delivery<Channel>>, r: ResultChannel) returns (i: nat)
    requires Stored(trace, r).pending
    ensures i < |trace| && trace[i].chan == Request(r) && Stored(trace, r).hdr == trace[i].hdr
    ensures forall j :: i < j < |trace| ==> trace[j].chan != Request(r)
  {
    i := |trace| - 1;
    if trace[i].chan != Request(r) { i := AnswerIsDelivered(trace[..i], r); }
  }

  /** Deliveries to others leave the answer alone. */
  lemma {:induction false} AnswerStays(trace: seq<Demux.Delivery<Channel>>, more: seq<Demux.Delivery<Channel>>,
                                          r: ResultChannel)
    requires forall i :: 0 <= i < |more| ==> more[i].chan != Request(r)
    ensures Stored(trace + more, r) == Stored(trace, r)
  {
    var n := |more|;
    if n == 0 {
      assert trace + more == trace;
    } else {
      AnswerStays(trace, more[..n - 1], r);
      assert (trace + more)[..|trace| + n - 1] == trace + more[..n - 1];
    }
  }

  /** Exactly when a channel has an answer: a delivery to it carried no body, or one that converts. */
  lemma {:induction false} PendingExactlyWhen(trace: seq<Demux.Delivery<Channel>>, r: ResultChannel)
    ensures Stored(trace, r).pending <==>
            exists i :: 0 <= i < |trace| && trace[i].chan == Request(r)
                        && (trace[i].payload.Body? ==> r.accepts(trace[i].payload.obj))
  {
    if trace != [] {
      var n := |trace| - 1;
      PendingExactlyWhen(trace[..n], r);
      assert forall i :: 0 <= i < n ==> trace[..n][i] == trace[i];
      if Stored(trace[..n], r).pending {
        var i :| 0 <= i < n && trace[..n][i].chan == Request(r)
                 && (trace[..n][i].payload.Body? ==> r.accepts(trace[..n][i].payload.obj));
        assert trace[i].chan == Request(r);
      }
    }
  }

  /** It keeps it. */
  lemma PendingStays(trace: seq<Demux.Delivery<Channel>>, later: seq<Demux.Delivery<Channel>>, r: ResultChannel)
    requires trace <= later && Stored(trace, r).pending
    ensures Stored(later, r).pending
  {
    PendingExactlyWhen(trace, r);
    PendingExactlyWhen(later, r);
    var i :| 0 <= i < |trace| && trace[i].chan == Request(r)
             && (trace[i].payload.Body? ==> r.accepts(trace[i].payload.obj));
    assert later[i] == trace[i];
  }

  /** The answer of a channel that has had one delivery. */
  lemma OnlyAnswer(trace: seq<Demux.Delivery<Channel>>, r: ResultChannel, i: nat)
    requires i < |trace| && trace[i].chan == Request(r)
    requires forall j :: 0 <= j < |trace| && j != i ==> trace[j].chan != Request(r)
    ensures Stored(trace, r) ==
              Answered(Slot(ResponseHeader(0, ""), None, false), r.accepts, trace[i].hdr, trace[i].payload)
  {
    var front, last, more := trace[..i], trace[i], trace[i + 1..];
    Untouched(front, r);
    assert trace == (front + [last]) + more && (front + [last])[..i] == front;
    AnswerStays(front + [last], more, r);
  }

  /** Data that is held was accepted. */
  lemma {:induction false} DataIsAccepted(trace: seq<Demux.Delivery<Channel>>, r: ResultChannel)
    ensures var s := Stored(trace, r); s.data.Some? ==> r.accepts(s.data.value)
  {
    if trace != [] { DataIsAccepted(trace[..|trace| - 1], r); }
  }

  /** One delivery more changes the channel it is made to, and no other. */
  lemma OneMore(trace: seq<Demux.Delivery<Channel>>, d: Demux.Delivery<Channel>, o: object)
    ensures o is ResultChannel ==> var r := o as ResultChannel;
              Stored(trace + [d], r) ==
                if d.chan == Request(r) then Answered(Stored(trace, r), r.accepts, d.hdr, d.payload)
                else Stored(trace, r)
    ensures o is ListenerChannel ==> var l := o as ListenerChannel;
              Heard(trace + [d], l) == Heard(trace, l) + if d.chan == Listener(l) then Told(l.kind, d.payload) else []
  {
    assert (trace + [d])[..|trace|] == trace;
  }

  /** Every one of these channels is in the state the deliveries have left it in, and they were made to no
      others. */
  ghost predicate AllReflect(trace: seq<Demux.Delivery<Channel>>, objs: set<object>)
    reads objs
  {
    && (forall o :: o in objs ==> Reflects(trace, o))
    && (forall i :: 0 <= i < |trace| ==> ObjectOf(trace[i].chan) in objs)
  }

  lemma Newcomer(trace: seq<Demux.Delivery<Channel>>, objs: set<object>, o: object)
    requires AllReflect(trace, objs) && o !in objs && Reflects([], o)
    ensures AllReflect(trace, objs + {o})
  {
    Untouched(trace, o);
  }

  lemma Newcomers(trace: seq<Demux.Delivery<Channel>>, objs: set<object>, more: set<object>)
    requires AllReflect(trace, objs) && objs !! more && forall o :: o in more ==> Reflects([], o)
    ensures AllReflect(trace, objs + more)
  {
    forall o | o in more ensures Reflects(trace, o) { Untouched(trace, o); }
  }
}
