/** The I/O thread as a function: what it makes of the bytes on its socket, of the moments at which these can be
    read, and of what the other threads do. */
module Pump {
  import opened Options
  import opened Messages
  import opened Decoder
  import opened Schedule
  import opened Sequences
  import Demux

  /** Where the I/O thread stands between two rounds: the bytes not decoded, what the socket has in store, the
      rounds to come, the schedule, and the class's own state. */
  datatype Stand<R> = Stand(pending: seq<byte>, polls: seq<Poll>, incoming: seq<byte>, rounds: nat,
                         script: seq<Sched<R>>, live: Demux.View<R>,
                         views: seq<Demux.View<R>>, trace: seq<Demux.Delivery<R>>)

  /** The batches of objects that the rounds get out of the bytes. */
  ghost function BatchesOf<R>(dec: Dec, s: Stand<R>): seq<seq<Object>>
    requires SelfDelimiting(dec)
  {
    Batches(dec, s.pending, Pieces(s.polls, s.incoming, s.rounds))
  }

  /** Where it is when the others have done what comes first, with so many rounds to come. */
  ghost function WhileWaiting<R>(s: Stand<R>, rounds: nat): Stand<R> {
    s.(live := After(s.live, First(s.script).before), script := Later(s.script), rounds := rounds)
  }

  /** Where it is after all the rounds: the bytes come off the socket in pieces, the batches are the objects
      these complete, the live entries those of `Play`, and the deliveries those of the loop at them. */
  ghost function Pumped<R>(dec: Dec, s: Stand<R>): Stand<R>
    requires SelfDelimiting(dec)
  {
    var pieces := Pieces(s.polls, s.incoming, s.rounds);
    PiecesAreBytes(s.polls, s.incoming, s.rounds);
    var batches := BatchesOf(dec, s);
    var p := PlayBatches(batches, s.live, s.script, |s.views|);
    Stand(Rest(dec, s.pending + Flat(pieces)), PollsAfter(s.polls, s.incoming, s.rounds),
          s.incoming[|Flat(pieces)|..], 0, Unplayed(s.script, p.turns), p.live, s.views + Flat(p.views),
          s.trace + Demux.DecodeBatches(batches, p.views, |s.views|))
  }

  /** Where it is after the first. */
  ghost function OneRound<R>(dec: Dec, s: Stand<R>): Stand<R>
    requires SelfDelimiting(dec) && s.rounds != 0
  {
    var f := Filled(s.polls, |s.incoming|, 0);
    var bytes := s.pending + s.incoming[..f.count];
    var objs := Objects(dec, bytes);
    var p := Play(objs, s.live, s.script, |s.views|, {});
    Stand(Rest(dec, bytes), f.polls, s.incoming[f.count..], s.rounds - 1, Unplayed(s.script, p.turns), p.live,
          s.views + p.views, s.trace + Demux.Decode(objs, p.views, |s.views|))
  }

  lemma NoRoundLeft<R>(dec: Dec, s: Stand<R>)
    requires SelfDelimiting(dec) && s.rounds == 0 && dec(s.pending).None?
    ensures Pumped(dec, s) == s
  {
    assert s.pending + [] == s.pending;
  }

  lemma RoundAddsUp<R>(dec: Dec, s: Stand<R>)
    requires SelfDelimiting(dec) && s.rounds != 0
    ensures Pumped(dec, OneRound(dec, s)) == Pumped(dec, s) && dec(OneRound(dec, s).pending).None?
  {
    hide Pieces, Batches, PlayBatches, Play, Demux.DecodeBatches, Flat, Filled, PollsAfter;
    hide Objects, Rest, SelfDelimiting;
    var f, n := Filled(s.polls, |s.incoming|, 0), OneRound(dec, s);
    var later := Pieces(n.polls, n.incoming, n.rounds);
    PieceAddsUp(dec, s.pending, s.polls, s.incoming, s.rounds, f, later);
    var objs := Objects(dec, s.pending + s.incoming[..f.count]);
    var p := Play(objs, s.live, s.script, |s.views|, {});
    BatchAddsUp(objs, Batches(dec, n.pending, later), s.live, s.script, s.views, |s.views|, s.trace, p,
                n.views, |n.views|, n.trace, n.script);
  }

  lemma PieceAddsUp(dec: Dec, carry: seq<byte>, polls: seq<Poll>, incoming: seq<byte>, rounds: nat, f: Fill,
                    later: seq<seq<byte>>)
    requires SelfDelimiting(dec) && rounds != 0 && f == Filled(polls, |incoming|, 0)
    requires later == Pieces(f.polls, incoming[f.count..], rounds - 1)
    ensures var bytes, all := carry + incoming[..f.count], Pieces(polls, incoming, rounds);
            && dec(Rest(dec, bytes)).None? && |Flat(all)| <= |incoming| && |Flat(later)| <= |incoming| - f.count
            && incoming[|Flat(all)|..] == incoming[f.count..][|Flat(later)|..]
            && Batches(dec, carry, all) == [Objects(dec, bytes)] + Batches(dec, Rest(dec, bytes), later)
            && Rest(dec, carry + Flat(all)) == Rest(dec, Rest(dec, bytes) + Flat(later))
            && PollsAfter(polls, incoming, rounds) == PollsAfter(f.polls, incoming[f.count..], rounds - 1)
  {
    hide Batches, Objects, Rest, Flat, Filled, SelfDelimiting;
    PiecesAreBytes(f.polls, incoming[f.count..], rounds - 1);
    OnePieceMore(dec, carry, incoming[..f.count], later);
  }

  lemma OnePieceMore(dec: Dec, carry: seq<byte>, piece: seq<byte>, later: seq<seq<byte>>)
    requires SelfDelimiting(dec)
    ensures var bytes := carry + piece;
            && dec(Rest(dec, bytes)).None? && Flat([piece] + later) == piece + Flat(later)
            && Batches(dec, carry, [piece] + later) == [Objects(dec, bytes)] + Batches(dec, Rest(dec, bytes), later)
            && Rest(dec, carry + Flat([piece] + later)) == Rest(dec, Rest(dec, bytes) + Flat(later))
  {
    RestIsPartial(dec, carry + piece);
    FeedLater(dec, carry + piece, Flat(later));
    Assoc(carry, piece, Flat(later));
    assert ([piece] + later)[1..] == later;
  }

  lemma BatchAddsUp<R>(b: seq<Object>, later: seq<seq<Object>>, v: Demux.View<R>, script: seq<Sched<R>>,
                    views: seq<Demux.View<R>>, base: nat, trace: seq<Demux.Delivery<R>>, p: Show<R>,
                    views': seq<Demux.View<R>>, end: nat, trace': seq<Demux.Delivery<R>>,
                    rest: seq<Sched<R>>)
    requires p == Play(b, v, script, base, {}) && end == base + |b| && rest == Unplayed(script, p.turns)
    requires views' == views + p.views && trace' == trace + Demux.Decode(b, p.views, base)
    ensures var all, q := PlayBatches([b] + later, v, script, base), PlayBatches(later, p.live, rest, end);
            && all.live == q.live && views + Flat(all.views) == views' + Flat(q.views)
            && Unplayed(script, all.turns) == Unplayed(rest, q.turns)
            && trace + Demux.DecodeBatches([b] + later, all.views, base) ==
                 trace' + Demux.DecodeBatches(later, q.views, end)
  {
    hide PlayBatches, Play, Demux.DecodeBatches, Flat;
    var q := PlayBatches(later, p.live, rest, end);
    PlayBatchesStep(b, later, v, script, base, end);
    Demux.DecodeBatchesStep(b, later, p.views, q.views, base, end);
    FlatStep(p.views, q.views);
    Assoc(views, p.views, Flat(q.views));
    Assoc(trace, Demux.Decode(b, p.views, base), Demux.DecodeBatches(later, q.views, end));
    UnplayedOfRemaining(script, p.turns, q.turns);
  }

  /** It is the loop over all the objects of the bytes, with the batch ends marked. */
  lemma PumpedIsPlay<R>(dec: Dec, s: Stand<R>)
    requires SelfDelimiting(dec) && dec(s.pending).None?
    ensures var objs := Objects(dec, s.pending + Flat(Pieces(s.polls, s.incoming, s.rounds)));
            var cuts := Demux.Ends(BatchesOf(dec, s), |s.views|);
            var p, after := Play(objs, s.live, s.script, |s.views|, cuts), Pumped(dec, s);
            && after.views == s.views + p.views && after.live == p.live && after.script == Unplayed(s.script, p.turns)
            && after.trace == s.trace + Demux.Loop(objs, p.views, |s.views|, cuts)
  {
    hide Play, PlayBatches, Pieces, Batches, Objects, Demux.Loop, Demux.DecodeBatches, Demux.Ends, Flat, SelfDelimiting;
    var batches, cuts := BatchesOf(dec, s), Demux.Ends(BatchesOf(dec, s), |s.views|);
    AnySplitSameObjects(dec, s.pending, Pieces(s.polls, s.incoming, s.rounds));
    PlayBatchesIsPlay(batches, s.live, s.script, |s.views|, cuts);
    Demux.BatchesAreCuts(batches, PlayBatches(batches, s.live, s.script, |s.views|).views, |s.views|, cuts);
  }

  /** If the bytes are those of messages to which the live entries were aligned throughout, the deliveries are
      the registered messages, each with its own body, in order, with a body missing only where a batch ended in
      front of it. */
  lemma DeliversTheRegistered<R>(dec: Dec, s: Stand<R>, msgs: seq<Demux.Frame>)
    requires SelfDelimiting(dec) && dec(s.pending).None?
    requires Objects(dec, s.pending + Flat(Pieces(s.polls, s.incoming, s.rounds))) == Demux.Flatten(msgs)
    requires var taken := PlayBatches(BatchesOf(dec, s), s.live, s.script, |s.views|).views;
             |Flat(taken)| == |Demux.Flatten(msgs)| && Demux.Aligned(msgs, Flat(taken))
    ensures var taken := PlayBatches(BatchesOf(dec, s), s.live, s.script, |s.views|).views;
            Pumped(dec, s).trace ==
              s.trace + Demux.Filter(msgs, Flat(taken), |s.views|, Demux.Ends(BatchesOf(dec, s), |s.views|))
  {
    AnySplitSameObjects(dec, s.pending, Pieces(s.polls, s.incoming, s.rounds));
    Demux.LoopRefinesFilter(msgs, BatchesOf(dec, s), PlayBatches(BatchesOf(dec, s), s.live, s.script, |s.views|).views,
                            |s.views|);
  }

  // ---------- one message on the wire ----------

  /** These bytes are one object, or one behind the other two, and nothing else. */
  lemma {:induction false} WholeObjects(dec: Dec, b: seq<byte>, n: nat)
    requires SelfDelimiting(dec) && dec(b).Some? && dec(b).value.size == n
    ensures n == |b| ==> Objects(dec, b) == [dec(b).value.obj]
    ensures n < |b| && dec(b[n..]).Some? && dec(b[n..]).value.size == |b| - n ==>
              Objects(dec, b) == [dec(b).value.obj, dec(b[n..]).value.obj]
    decreases |b|
  {
    Delimited(dec, b);
    if dec([]).Some? { Delimited(dec, []); }
    if n == |b| {
      assert b[n..] == [];
    } else if dec(b[n..]).Some? {
      WholeObjects(dec, b[n..], dec(b[n..]).value.size);
    }
  }

  /** Rounds in which no bytes come change nothing that a channel could notice. */
  lemma SilentRounds<R>(dec: Dec, s: Stand<R>)
    requires SelfDelimiting(dec) && dec(s.pending).None? && s.incoming == []
    ensures var t := Pumped(dec, s); t.trace == s.trace && t.incoming == [] && dec(t.pending).None?
  {
    hide Play, Pieces, Batches, PlayBatches, Demux.DecodeBatches, Demux.Ends;
    PiecesAreBytes(s.polls, s.incoming, s.rounds);
    PumpedIsPlay(dec, s);
    assert s.pending + [] == s.pending;
    assert s.trace + [] == s.trace;
  }

  /** The first turn at a header whose channel takes all that has come. */
  lemma OneTurnDelivers<R>(o: Object, h: ResponseHeader, body: Option<Object>, v: Demux.View<R>,
                           script: seq<Sched<R>>, base: nat)
    requires AsHeader(o) == Some(h)
    requires var found := After(v, First(script).before);
             h.Seq in found && (found[h.Seq].WantsBody() <==> body.Some?)
    ensures var objs := [o] + match body { case None => [] case Some(b) => [b] };
            var payload := match body { case None => Demux.NoBody case Some(b) => Demux.Body(b) };
            Demux.Decode(objs, Play(objs, v, script, base, {}).views, base) ==
              [Demux.Delivery(base, After(v, First(script).before)[h.Seq].chan, h, payload)]
  {
    hide After, AsHeader, EndsQuery;
    var objs := [o] + match body { case None => [] case Some(b) => [b] };
    var t := OneTurn(o, Next(objs, base, {}), v, First(script));
    var n, next := |objs|, base + |objs|;
    assert t.taken == n;
    PlayStep(objs, v, script, base, {}, Next(objs, base, {}), t, [], next);
    NothingToPlay(t.live, Later(script), next, {});
    var views := Play(objs, v, script, base, {}).views;
    assert views == t.views;
    Demux.LoopStep(objs, views, base, {}, n, Demux.Turn(objs, views, base, {}), [], [], next);
    NothingMore(Demux.Turn(objs, views, base, {}));
  }

  /** From the bytes on the socket to the channel: a message that comes alone, in one read, and whose number is
      registered when the thread gets to it, is delivered to the channel there, with its body if the channel takes
      one; and nothing else is delivered to anybody. */
  lemma OneMessagePumped<R>(dec: Dec, s: Stand<R>, o: Object, h: ResponseHeader, body: Option<Object>)
    requires SelfDelimiting(dec) && dec(s.pending).None? && s.rounds != 0
    requires s.polls != [] && s.polls[0].Ready? && |s.incoming| <= s.polls[0].most && |s.incoming| <= 0x10_0000
    requires Objects(dec, s.pending + s.incoming) == [o] + match body { case None => [] case Some(b) => [b] }
    requires AsHeader(o) == Some(h)
    requires var found := After(s.live, First(s.script).before);
             h.Seq in found && (found[h.Seq].WantsBody() <==> body.Some?)
    ensures var payload := match body { case None => Demux.NoBody case Some(b) => Demux.Body(b) };
            var t := Pumped(dec, s);
            && t.trace == s.trace + [Demux.Delivery(|s.views|, After(s.live, First(s.script).before)[h.Seq].chan, h,
                                                    payload)]
            && t.incoming == [] && dec(t.pending).None?
  {
    hide Pumped, Filled, Objects, Rest, Play, After, Demux.Decode, AsHeader, SelfDelimiting;
    ReadAtOnce(s.polls, |s.incoming|);
    assert s.incoming[..|s.incoming|] == s.incoming;
    OneTurnDelivers(o, h, body, s.live, s.script, |s.views|);
    RoundAddsUp(dec, s);
    SilentRounds(dec, OneRound(dec, s));
  }
}
