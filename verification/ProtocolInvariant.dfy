/** The inductive invariant of the step machine. */
module ProtocolInvariant {
  import opened Options
  import opened Messages
  import opened Protocol

  // ---------- the agent's side and the decoder's position ----------

  ghost predicate OwnerOk(s: State) {
    && s.counter < U64
    && (s.handshake.None? <==> s.counter == 0)
    && (forall q :: q in s.owner ==>
          && q < s.counter && s.owner[q] < |s.calls|
          && s.calls[s.owner[q]].num == q && s.calls[s.owner[q]].sent && s.calls[s.owner[q]].epoch == s.epoch)
    && (s.handshake.Some? ==>
          && s.handshake.value < |s.calls|
          && s.calls[s.handshake.value].num == 0 && s.calls[s.handshake.value].epoch == s.epoch
          && s.calls[s.handshake.value].kind == Plain && !s.calls[s.handshake.value].nested
          && (0 in s.owner ==> s.owner[0] == s.handshake.value)
          && (!s.calls[s.handshake.value].phase.Returned? ==> s.counter == 1))
  }

  ghost predicate AgentOk(s: State) {
    && (forall q :: q in s.replied ==>
          && q in s.owner && s.replied[q] < |s.log|
          && s.log[s.replied[q]].reply && s.log[s.replied[q]].hdr.Seq == q)
    && (forall q :: q in s.open ==>
          && q in s.replied && q in s.owner
          && s.owner[q] < |s.calls| && s.calls[s.owner[q]].kind.Subscribe?)
  }

  ghost predicate MessageOk(s: State, k: nat)
    requires k < |s.log|
  {
    var m := s.log[k];
    && m.hdr.Seq in s.owner && m.hdr.Seq in s.replied
    && s.owner[m.hdr.Seq] < |s.calls|
    && (m.body.Some? ==> Unroutable(m.body.value))
    && (m.reply ==> s.replied[m.hdr.Seq] == k && (m.body.Some? <==> s.calls[s.owner[m.hdr.Seq]].kind.Typed?))
    && (!m.reply ==> m.body.Some? && m.hdr.Seq in s.open && s.replied[m.hdr.Seq] < k)
  }

  ghost predicate LogOk(s: State) {
    && s.read <= |s.log|
    && (s.mid ==> 0 < s.read && s.log[s.read - 1].body.Some?)
    && (forall k :: 0 <= k < |s.log| ==> MessageOk(s, k))
  }

  // ---------- calls ----------

  ghost predicate Active(p: Phase) { p == Waiting || p == Checking || p == GaveUp }

  ghost predicate Registered(s: State, q: nat, r: Ref) { q in s.registry && s.registry[q] == r }

  /** What a call's own fields say about its phase. */
  ghost predicate CallShape(c: Call) {
    && (!c.sent ==> !c.pending && c.heard.None? && (c.phase == Closing(FAILURE) || c.phase == Returned(FAILURE)))
    && (c.pending ==> c.heard.Some?)
    && (c.phase == Answered ==> c.pending)
    && (c.phase == Closing(SUCCESS) || c.phase == Returned(SUCCESS) ==> c.pending && NoError(c))
    && (c.sent && (c.phase == Closing(FAILURE) || c.phase == Returned(FAILURE)) ==> c.pending && !NoError(c))
    && (c.nested ==> !c.pending && c.heard.None?)
    && (!c.kind.Typed? ==> c.data.None?)
    && (c.pending && c.kind.Typed? ==> (c.whole <==> c.data.Some?))
    && (!c.pending ==> c.whole && c.data.None?)
  }

  /** What a call of the present connection has heard. */
  ghost predicate CallHeard(s: State, c: Call) {
    c.heard.Some? ==>
      && c.heard.value < s.read && c.heard.value < |s.log|
      && s.log[c.heard.value].reply && s.log[c.heard.value].hdr.Seq == c.num
      && (c.pending ==> c.hdr == s.log[c.heard.value].hdr)
      && (c.pending && c.data.Some? ==> c.data == s.log[c.heard.value].body)
  }

  ghost predicate CallOk(s: State, i: nat)
    requires i < |s.calls|
  {
    var c := s.calls[i];
    && CallShape(c)
    && c.epoch <= s.epoch
    && (c.epoch < s.epoch ==> c.phase.Returned?)
    && (c.epoch == s.epoch && c.sent ==> c.num in s.owner && s.owner[c.num] == i)
    && (c.epoch == s.epoch ==> CallHeard(s, c))
    && (c.epoch == s.epoch && Active(c.phase) && c.heard.None? ==> Registered(s, c.num, Req(i)))
    && (c.nested && !c.phase.Returned? ==> InCallback(s))
  }

  ghost predicate StopsOk(s: State) {
    forall i :: 0 <= i < |s.calls| && s.calls[i].kind.Stop? && s.calls[i].epoch == s.epoch ==>
      OwnSubscription(s, s.calls[i].kind.target)
  }

  ghost predicate CallsOk(s: State) {
    forall i :: 0 <= i < |s.calls| ==> CallOk(s, i)
  }

  // ---------- the map ----------

  ghost predicate FoundBy(s: State, i: nat) {
    s.io.Busy? && s.io.stage == Found && s.io.ref == Req(i)
  }

  ghost predicate EntryOk(s: State, q: nat)
    requires q in s.registry
  {
    match s.registry[q]
    case Req(c) =>
      && c < |s.calls| && s.calls[c].num == q && s.calls[c].epoch == s.epoch && s.calls[c].sent
      && Active(s.calls[c].phase) && !s.calls[c].pending
      && (s.calls[c].heard.Some? ==> FoundBy(s, c))
    case Chan(i) =>
      && i < |s.subs| && s.subs[i].num == q && s.subs[i].deletes == 0 && q != 0
      && (s.subs[i].epoch < s.epoch ==> q !in s.owner)
  }

  ghost predicate RegistryOk(s: State) {
    forall q :: q in s.registry ==> EntryOk(s, q)
  }

  // ---------- subscriptions ----------

  /** The messages with number `q` among those from `lo` up to `hi`. */
  ghost function Positions(log: seq<Message>, q: nat, lo: nat, hi: nat): seq<nat>
    requires hi <= |log|
    decreases hi
  {
    if hi <= lo then []
    else Positions(log, q, lo, hi - 1) + (if log[hi - 1].hdr.Seq == q then [hi - 1] else [])
  }

  ghost function Indices(got: seq<Receipt>): seq<nat> {
    seq(|got|, i requires 0 <= i < |got| => got[i].msg)
  }

  /** The message looked up for this subscription and not handed to it yet. */
  ghost function InWindow(s: State, i: nat): seq<nat> {
    if s.io.Busy? && s.io.stage == Found && s.io.ref == Chan(i) then [s.io.msg] else []
  }

  ghost function Until(s: State, i: nat): nat
    requires i < |s.subs|
  {
    if s.subs[i].stop.Some? then s.subs[i].stop.value else s.read
  }

  /** The call that installed a subscription of the present connection. */
  ghost predicate InstalledBy(s: State, sub: Sub) {
    && sub.caller < |s.calls|
    && var c := s.calls[sub.caller];
       && c.num == sub.num && c.epoch == s.epoch && c.sent && c.kind == Subscribe(sub.kind)
       && (c.phase == Closing(SUCCESS) || c.phase == Returned(SUCCESS))
       && c.heard.Some? && c.heard.value < sub.start
  }

  ghost predicate TraceOk(s: State, i: nat)
    requires i < |s.subs| && s.read <= |s.log|
  {
    && s.subs[i].start <= Until(s, i) <= s.read
    && Indices(s.subs[i].got) + InWindow(s, i) == Positions(s.log, s.subs[i].num, s.subs[i].start, Until(s, i))
    && (forall j :: 0 <= j < |s.subs[i].got| ==> s.subs[i].got[j].msg < s.read)
  }

  /** The j-th receipt of a subscription is the completion of its query. */
  ghost predicate Completes(s: State, i: nat, j: nat)
    requires i < |s.subs| && j < |s.subs[i].got|
  {
    && s.subs[i].got[j].msg < |s.log|
    && CallbackOf(s, s.subs[i].kind, s.subs[i].got[j]) == Some(OnComplete)
  }

  ghost predicate CompletionOk(s: State, i: nat)
    requires i < |s.subs|
  {
    forall j {:trigger Completes(s, i, j)} :: 0 <= j < |s.subs[i].got| && Completes(s, i, j) ==>
      && j == |s.subs[i].got| - 1
      && (s.subs[i].deletes == 1 || (InCallback(s) && s.io.ref == Chan(i)))
  }

  ghost predicate SubShape(s: State, i: nat)
    requires i < |s.subs|
  {
    var b := s.subs[i];
    && b.num != 0 && b.epoch <= s.epoch
    && b.deletes <= 1
    && (b.deletes == 1 <==> b.stop.Some?)
    && (b.epoch == s.epoch ==>
          && InstalledBy(s, b)
          && (b.deletes == 0 ==> Registered(s, b.num, Chan(i))))
  }

  ghost predicate SubsOk(s: State) {
    forall i :: 0 <= i < |s.subs| ==> SubShape(s, i)
  }

  ghost predicate TracesOk(s: State)
    requires s.read <= |s.log|
  {
    forall i :: 0 <= i < |s.subs| && s.subs[i].epoch == s.epoch ==> TraceOk(s, i)
  }

  ghost predicate CompletionsOk(s: State) {
    forall i :: 0 <= i < |s.subs| && s.subs[i].epoch == s.epoch ==> CompletionOk(s, i)
  }

  // ---------- the I/O thread ----------

  ghost predicate IoReq(s: State, c: nat)
    requires s.io.Busy? && s.io.msg < |s.log|
  {
    && c < |s.calls|
    && s.calls[c].num == s.io.num && s.calls[c].epoch == s.epoch && s.calls[c].sent && !s.calls[c].nested
    && s.calls[c].heard == Some(s.io.msg)
    && (!s.io.cut && !s.io.raced ==> Active(s.calls[c].phase))
    && (s.io.stage == Found ==>
          if s.io.cut then s.io.num !in s.registry else Registered(s, s.io.num, Req(c)))
    && (s.io.stage == Erased ==> s.io.num !in s.registry)
    && (s.io.stage != Producing ==>
          !s.io.raced && !s.calls[c].pending && s.mid == s.log[s.io.msg].body.Some?)
    && (s.io.stage == Producing ==> s.calls[c].pending)
  }

  ghost predicate IoChan(s: State, i: nat)
    requires s.io.Busy? && s.io.msg < |s.log|
  {
    && i < |s.subs|
    && s.subs[i].num == s.io.num && s.subs[i].epoch == s.epoch
    && !s.log[s.io.msg].reply
    && s.io.stage != Erased && !s.io.raced
    && (s.io.cut <==> s.subs[i].deletes == 1)
    && (s.io.stage == Found ==> s.mid)
    && (s.io.stage == Producing ==>
          0 < |s.subs[i].got| && s.subs[i].got[|s.subs[i].got| - 1].msg == s.io.msg)
  }

  ghost predicate IoOk(s: State) {
    && (s.fault ==> s.io.Busy? && Dead(s, s.io.ref))
    && (s.io.Busy? ==>
          && 0 < s.read && s.io.msg == s.read - 1 && s.io.msg < |s.log|
          && s.log[s.io.msg].hdr.Seq == s.io.num
          && match s.io.ref case Req(c) => IoReq(s, c) case Chan(i) => IoChan(s, i))
  }

  /** A reply that has been looked up leaves no waiting request behind: either it found the
      channel, or the channel is no longer registered. */
  ghost predicate RepliesOk(s: State) {
    forall k :: 0 <= k < s.read && k < |s.log| && s.log[k].reply ==>
      ReplyHeard(s, s.log[k].hdr.Seq, k)
  }

  ghost predicate ReplyHeard(s: State, q: nat, k: nat) {
    q in s.registry && s.registry[q].Req? && s.registry[q].call < |s.calls| ==>
      s.calls[s.registry[q].call].heard == Some(k)
  }

  // ---------- all of it ----------

  ghost predicate Inv(s: State) {
    && OwnerOk(s) && AgentOk(s) && LogOk(s) && CallsOk(s) && StopsOk(s) && RegistryOk(s)
    && SubsOk(s) && TracesOk(s) && CompletionsOk(s) && IoOk(s) && RepliesOk(s)
  }

  lemma InitKeeps()
    ensures Inv(Init())
  {
  }
}
