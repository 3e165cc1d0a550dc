/**
 The reply gate of one hub against peers that send anything at all: per link, what the hub sends and shows is bounded
 by what has arrived on that same link, over every run.
 */
module DirectGate {
  import opened Wrappers
  import opened Protocol
  import opened DirectHub

  /** The link id an input brings into the hub. */
  function Drawn(input: Input): Option<LinkId> {
    match input
    case Connected(linkId, _) => Some(linkId)
    case Send(_, _, _, _, Reached(linkId), _, _) => Some(linkId)
    case _ => None
  }

  predicate DrawnIn(inputs: seq<Input>, k: LinkId) {
    exists i :: 0 <= i < |inputs| && Drawn(inputs[i]) == Some(k)
  }

  /** The id names the end that drew it. */
  predicate NamesItsEnd(input: Input) {
    match input
    case Connected(linkId, _) => linkId.end == Recipient
    case Send(_, _, _, _, Reached(linkId), _, _) => linkId.end == Initiator
    case _ => true
  }

  /** Random ids are never drawn twice. Nothing else is assumed of the inputs. */
  predicate FreshRun(inputs: seq<Input>) {
    && (forall i :: 0 <= i < |inputs| ==> NamesItsEnd(inputs[i]))
    && (forall i, j :: 0 <= i < j < |inputs| && Drawn(inputs[i]).Some? ==> Drawn(inputs[i]) != Drawn(inputs[j]))
  }

  /** Counts for one link: messages it sent, messages its gate let in, and messages shown to the user. */
  datatype Tally = Tally(sent: nat, arrived: nat, shown: nat)

  predicate Arrives(links: Links, input: Input, k: LinkId) {
    && input.Incoming? && input.linkId == k && Matches(links, input.from, k)
    && AfterArrival(links[input.from].role, links[input.from].state).Some?
  }

  function Count(local: Peer, links: Links, t: Tally, input: Input, k: LinkId): Tally {
    var o := Step(local, links, input);
    Tally(
      t.sent + (if o.queued.Some? && o.queued.value.linkId == k then 1 else 0),
      t.arrived + (if Arrives(links, input, k) then 1 else 0),
      t.shown + (if input.Incoming? && input.linkId == k then |o.events| else 0))
  }

  function TallyOf(local: Peer, inputs: seq<Input>, k: LinkId): Tally {
    if inputs == [] then Tally(0, 0, 0)
    else
      var front := inputs[..|inputs| - 1];
      Count(local, Run(local, map[], front), TallyOf(local, front, k), inputs[|inputs| - 1], k)
  }

  // ---------- the invariant ----------

  /** What the state of a live link says about its counts. */
  predicate LiveLink(link: DirectLink, t: Tally) {
    match (link.role, link.state)
    case (Initiator, New) => false
    case (Initiator, AwaitingReply) => t.sent == 1 && t.arrived == 0
    case (Initiator, Active) => t.arrived >= 1
    case (Recipient, New) => t.sent == 0 && t.arrived == 0
    case (Recipient, AwaitingReply) => t.sent == 0 && t.arrived == 1
    case (Recipient, Active) => t.sent >= 1 && t.arrived >= 1
  }

  /** What holds of every link forever, live or gone. */
  predicate Gated(k: LinkId, t: Tally) {
    && t.shown <= t.arrived
    && match k.end
       case Initiator => t.sent >= 2 ==> t.arrived >= 1
       case Recipient => (t.sent >= 1 ==> t.arrived >= 1) && (t.sent == 0 ==> t.arrived <= 1)
  }

  predicate RolesNameEnds(links: Links) {
    forall p :: p in links ==>
      links[p].role == links[p].linkId.end && !(links[p].role.Initiator? && links[p].state.New?)
  }

  predicate GateHolds(links: Links, k: LinkId, t: Tally, drawn: bool) {
    && Gated(k, t)
    && (!drawn ==> t == Tally(0, 0, 0))
    && (forall p :: p in links && links[p].linkId == k ==> drawn && LiveLink(links[p], t))
    && (forall p, q :: p in links && q in links && links[p].linkId == k && links[q].linkId == k ==> p == q)
  }

  lemma RolesStep(local: Peer, links: Links, input: Input)
    requires RolesNameEnds(links) && NamesItsEnd(input)
    ensures RolesNameEnds(Step(local, links, input).links)
  {
  }

  lemma GateSend(local: Peer, links: Links, input: Input, k: LinkId, t: Tally, drawn: bool)
    requires input.Send? && RolesNameEnds(links) && NamesItsEnd(input)
    requires GateHolds(links, k, t, drawn)
    requires drawn ==> Drawn(input) != Some(k)
    ensures GateHolds(Step(local, links, input).links, k, Count(local, links, t, input, k),
                      drawn || Drawn(input) == Some(k))
  {
    var o := SendStep(local, links, input);
    var t' := Count(local, links, t, input, k);
    if o.queued.Some? && o.queued.value.linkId == k {
      var was := LinkForSend(links, input).value[input.to];
      assert was.linkId == k && o.links[input.to].linkId == k;
      assert input.to in links ==> LiveLink(links[input.to], t);
    } else {
      assert t' == t;
    }
  }

  lemma GateIncoming(local: Peer, links: Links, input: Input, k: LinkId, t: Tally, drawn: bool)
    requires input.Incoming? && RolesNameEnds(links)
    requires GateHolds(links, k, t, drawn)
    ensures GateHolds(Step(local, links, input).links, k, Count(local, links, t, input, k), drawn)
  {
  }

  lemma GateStep(local: Peer, links: Links, input: Input, k: LinkId, t: Tally, drawn: bool)
    requires RolesNameEnds(links) && NamesItsEnd(input)
    requires GateHolds(links, k, t, drawn)
    requires drawn ==> Drawn(input) != Some(k)
    ensures GateHolds(Step(local, links, input).links, k, Count(local, links, t, input, k),
                      drawn || Drawn(input) == Some(k))
  {
    match input
    case Send(_, _, _, _, _, _, _) => GateSend(local, links, input, k, t, drawn);
    case Incoming(_, _, _) => GateIncoming(local, links, input, k, t, drawn);
    case _ =>
  }

  lemma {:induction false} GateInvariant(local: Peer, inputs: seq<Input>, k: LinkId)
    requires FreshRun(inputs)
    ensures RolesNameEnds(Run(local, map[], inputs))
    ensures GateHolds(Run(local, map[], inputs), k, TallyOf(local, inputs, k), DrawnIn(inputs, k))
  {
    if inputs != [] {
      var n := |inputs| - 1;
      var front := inputs[..n];
      GateInvariant(local, front, k);
      assert NamesItsEnd(inputs[n]);
      if i :| 0 <= i < n && Drawn(inputs[i]) == Some(k) {
        assert front[i] == inputs[i];
      }
      assert DrawnIn(front, k) ==> Drawn(inputs[n]) != Some(k);
      assert DrawnIn(inputs, k) <==> DrawnIn(front, k) || Drawn(inputs[n]) == Some(k);
      RolesStep(local, Run(local, map[], front), inputs[n]);
      GateStep(local, Run(local, map[], front), inputs[n], k, TallyOf(local, front, k), DrawnIn(front, k));
    }
  }

  // ---------- the guarantees ----------

  /**
   A link this side opened never carries a second message of ours before a message from the peer got through, and a
   live one has sent its opening: no initiator link rests in state New.
   */
  lemma InitiatorWaitsForReply(local: Peer, inputs: seq<Input>, k: LinkId)
    requires FreshRun(inputs) && k.end == Initiator
    ensures var t := TallyOf(local, inputs, k);
            && (t.sent >= 2 ==> t.arrived >= 1)
            && forall p :: Matches(Run(local, map[], inputs), p, k) ==>
                 var link := Run(local, map[], inputs)[p];
                 && link.role == Initiator && link.state != New
                 && (link.state == AwaitingReply <==> t.arrived == 0)
  {
    GateInvariant(local, inputs, k);
  }

  /**
   A link the peer opened never sends before a message arrived on it, and until this side answers at most one message
   is shown, whatever the peer pushes.
   */
  lemma RecipientIsNotFlooded(local: Peer, inputs: seq<Input>, k: LinkId)
    requires FreshRun(inputs) && k.end == Recipient
    ensures var t := TallyOf(local, inputs, k);
            && (t.sent >= 1 ==> t.arrived >= 1)
            && (t.sent == 0 ==> t.shown <= 1)
            && forall p :: Matches(Run(local, map[], inputs), p, k) ==>
                 var link := Run(local, map[], inputs)[p];
                 && link.role == Recipient
                 && (link.state == Active <==> t.sent >= 1)
                 && (link.state == New <==> t.arrived == 0)
  {
    GateInvariant(local, inputs, k);
  }

  /** What a fresh run with `before` in front has left to draw. */
  lemma FreshTail(before: seq<Input>, later: seq<Input>, k: LinkId)
    requires FreshRun(before + later) && DrawnIn(before, k) && later != []
    ensures FreshRun(before + later[..|later| - 1])
    ensures Drawn(later[|later| - 1]) != Some(k)
  {
    var inputs := before + later;
    var front := before + later[..|later| - 1];
    assert forall i :: 0 <= i < |front| ==> front[i] == inputs[i];
    var i :| 0 <= i < |before| && Drawn(before[i]) == Some(k);
    assert inputs[i] == before[i] && inputs[|inputs| - 1] == later[|later| - 1];
  }

  /**
   Once an id drawn by a run has no link, it never has one again: whatever arrives under it later changes nothing and
   shows nothing.
   */
  lemma {:induction false} RemovedLinkIsInert(local: Peer, before: seq<Input>, later: seq<Input>, k: LinkId)
    requires FreshRun(before + later)
    requires DrawnIn(before, k)
    requires forall p :: !Matches(Run(local, map[], before), p, k)
    ensures forall p :: !Matches(Run(local, map[], before + later), p, k)
    ensures TallyOf(local, before + later, k) == TallyOf(local, before, k)
  {
    if later == [] {
      assert before + later == before;
    } else {
      var n := |later| - 1;
      var inputs := before + later;
      var front := before + later[..n];
      FreshTail(before, later, k);
      RemovedLinkIsInert(local, before, later[..n], k);
      InertStep(local, Run(local, map[], front), later[n], TallyOf(local, front, k), k);
      assert inputs[..|inputs| - 1] == front && inputs[|inputs| - 1] == later[n];
    }
  }

  lemma InertStep(local: Peer, links: Links, input: Input, t: Tally, k: LinkId)
    requires forall p :: !Matches(links, p, k)
    requires Drawn(input) != Some(k)
    ensures forall p :: !Matches(Step(local, links, input).links, p, k)
    ensures Count(local, links, t, input, k) == t
    ensures (input.Incoming? || input.Disconnected?) && input.linkId == k ==>
              Step(local, links, input) == Quiet(links)
  {
    if input.Incoming? {
      assert !Matches(links, input.from, k);
    }
    if input.Disconnected? {
      assert !Matches(links, input.from, k);
    }
    if input.Send? {
      assert !Matches(links, input.to, k);
    }
    forall p ensures !Matches(Step(local, links, input).links, p, k) {
      assert !Matches(links, p, k);
    }
  }
}
