/**
 What a client's user is told about private messages (src/direct.rs): who a message is from and to, what state the
 conversation is in, why a message was refused, and when a conversation is over.
 */
module DirectEvents {
  import opened Wrappers
  import opened Protocol
  import opened Sanitizer
  import opened DirectHub
  import opened DirectGate
  import opened DirectNetwork

  // ---------- every hub is its own ----------

  predicate HubsKnowThemselves(net: Net) {
    forall s :: s in net.hubs ==> net.hubs[s].local.sessionId == s
  }

  lemma {:induction false} HubsStayThemselves(net: Net, actions: seq<Action>)
    requires HubsKnowThemselves(net) && ValidRun(net, actions)
    ensures HubsKnowThemselves(RunFrom(net, actions))
    decreases actions
  {
    if actions != [] {
      HubsStayThemselves(Apply(net, actions[0]), actions[1..]);
    }
  }

  // ---------- messages received ----------

  /** What one arriving message makes its hub say, if its link lets it in. */
  lemma ReceivedEvent(local: Peer, links: Links, input: Input)
    requires input.Incoming? && SanitizedChat(input.chat.text) == Ok(input.chat.text)
    requires Matches(links, input.from, input.linkId)
    requires var link := links[input.from];
             AfterArrival(link.role, link.state).Some? && link.peer.sessionId == input.from
    ensures var events := Step(local, links, input).events;
            var link := links[input.from];
            && |events| == 1 && events[0].PrivateMessage?
            && events[0].record.sender == link.peer && events[0].record.recipientSessionId == local.sessionId
            && events[0].record.messageId == input.chat.messageId && events[0].record.sentAtMs == input.chat.sentAtMs
            && events[0].record.text == input.chat.text
            && events[0].status ==
               if link.role.Recipient? && link.state.New? then WaitingFor(input.from) else Established
  {
  }

  /** Nothing but an arriving message on its link makes a hub show one as received. */
  lemma OnlyArrivalsAreShown(local: Peer, links: Links, input: Input)
    requires !input.Send? && !(input.Incoming? && Matches(links, input.from, input.linkId))
    ensures forall e :: e in Step(local, links, input).events ==> !e.PrivateMessage?
  {
  }

  /**
   In every run, the message a delivery shows is the next one of its stream, from the member at the other end of the
   connection and to this hub's own session. It is shown as awaiting the reader's answer if the reader was written to
   and has sent nothing yet, and as part of an established conversation otherwise.
   */
  lemma ReceivedMessagesAreAttributed(actions: seq<Action>, a: Action)
    requires ValidRun(EMPTY, actions) && a.Deliver? && Enabled(RunFrom(EMPTY, actions), a)
    ensures var net := RunFrom(EMPTY, actions);
            var c := net.connections[a.at];
            var here, there := At(c, a.end), At(c, Other(a.end));
            forall e :: e in HubOutcome(net, here.session, NextInput(net, a.at, a.end)).events && e.PrivateMessage? ==>
              && here.incoming.queue != []
              && e.record.sender.sessionId == there.session && e.record.recipientSessionId == here.session
              && Chat(e.record.messageId, e.record.sentAtMs, e.record.text) == here.incoming.queue[0]
              && e.status == if a.end.Recipient? && here.sent == [] then WaitingFor(there.session) else Established
  {
    var net := RunFrom(EMPTY, actions);
    ReachableInvariant(actions);
    HubsStayThemselves(EMPTY, actions);
    assert OkAt(net, a.at);
    var c := net.connections[a.at];
    var here, there := At(c, a.end), At(c, Other(a.end));
    var hub := net.hubs[here.session];
    var input := NextInput(net, a.at, a.end);
    if input.Incoming? && Matches(hub.links, input.from, input.linkId) {
      assert LinkNamed(net, here.session, input.from);
      NextIsWelcome(c, a.end, EndState(net, a.at, Initiator), EndState(net, a.at, Recipient));
      ReceivedEvent(hub.local, hub.links, input);
    } else {
      OnlyArrivalsAreShown(hub.local, hub.links, input);
    }
  }

  // ---------- messages sent ----------

  /**
   A message that is queued for the peer is shown to its sender as the same message, from the sender's own session to
   the member it was meant for; the conversation awaits an answer if this was its opening. A message that is not queued
   is not shown, and exactly one reason is given.
   */
  lemma SentMessagesAreEchoed(local: Peer, links: Links, input: Input)
    requires input.Send?
    ensures var o := Step(local, links, input);
            if o.queued.Some? then
              var chat := o.queued.value.chat;
              && chat.messageId == input.messageId && chat.sentAtMs == input.now
              && SanitizedChat(input.text) == Ok(chat.text)
              && input.to in o.links && o.queued.value.linkId == o.links[input.to].linkId
              && o.events == [PrivateMessage(DirectRecord(chat.messageId, local, input.to, chat.sentAtMs, chat.text),
                                             if o.links[input.to].state.AwaitingReply? then WaitingFor(local.sessionId)
                                             else Established)]
            else |o.events| == 1 && o.events[0].Failure?
  {
  }

  /** In every run: the echo names the sending hub's session, and the message goes to the member it was meant for. */
  lemma SentMessagesAreAttributed(actions: seq<Action>, a: Action)
    requires ValidRun(EMPTY, actions) && a.UserSend? && Enabled(RunFrom(EMPTY, actions), a)
    ensures var net := RunFrom(EMPTY, actions);
            var o := HubOutcome(net, a.user, DialInput(net, a));
            o.queued.Some? ==>
              var k := o.queued.value.linkId;
              var chat := o.queued.value.chat;
              && |o.events| == 1 && o.events[0].PrivateMessage?
              && o.events[0].record.sender.sessionId == a.user && o.events[0].record.recipientSessionId == a.to
              && Chat(o.events[0].record.messageId, o.events[0].record.sentAtMs, o.events[0].record.text) == chat
              && chat == Chat(a.messageId, a.now, chat.text) && SanitizedChat(a.text) == Ok(chat.text)
              && (o.events[0].status == WaitingFor(a.user) <==> a.to !in net.hubs[a.user].links)
              && k.connection < |Apply(net, a).connections|
              && At(Apply(net, a).connections[k.connection], k.end).session == a.user
              && At(Apply(net, a).connections[k.connection], Other(k.end)).session == a.to
  {
    var net := RunFrom(EMPTY, actions);
    ReachableInvariant(actions);
    HubsStayThemselves(EMPTY, actions);
    var links := net.hubs[a.user].links;
    SentMessagesAreEchoed(net.hubs[a.user].local, links, DialInput(net, a));
    if a.to in links {
      assert LinkNamed(net, a.user, a.to);
      assert OkAt(net, links[a.to].linkId.connection);
      SessionsStep(net, a);
    } else if Dials(net, a) {
      DialledNamed(net, a);
    }
  }

  // ---------- refusals ----------

  /** Why a message was not sent, over every run of one hub against any peers. */
  lemma RefusalsTellTheReason(local: Peer, inputs: seq<Input>, input: Input)
    requires FreshRun(inputs) && input.Send?
    ensures var links := Run(local, map[], inputs);
            var failure := Step(local, links, input).events[0];
            var clean := SanitizedChat(input.text);
            var linked := input.to in links;
            var silent := linked && TallyOf(local, inputs, links[input.to].linkId).arrived == 0;
            && (failure == Failure(PrivatePeerOffline) <==> clean.Ok? && !linked && input.to !in input.directory)
            && (failure == Failure(PrivateConnectFailed) <==>
                  clean.Ok? && !linked && input.to in input.directory && input.dial.Unreachable?)
            && (failure == Failure(PrivateWaitingForReply) <==>
                  clean.Ok? && silent && links[input.to].linkId.end.Initiator?)
            && (failure == Failure(PrivateNotReady) <==> clean.Ok? && silent && links[input.to].linkId.end.Recipient?)
            && (clean.Err? <==> failure.Failure? && failure.error.InvalidPrivateMessage?)
            && (clean.Err? ==> failure == Failure(InvalidPrivateMessage(clean.error)))
            && var open := clean.Ok? && !silent && (linked || (input.to in input.directory && input.dial.Reached?));
               && (failure == Failure(PrivateConnectionClosed) <==> open && !input.accepted)
               && (failure == Failure(PrivateConnectionClosed) ==> input.to !in Step(local, links, input).links)
               && (Step(local, links, input).queued.Some? <==> open && input.accepted)
  {
    var links := Run(local, map[], inputs);
    if input.to in links {
      GateInvariant(local, inputs, links[input.to].linkId);
    }
  }

  /** A conversation is reported closed exactly when its link goes without a send of ours being at fault. */
  lemma ClosingsAreReported(local: Peer, links: Links, input: Input, p: Uuid)
    requires !input.Send?
    ensures PrivateClosed(p) in Step(local, links, input).events <==>
            p in links && p !in Step(local, links, input).links
  {
  }
}
