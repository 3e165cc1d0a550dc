/**
 One private conversation from the first message to an established link: the joint states of DirectNetwork are
 reached.
 */
module DirectConversation {
  import opened Wrappers
  import opened Protocol
  import opened Sanitizer
  import opened DirectHub
  import opened DirectNetwork

  datatype Talk = Talk(caller: Peer, callee: Peer, hello: Chat, answer: Chat)

  predicate Possible(t: Talk) {
    t.caller.sessionId != t.callee.sessionId && CleanChat(t.hello.text) && CleanChat(t.answer.text)
  }

  function LinksOf(peer: Peer, role: LinkRole, state: Option<ConversationState>): Links {
    if state.Some? then map[peer.sessionId := DirectLink(LinkId(0, role), peer, role, state.value)] else map[]
  }

  /** Two hubs with one connection between them. */
  function Talking(t: Talk, i: Option<ConversationState>, r: Option<ConversationState>,
                   connections: seq<Connection>): Net {
    Net(map[t.caller.sessionId := HubState(t.caller, LinksOf(t.callee, Initiator, i)),
            t.callee.sessionId := HubState(t.callee, LinksOf(t.caller, Recipient, r))],
        connections)
  }

  function Line(t: Talk, sent: seq<Chat>, shown: seq<Chat>, toCaller: seq<Chat>,
                answered: seq<Chat>, heard: seq<Chat>, toCallee: seq<Chat>, announced: bool): seq<Connection> {
    [Connection(Side(t.caller.sessionId, sent, shown, Stream(toCaller, Flowing)),
                Side(t.callee.sessionId, answered, heard, Stream(toCallee, Flowing)), announced, !announced)]
  }

  function Hello(t: Talk): Action {
    UserSend(t.caller.sessionId, t.callee.sessionId, t.hello.messageId, t.hello.text,
             map[t.callee.sessionId := t.callee], true, true, t.hello.sentAtMs, true)
  }

  function Answer(t: Talk): Action {
    UserSend(t.callee.sessionId, t.caller.sessionId, t.answer.messageId, t.answer.text,
             map[], false, false, t.answer.sentAtMs, true)
  }

  lemma BothStart(t: Talk)
    requires Possible(t)
    ensures Enabled(EMPTY, Start(t.caller))
    ensures Enabled(Apply(EMPTY, Start(t.caller)), Start(t.callee))
    ensures Apply(Apply(EMPTY, Start(t.caller)), Start(t.callee)) == Talking(t, None, None, [])
  {
  }

  lemma Opens(t: Talk)
    requires Possible(t)
    ensures var net := Talking(t, None, None, []);
            && Enabled(net, Hello(t))
            && Apply(net, Hello(t)) ==
              Talking(t, Some(AwaitingReply), None, Line(t, [t.hello], [], [], [], [], [t.hello], true))
  {
    SanitizingFixesExactlyCleanChat(t.hello.text);
    var net := Talking(t, None, None, []);
    var o := HubOutcome(net, t.caller.sessionId, DialInput(net, Hello(t)));
    assert o.links == LinksOf(t.callee, Initiator, Some(AwaitingReply));
    assert o.queued == Some(Outgoing(LinkId(0, Initiator), t.hello));
    var after := Apply(net, Hello(t));
    assert [] + [t.hello] == [t.hello];
    assert after.connections == Line(t, [t.hello], [], [], [], [], [t.hello], true);
  }

  lemma Announced(t: Talk)
    requires Possible(t)
    ensures var net := Talking(t, Some(AwaitingReply), None, Line(t, [t.hello], [], [], [], [], [t.hello], true));
            && Enabled(net, Announce(0, t.caller))
            && Apply(net, Announce(0, t.caller)) ==
               Talking(t, Some(AwaitingReply), Some(New), Line(t, [t.hello], [], [], [], [], [t.hello], false))
  {
  }

  /** A clean message that the gate of the only link lets in. */
  lemma Arrives(local: Peer, peer: Peer, role: LinkRole, state: ConversationState, chat: Chat)
    requires SanitizedChat(chat.text) == Ok(chat.text) && AfterArrival(role, state).Some?
    ensures var o := Step(local, LinksOf(peer, role, Some(state)), Incoming(LinkId(0, role), peer.sessionId, chat));
            o.links == LinksOf(peer, role, AfterArrival(role, state)) && Shown(o.events) == [chat]
  {
  }

  /** Delivering the one message on its way, when the hub shows it. */
  lemma Delivered(net: Net, end: LinkRole, links: Links, chat: Chat)
    requires Enabled(net, Deliver(0, end)) && At(net.connections[0], end).incoming.queue == [chat]
    requires var o := HubOutcome(net, At(net.connections[0], end).session, NextInput(net, 0, end));
             o.links == links && Shown(o.events) == [chat]
    ensures var c := net.connections[0];
            var side := At(c, end);
            Apply(net, Deliver(0, end)) ==
            Net(WithLinks(net, side.session, links),
                net.connections[0 := WithSide(c, end,
                  side.(shown := side.shown + [chat], incoming := side.incoming.(queue := [])))])
  {
    assert [chat][1..] == [];
  }

  lemma Heard(t: Talk)
    requires Possible(t)
    ensures var net := Talking(t, Some(AwaitingReply), Some(New), Line(t, [t.hello], [], [], [], [], [t.hello], false));
            && Enabled(net, Deliver(0, Recipient))
            && Apply(net, Deliver(0, Recipient)) ==
               Talking(t, Some(AwaitingReply), Some(AwaitingReply),
                 Line(t, [t.hello], [], [], [], [t.hello], [], false))
  {
    SanitizingFixesExactlyCleanChat(t.hello.text);
    var net := Talking(t, Some(AwaitingReply), Some(New), Line(t, [t.hello], [], [], [], [], [t.hello], false));
    Arrives(t.callee, t.caller, Recipient, New, t.hello);
    Delivered(net, Recipient, LinksOf(t.caller, Recipient, Some(AwaitingReply)), t.hello);
    assert [] + [t.hello] == [t.hello];
  }

  lemma Answers(t: Talk)
    requires Possible(t)
    ensures var net := Talking(t, Some(AwaitingReply), Some(AwaitingReply),
      Line(t, [t.hello], [], [], [], [t.hello], [], false));
            && Enabled(net, Answer(t))
            && Apply(net, Answer(t)) ==
               Talking(t, Some(AwaitingReply), Some(Active),
                 Line(t, [t.hello], [], [t.answer], [t.answer], [t.hello], [], false))
  {
    SanitizingFixesExactlyCleanChat(t.answer.text);
    var net := Talking(t, Some(AwaitingReply), Some(AwaitingReply),
      Line(t, [t.hello], [], [], [], [t.hello], [], false));
    var o := HubOutcome(net, t.callee.sessionId, DialInput(net, Answer(t)));
    assert o.links == LinksOf(t.caller, Recipient, Some(Active));
    assert o.queued == Some(Outgoing(LinkId(0, Recipient), t.answer));
    assert [] + [t.answer] == [t.answer];
    assert Apply(net, Answer(t)).connections == Line(t, [t.hello], [], [t.answer], [t.answer], [t.hello], [], false);
  }

  lemma Established(t: Talk)
    requires Possible(t)
    ensures var net := Talking(t, Some(AwaitingReply), Some(Active),
      Line(t, [t.hello], [], [t.answer], [t.answer], [t.hello], [], false));
            && Enabled(net, Deliver(0, Initiator))
            && Apply(net, Deliver(0, Initiator)) ==
               Talking(t, Some(Active), Some(Active),
                 Line(t, [t.hello], [t.answer], [], [t.answer], [t.hello], [], false))
  {
    SanitizingFixesExactlyCleanChat(t.answer.text);
    var net := Talking(t, Some(AwaitingReply), Some(Active),
      Line(t, [t.hello], [], [t.answer], [t.answer], [t.hello], [], false));
    Arrives(t.caller, t.callee, Initiator, AwaitingReply, t.answer);
    Delivered(net, Initiator, LinksOf(t.callee, Initiator, Some(Active)), t.answer);
    assert [] + [t.answer] == [t.answer];
  }

  lemma RunsOn(net: Net, a: Action, rest: seq<Action>)
    requires Enabled(net, a) && ValidRun(Apply(net, a), rest)
    ensures ValidRun(net, [a] + rest) && RunFrom(net, [a] + rest) == RunFrom(Apply(net, a), rest)
  {
  }

  lemma AnsweringRun(t: Talk) returns (run: seq<Action>)
    requires Possible(t)
    ensures var net := Talking(t, Some(AwaitingReply), Some(New), Line(t, [t.hello], [], [], [], [], [t.hello], false));
            && ValidRun(net, run)
            && RunFrom(net, run) ==
               Talking(t, Some(Active), Some(Active),
                 Line(t, [t.hello], [t.answer], [], [t.answer], [t.hello], [], false))
  {
    var installed := Talking(t, Some(AwaitingReply), Some(New), Line(t, [t.hello], [], [], [], [], [t.hello], false));
    var heard := Talking(t, Some(AwaitingReply), Some(AwaitingReply),
      Line(t, [t.hello], [], [], [], [t.hello], [], false));
    var answered := Talking(t, Some(AwaitingReply), Some(Active),
      Line(t, [t.hello], [], [t.answer], [t.answer], [t.hello], [], false));
    Heard(t);
    Answers(t);
    Established(t);
    RunsOn(answered, Deliver(0, Initiator), []);
    run := [Deliver(0, Initiator)] + [];
    RunsOn(heard, Answer(t), run);
    run := [Answer(t)] + run;
    RunsOn(installed, Deliver(0, Recipient), run);
    run := [Deliver(0, Recipient)] + run;
  }

  /**
   Any two members and any two clean texts make a conversation: there is a run from the empty network in which the
   opening is sent, accepted, shown and answered, and both ends are Active with exactly those two messages shown.
   */
  lemma ConversationCanBeEstablished(t: Talk) returns (run: seq<Action>)
    requires Possible(t)
    ensures ValidRun(EMPTY, run)
    ensures var net := RunFrom(EMPTY, run);
            && |net.connections| == 1
            && EndState(net, 0, Initiator) == Some(Active) && EndState(net, 0, Recipient) == Some(Active)
            && net.connections[0].responder.shown == [t.hello] && net.connections[0].initiator.shown == [t.answer]
  {
    run := AnsweringRun(t);
    Opens(t);
    Announced(t);
    BothStart(t);
    var dialled := Talking(t, Some(AwaitingReply), None, Line(t, [t.hello], [], [], [], [], [t.hello], true));
    RunsOn(dialled, Announce(0, t.caller), run);
    run := [Announce(0, t.caller)] + run;
    RunsOn(Talking(t, None, None, []), Hello(t), run);
    run := [Hello(t)] + run;
    RunsOn(Apply(EMPTY, Start(t.caller)), Start(t.callee), run);
    run := [Start(t.callee)] + run;
    RunsOn(EMPTY, Start(t.caller), run);
    run := [Start(t.caller)] + run;
  }
}
