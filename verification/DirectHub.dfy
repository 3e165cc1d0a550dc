/**
 The private-chat hub of one client (src/direct.rs, `run_direct_hub`). The hub handles one command or link event to
 completion before it takes the next, so each is one step. What the step asks its environment (the member
 directory, the outcome of dialling, the clock, whether the link's queue took the message) is part of its input.
 */
module DirectHub {
  import opened Wrappers
  import opened Protocol
  import opened Sanitizer

  datatype LinkRole = Initiator | Recipient

  datatype ConversationState = New | AwaitingReply | Active

  /** A link id is drawn at random at each end of a connection: the pair (connection, end) stands for that draw. */
  datatype LinkId = LinkId(connection: nat, end: LinkRole)

  datatype DirectLink = DirectLink(linkId: LinkId, peer: Peer, role: LinkRole, state: ConversationState)

  type Links = map<Uuid, DirectLink>

  datatype DirectRecord = DirectRecord(
    messageId: Uuid, sender: Peer, recipientSessionId: Uuid, sentAtMs: nat, text: string)

  datatype ConversationStatus = WaitingFor(initiatorSessionId: Uuid) | Established

  datatype HubError =
    | InvalidPrivateMessage(reason: TextError)
    | PrivatePeerOffline
    | PrivateConnectFailed
    | PrivateWaitingForReply
    | PrivateNotReady
    | PrivateConnectionClosed

  datatype ClientEvent =
    | PrivateMessage(record: DirectRecord, status: ConversationStatus)
    | PrivateClosed(peerSessionId: Uuid)
    | Failure(error: HubError)

  /** A chat message as it travels. */
  datatype Chat = Chat(messageId: Uuid, sentAtMs: nat, text: string)

  /** A chat message handed to a link's outgoing queue. */
  datatype Outgoing = Outgoing(linkId: LinkId, chat: Chat)

  datatype Dial = Unreachable | Reached(linkId: LinkId)

  datatype Input =
    | Send(to: Uuid, messageId: Uuid, text: string, directory: map<Uuid, Peer>, dial: Dial, now: nat, accepted: bool)
    | PeerLeft(who: Uuid)
    | Connected(linkId: LinkId, peer: Peer)
    | Incoming(linkId: LinkId, from: Uuid, chat: Chat)
    | Disconnected(linkId: LinkId, from: Uuid)

  datatype Outcome = Outcome(links: Links, queued: Option<Outgoing>, events: seq<ClientEvent>)

  // ---------- the specification of one step ----------

  function Quiet(links: Links): Outcome {
    Outcome(links, None, [])
  }

  function Refuse(links: Links, error: HubError): Outcome {
    Outcome(links, None, [Failure(error)])
  }

  /** The link a send will use, dialling when there is none yet. */
  function LinkForSend(links: Links, input: Input): Result<Links, HubError>
    requires input.Send?
  {
    if input.to in links then Ok(links)
    else if input.to !in input.directory then Err(PrivatePeerOffline)
    else if input.dial.Unreachable? then Err(PrivateConnectFailed)
    else Ok(links[input.to := DirectLink(input.dial.linkId, input.directory[input.to], Initiator, New)])
  }

  /** The state a link moves to when its owner sends, if the reply gate lets it. */
  function AfterSend(role: LinkRole, state: ConversationState): Result<ConversationState, HubError> {
    match (role, state)
    case (Initiator, AwaitingReply) => Err(PrivateWaitingForReply)
    case (Initiator, New) => Ok(AwaitingReply)
    case (Recipient, AwaitingReply) => Ok(Active)
    case (_, Active) => Ok(Active)
    case (Recipient, New) => Err(PrivateNotReady)
  }

  /** The state a link moves to when a message arrives, if the reply gate lets it in. */
  function AfterArrival(role: LinkRole, state: ConversationState): Option<ConversationState> {
    match (role, state)
    case (Recipient, New) => Some(AwaitingReply)
    case (Initiator, AwaitingReply) => Some(Active)
    case (_, Active) => Some(Active)
    case _ => None
  }

  function StatusOf(state: ConversationState, initiator: Uuid): ConversationStatus {
    if state.AwaitingReply? then WaitingFor(initiator) else Established
  }

  function SendStep(local: Peer, links: Links, input: Input): Outcome
    requires input.Send?
  {
    match SanitizedChat(input.text)
    case Err(reason) => Refuse(links, InvalidPrivateMessage(reason))
    case Ok(text) =>
      match LinkForSend(links, input)
      case Err(error) => Refuse(links, error)
      case Ok(ready) =>
        var link := ready[input.to];
        match AfterSend(link.role, link.state)
        case Err(error) => Refuse(ready, error)
        case Ok(state) =>
          if !input.accepted then Refuse(ready - {input.to}, PrivateConnectionClosed)
          else
            Outcome(
              ready[input.to := link.(state := state)],
              Some(Outgoing(link.linkId, Chat(input.messageId, input.now, text))),
              [PrivateMessage(DirectRecord(input.messageId, local, input.to, input.now, text),
                              StatusOf(state, local.sessionId))])
  }

  function Matches(links: Links, from: Uuid, linkId: LinkId): bool {
    from in links && links[from].linkId == linkId
  }

  function IncomingStep(local: Peer, links: Links, input: Input): Outcome
    requires input.Incoming?
  {
    if !Matches(links, input.from, input.linkId) then Quiet(links)
    else
      var link := links[input.from];
      match AfterArrival(link.role, link.state)
      case None => Quiet(links)
      case Some(state) =>
        var moved := links[input.from := link.(state := state)];
        match SanitizedChat(input.chat.text)
        case Err(_) => Quiet(moved)
        case Ok(text) =>
          var record := DirectRecord(input.chat.messageId, link.peer, local.sessionId, input.chat.sentAtMs, text);
          Outcome(moved, None, [PrivateMessage(record, StatusOf(state, input.from))])
  }

  /** One step of the hub. */
  function Step(local: Peer, links: Links, input: Input): Outcome {
    match input
    case Send(_, _, _, _, _, _, _) => SendStep(local, links, input)
    case PeerLeft(who) =>
      if who in links then Outcome(links - {who}, None, [PrivateClosed(who)]) else Quiet(links)
    case Connected(linkId, peer) =>
      if peer.sessionId in links then Quiet(links)
      else Quiet(links[peer.sessionId := DirectLink(linkId, peer, Recipient, New)])
    case Incoming(_, _, _) => IncomingStep(local, links, input)
    case Disconnected(linkId, from) =>
      if Matches(links, from, linkId) then Outcome(links - {from}, None, [PrivateClosed(from)]) else Quiet(links)
  }

  /** The hub after a whole run of inputs. */
  function Run(local: Peer, links: Links, inputs: seq<Input>): Links {
    if inputs == [] then links
    else Step(local, Run(local, links, inputs[..|inputs| - 1]), inputs[|inputs| - 1]).links
  }

  function RunEvents(local: Peer, links: Links, inputs: seq<Input>): seq<ClientEvent> {
    if inputs == [] then []
    else
      var front := inputs[..|inputs| - 1];
      RunEvents(local, links, front) + Step(local, Run(local, links, front), inputs[|inputs| - 1]).events
  }

  function QueuedBy(o: Outcome): seq<Outgoing> {
    if o.queued.Some? then [o.queued.value] else []
  }

  function RunQueued(local: Peer, links: Links, inputs: seq<Input>): seq<Outgoing> {
    if inputs == [] then []
    else
      var front := inputs[..|inputs| - 1];
      RunQueued(local, links, front) + QueuedBy(Step(local, Run(local, links, front), inputs[|inputs| - 1]))
  }

  /** One input more: the run takes one more step. */
  lemma OneInputMore(local: Peer, links: Links, inputs: seq<Input>, i: nat)
    requires i < |inputs|
    ensures var o := Step(local, Run(local, links, inputs[..i]), inputs[i]);
            && Run(local, links, inputs[..i + 1]) == o.links
            && RunEvents(local, links, inputs[..i + 1]) == RunEvents(local, links, inputs[..i]) + o.events
            && RunQueued(local, links, inputs[..i + 1]) == RunQueued(local, links, inputs[..i]) + QueuedBy(o)
  {
    assert inputs[..i + 1][..i] == inputs[..i];
  }

  lemma AppendedTwice<T>(a: seq<T>, b: seq<T>, c: seq<T>)
    ensures (a + b) + c == a + (b + c)
  {
  }

  // ---------- the hub ----------

  class Hub {
    const local: Peer
    var links: Links
    var events: seq<ClientEvent>
    var outgoing: seq<Outgoing>

    constructor (local: Peer)
      ensures this.local == local && links == map[] && events == [] && outgoing == []
    {
      this.local := local;
      links := map[];
      events := [];
      outgoing := [];
    }

    /** The new state is the one the specification gives; events and queued messages are appended in order. */
    twostate predicate Performed(input: Input)
      reads this
    {
      var o := Step(local, old(links), input);
      && links == o.links
      && events == old(events) + o.events
      && outgoing == old(outgoing) + QueuedBy(o)
    }

    method Emit(event: ClientEvent)
      modifies this`events
      ensures events == old(events) + [event]
    {
      events := events + [event];
    }

    /** The link to send on, dialled if there is none yet. */
    method LinkTo(input: Input) returns (failed: Option<HubError>)
      requires input.Send?
      modifies this`links
      ensures match LinkForSend(old(links), input)
              case Ok(ready) => failed.None? && links == ready && input.to in links
              case Err(error) => failed == Some(error) && links == old(links)
    {
      if input.to !in links {
        if input.to !in input.directory {
          return Some(PrivatePeerOffline);
        }
        if input.dial.Unreachable? {
          return Some(PrivateConnectFailed);
        }
        links := links[input.to := DirectLink(input.dial.linkId, input.directory[input.to], Initiator, New)];
      }
      return None;
    }

    method HandleSend(input: Input)
      requires input.Send?
      modifies this
      ensures Performed(input)
    {
      var to := input.to;
      var sanitized := SanitizeChatText(input.text);
      if sanitized.Err? {
        Emit(Failure(InvalidPrivateMessage(sanitized.error)));
        return;
      }
      var text := sanitized.value;
      var failed := LinkTo(input);
      if failed.Some? {
        Emit(Failure(failed.value));
        return;
      }
      var link := links[to];
      if link.role == Initiator && link.state == AwaitingReply {
        Emit(Failure(PrivateWaitingForReply));
        return;
      }
      var status;
      if link.role == Initiator && link.state == New {
        links := links[to := link.(state := AwaitingReply)];
        status := WaitingFor(local.sessionId);
      } else if link.role == Recipient && link.state == AwaitingReply {
        links := links[to := link.(state := Active)];
        status := Established;
      } else if link.state == Active {
        links := links[to := link];
        status := Established;
      } else {
        Emit(Failure(PrivateNotReady));
        return;
      }
      if !input.accepted {
        links := links - {to};
        Emit(Failure(PrivateConnectionClosed));
        return;
      }
      outgoing := outgoing + [Outgoing(link.linkId, Chat(input.messageId, input.now, text))];
      Emit(PrivateMessage(DirectRecord(input.messageId, local, to, input.now, text), status));
    }

    method HandlePeerLeft(who: Uuid)
      modifies this
      ensures Performed(PeerLeft(who))
    {
      if who in links {
        links := links - {who};
        Emit(PrivateClosed(who));
      }
    }

    method HandleConnected(linkId: LinkId, peer: Peer)
      modifies this
      ensures Performed(Connected(linkId, peer))
    {
      if peer.sessionId !in links {
        links := links[peer.sessionId := DirectLink(linkId, peer, Recipient, New)];
      }
    }

    method HandleIncoming(linkId: LinkId, from: Uuid, chat: Chat)
      modifies this
      ensures Performed(Incoming(linkId, from, chat))
    {
      if from !in links {
        return;
      }
      var link := links[from];
      if link.linkId != linkId {
        return;
      }
      var status;
      if link.role == Recipient && link.state == New {
        links := links[from := link.(state := AwaitingReply)];
        status := WaitingFor(from);
      } else if link.role == Recipient && link.state == AwaitingReply {
        return;
      } else if link.role == Initiator && link.state == AwaitingReply {
        links := links[from := link.(state := Active)];
        status := Established;
      } else if link.state == Active {
        links := links[from := link];
        status := Established;
      } else {
        return;
      }
      var sanitized := SanitizeChatText(chat.text);
      if sanitized.Ok? {
        Emit(PrivateMessage(
               DirectRecord(chat.messageId, link.peer, local.sessionId, chat.sentAtMs, sanitized.value), status));
      }
    }

    method HandleDisconnected(linkId: LinkId, from: Uuid)
      modifies this
      ensures Performed(Disconnected(linkId, from))
    {
      if from in links && links[from].linkId == linkId {
        links := links - {from};
        Emit(PrivateClosed(from));
      }
    }

    /** One turn of the event loop: the branch for what arrived, run to completion. */
    method Handle(input: Input)
      modifies this
      ensures Performed(input)
    {
      match input {
        case Send(_, _, _, _, _, _, _) => HandleSend(input);
        case PeerLeft(who) => HandlePeerLeft(who);
        case Connected(linkId, peer) => HandleConnected(linkId, peer);
        case Incoming(linkId, from, chat) => HandleIncoming(linkId, from, chat);
        case Disconnected(linkId, from) => HandleDisconnected(linkId, from);
      }
    }

    /** The event loop over everything its channels delivered. */
    method Loop(inputs: seq<Input>)
      modifies this
      ensures links == Run(local, old(links), inputs)
      ensures events == old(events) + RunEvents(local, old(links), inputs)
      ensures outgoing == old(outgoing) + RunQueued(local, old(links), inputs)
    {
      for i := 0 to |inputs|
        invariant links == Run(local, old(links), inputs[..i])
        invariant events == old(events) + RunEvents(local, old(links), inputs[..i])
        invariant outgoing == old(outgoing) + RunQueued(local, old(links), inputs[..i])
      {
        ghost var o := Step(local, links, inputs[i]);
        OneInputMore(local, old(links), inputs, i);
        AppendedTwice(old(events), RunEvents(local, old(links), inputs[..i]), o.events);
        AppendedTwice(old(outgoing), RunQueued(local, old(links), inputs[..i]), QueuedBy(o));
        Handle(inputs[i]);
      }
      assert inputs[..|inputs|] == inputs;
    }
  }
}
