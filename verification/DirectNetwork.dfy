/**
 Any number of honest hubs and any number of connections between them (src/direct.rs). Each direction of a connection
 is one FIFO stream: the responder's hub takes `Connected`, then messages, then `Disconnected`; the initiator's hub
 takes messages, then `Disconnected`. Streams of different connections interleave freely, and either stream may be cut
 at any moment and lose what it had not delivered.
 */
module DirectNetwork {
  import opened Wrappers
  import opened Protocol
  import opened Sanitizer
  import opened DirectHub

  datatype Phase = Flowing | Ending | Closed

  /** What is on its way to one hub: messages, and once the stream is cut a final `Disconnected`. */
  datatype Stream = Stream(queue: seq<Chat>, phase: Phase)

  /** One side of a connection: what its hub queued for the peer, what it showed, and what is coming in. */
  datatype Side = Side(session: Uuid, sent: seq<Chat>, shown: seq<Chat>, incoming: Stream)

  /**
   `announced`: the responder's hub has not taken `Connected` yet. `accepted`: it took it and had room for the link.
   */
  datatype Connection = Connection(initiator: Side, responder: Side, announced: bool, accepted: bool)

  datatype HubState = HubState(local: Peer, links: Links)

  datatype Net = Net(hubs: map<Uuid, HubState>, connections: seq<Connection>)

  datatype Action =
    | Start(peer: Peer)
      // `reachable`: dialling succeeds; `answered`: the other side's accept task announces the connection.
    | UserSend(user: Uuid, to: Uuid, messageId: Uuid, text: string, directory: map<Uuid, Peer>,
               reachable: bool, answered: bool, now: nat, taken: bool)
    | MemberLeft(user: Uuid, who: Uuid)
    | Announce(at: nat, record: Peer)
    | Deliver(at: nat, end: LinkRole)
    | Cut(at: nat, end: LinkRole, keep: nat)

  function At(c: Connection, end: LinkRole): Side {
    if end.Initiator? then c.initiator else c.responder
  }

  function Other(end: LinkRole): LinkRole {
    if end.Initiator? then Recipient else Initiator
  }

  function WithSide(c: Connection, end: LinkRole, side: Side): Connection {
    if end.Initiator? then c.(initiator := side) else c.(responder := side)
  }

  // ---------- the steps ----------

  function DialInput(net: Net, a: Action): Input
    requires a.UserSend?
  {
    Send(a.to, a.messageId, a.text, a.directory,
         if a.reachable then Reached(LinkId(|net.connections|, Initiator)) else Unreachable, a.now, a.taken)
  }

  /** The hub dials: it has no link to the member yet and knows where to find it. */
  predicate Dials(net: Net, a: Action)
    requires a.UserSend? && a.user in net.hubs
  {
    && SanitizedChat(a.text).Ok?
    && a.to !in net.hubs[a.user].links
    && a.to in a.directory
  }

  /** A connection just dialled. An unreachable dial may still leave its far end announced. */
  function NewConnection(a: Action): Connection
    requires a.UserSend?
  {
    Connection(
      Side(a.user, [], [], Stream([], if a.reachable then Flowing else Closed)),
      Side(a.to, [], [], Stream([], if a.answered then Flowing else Closed)),
      a.answered, false)
  }

  function Push(stream: Stream, chat: Chat): Stream {
    if stream.phase.Flowing? then stream.(queue := stream.queue + [chat]) else stream
  }

  /** The message enters the sender's history and, unless the stream is cut, travels to the other side. */
  function Carry(c: Connection, from: LinkRole, chat: Chat): Connection {
    var sender := At(c, from);
    var receiver := At(c, Other(from));
    WithSide(
      WithSide(c, from, sender.(sent := sender.sent + [chat])),
      Other(from), receiver.(incoming := Push(receiver.incoming, chat)))
  }

  function CarryQueued(connections: seq<Connection>, queued: Option<Outgoing>): seq<Connection> {
    if queued.Some? && queued.value.linkId.connection < |connections| then
      var k := queued.value.linkId;
      connections[k.connection := Carry(connections[k.connection], k.end, queued.value.chat)]
    else connections
  }

  function NextInput(net: Net, at: nat, end: LinkRole): Input
    requires at < |net.connections|
    requires At(net.connections[at], end).incoming.queue != [] || At(net.connections[at], end).incoming.phase.Ending?
  {
    var c := net.connections[at];
    var incoming := At(c, end).incoming;
    if incoming.queue != [] then Incoming(LinkId(at, end), At(c, Other(end)).session, incoming.queue[0])
    else Disconnected(LinkId(at, end), At(c, Other(end)).session)
  }

  /** The chat an event shows, when it shows one. */
  function Shown(events: seq<ClientEvent>): seq<Chat> {
    if |events| == 1 && events[0].PrivateMessage? then
      [Chat(events[0].record.messageId, events[0].record.sentAtMs, events[0].record.text)]
    else []
  }

  predicate Enabled(net: Net, a: Action) {
    match a
    case Start(peer) => peer.sessionId !in net.hubs
    case UserSend(user, _, _, _, directory, _, _, _, _) =>
      user in net.hubs && forall s :: s in directory ==> directory[s].sessionId == s
    case MemberLeft(user, _) => user in net.hubs
    case Announce(at, record) =>
      && at < |net.connections|
      && net.connections[at].announced
      && net.connections[at].responder.session in net.hubs
      && record.sessionId == net.connections[at].initiator.session
    case Deliver(at, end) =>
      && at < |net.connections|
      && (end.Recipient? ==> !net.connections[at].announced)
      && At(net.connections[at], end).session in net.hubs
      && (At(net.connections[at], end).incoming.queue != [] || At(net.connections[at], end).incoming.phase.Ending?)
    case Cut(at, end, keep) =>
      && at < |net.connections|
      && At(net.connections[at], end).incoming.phase.Flowing?
      && keep <= |At(net.connections[at], end).incoming.queue|
  }

  function HubOutcome(net: Net, s: Uuid, input: Input): Outcome
    requires s in net.hubs
  {
    Step(net.hubs[s].local, net.hubs[s].links, input)
  }

  function WithLinks(net: Net, s: Uuid, links: Links): map<Uuid, HubState>
    requires s in net.hubs
  {
    net.hubs[s := net.hubs[s].(links := links)]
  }

  function Apply(net: Net, a: Action): Net
    requires Enabled(net, a)
  {
    match a
    case Start(peer) => net.(hubs := net.hubs[peer.sessionId := HubState(peer, map[])])
    case UserSend(user, _, _, _, _, _, _, _, _) =>
      var o := HubOutcome(net, user, DialInput(net, a));
      var dialled := if Dials(net, a) then net.connections + [NewConnection(a)] else net.connections;
      Net(WithLinks(net, user, o.links), CarryQueued(dialled, o.queued))
    case MemberLeft(user, who) =>
      net.(hubs := WithLinks(net, user, HubOutcome(net, user, PeerLeft(who)).links))
    case Announce(at, record) =>
      var c := net.connections[at];
      var s := c.responder.session;
      var o := HubOutcome(net, s, Connected(LinkId(at, Recipient), record));
      Net(WithLinks(net, s, o.links),
          net.connections[at := c.(announced := false, accepted := record.sessionId !in net.hubs[s].links)])
    case Deliver(at, end) =>
      var c := net.connections[at];
      var side := At(c, end);
      var o := HubOutcome(net, side.session, NextInput(net, at, end));
      var rest :=
        if side.incoming.queue != [] then side.incoming.(queue := side.incoming.queue[1..])
        else side.incoming.(phase := Closed);
      var shown := if side.incoming.queue != [] then Shown(o.events) else [];
      Net(WithLinks(net, side.session, o.links),
          net.connections[at := WithSide(c, end, side.(shown := side.shown + shown, incoming := rest))])
    case Cut(at, end, keep) =>
      var c := net.connections[at];
      var side := At(c, end);
      net.(connections :=
        net.connections[at := WithSide(c, end, side.(incoming := Stream(side.incoming.queue[..keep], Ending)))])
  }

  // ---------- runs ----------

  predicate ValidRun(net: Net, actions: seq<Action>)
    decreases actions
  {
    actions != [] ==> Enabled(net, actions[0]) && ValidRun(Apply(net, actions[0]), actions[1..])
  }

  function RunFrom(net: Net, actions: seq<Action>): Net
    requires ValidRun(net, actions)
    decreases actions
  {
    if actions == [] then net else RunFrom(Apply(net, actions[0]), actions[1..])
  }

  const EMPTY := Net(map[], [])

  // ---------- the invariant ----------

  /** The state of link `k` in the hub's slot for member `p`, if it is the one installed there. */
  function LinkState(links: Links, p: Uuid, k: LinkId): Option<ConversationState> {
    if Matches(links, p, k) then Some(links[p].state) else None
  }

  function SlotState(net: Net, s: Uuid, p: Uuid, k: LinkId): Option<ConversationState> {
    if s in net.hubs then LinkState(net.hubs[s].links, p, k) else None
  }

  /** The state of one end of a connection: `None` once its hub refused it or let it go. */
  function EndState(net: Net, at: nat, end: LinkRole): Option<ConversationState>
    requires at < |net.connections|
  {
    var c := net.connections[at];
    SlotState(net, At(c, end).session, At(c, Other(end)).session, LinkId(at, end))
  }

  /** Everything sent is shown or still on its way, in order; a cut stream may have lost a tail. */
  predicate Carries(sender: Side, receiver: Side, live: bool) {
    && receiver.shown <= sender.sent
    && (live ==>
          && receiver.shown + receiver.incoming.queue <= sender.sent
          && (receiver.incoming.phase.Flowing? ==> receiver.shown + receiver.incoming.queue == sender.sent))
  }

  predicate AllClean(chats: seq<Chat>) {
    forall i :: 0 <= i < |chats| ==> SanitizedChat(chats[i].text) == Ok(chats[i].text)
  }

  predicate InitiatorFits(c: Connection, i: Option<ConversationState>) {
    match i
    case None => true
    case Some(New) => false
    case Some(AwaitingReply) => |c.initiator.sent| == 1 && c.initiator.shown == []
    case Some(Active) => c.initiator.sent != [] && c.initiator.shown != []
  }

  predicate ResponderFits(c: Connection, r: Option<ConversationState>) {
    match r
    case None => true
    case Some(New) => c.responder.shown == [] && c.responder.sent == []
    case Some(AwaitingReply) => |c.responder.shown| == 1 && c.responder.sent == []
    case Some(Active) => c.responder.shown != [] && c.responder.sent != []
  }

  predicate ConnectionOk(c: Connection, i: Option<ConversationState>, r: Option<ConversationState>) {
    && Carries(c.initiator, c.responder, c.announced || r.Some?)
    && Carries(c.responder, c.initiator, i.Some?)
    && AllClean(c.initiator.sent) && AllClean(c.responder.sent)
    && (|c.initiator.sent| >= 2 ==> c.initiator.shown != [])
    && (c.responder.sent != [] ==> c.responder.shown != [])
    && (c.announced ==> !c.accepted)
    && (!c.accepted ==> r.None? && c.responder.shown == [] && c.responder.sent == [])
    && InitiatorFits(c, i)
    && ResponderFits(c, r)
  }

  /** Every installed link is an end of a connection between exactly these two sessions. */
  predicate LinkNamed(net: Net, s: Uuid, p: Uuid)
    requires s in net.hubs && p in net.hubs[s].links
  {
    var link := net.hubs[s].links[p];
    var k := link.linkId;
    && link.role == k.end
    && link.peer.sessionId == p
    && k.connection < |net.connections|
    && At(net.connections[k.connection], k.end).session == s
    && At(net.connections[k.connection], Other(k.end)).session == p
  }

  predicate Named(net: Net) {
    forall s, p :: s in net.hubs && p in net.hubs[s].links ==> LinkNamed(net, s, p)
  }

  predicate OkAt(net: Net, at: nat)
    requires at < |net.connections|
  {
    ConnectionOk(net.connections[at], EndState(net, at, Initiator), EndState(net, at, Recipient))
  }

  predicate Invariant(net: Net) {
    && Named(net)
    && forall at :: 0 <= at < |net.connections| ==> OkAt(net, at)
  }

  // ---------- what one hub step changes ----------

  /** The link an input acts on. */
  function Acting(links: Links, input: Input): LinkId {
    match input
    case Send(to, _, _, _, dial, _, _) =>
      if to in links then links[to].linkId else if dial.Reached? then dial.linkId else LinkId(0, Initiator)
    case PeerLeft(who) => if who in links then links[who].linkId else LinkId(0, Initiator)
    case Connected(linkId, _) => linkId
    case Incoming(linkId, _, _) => linkId
    case Disconnected(linkId, _) => linkId
  }

  /** A hub step leaves every other link as it was. */
  lemma OtherLinksKept(local: Peer, links: Links, input: Input, p: Uuid, k: LinkId)
    requires k != Acting(links, input)
    ensures LinkState(Step(local, links, input).links, p, k) == LinkState(links, p, k)
  {
  }

  /** `net'` differs from `net` in the links of one hub, in link `k` only. */
  ghost predicate OnlyLink(net: Net, net': Net, k: LinkId) {
    && net'.hubs.Keys == net.hubs.Keys
    && forall s, p, j :: j != k ==> SlotState(net', s, p, j) == SlotState(net, s, p, j)
  }

  lemma HubStepFrame(net: Net, net': Net, s: Uuid, input: Input)
    requires s in net.hubs
    requires net'.hubs == WithLinks(net, s, HubOutcome(net, s, input).links)
    ensures OnlyLink(net, net', Acting(net.hubs[s].links, input))
  {
    var k := Acting(net.hubs[s].links, input);
    forall t, p, j | j != k ensures SlotState(net', t, p, j) == SlotState(net, t, p, j) {
      if t == s {
        OtherLinksKept(net.hubs[s].local, net.hubs[s].links, input, p, j);
      }
    }
  }

  /** All connections but one keep their record and their ends, so they stay as they should be. */
  lemma OthersStayOk(net: Net, net': Net, k: LinkId)
    requires Invariant(net) && OnlyLink(net, net', k)
    requires |net.connections| <= |net'.connections|
    requires forall d :: 0 <= d < |net.connections| && d != k.connection ==> net'.connections[d] == net.connections[d]
    ensures forall d :: 0 <= d < |net.connections| && d != k.connection ==> OkAt(net', d)
  {
    forall d | 0 <= d < |net.connections| && d != k.connection ensures OkAt(net', d) {
      assert OkAt(net, d);
      assert EndState(net', d, Initiator) == EndState(net, d, Initiator);
      assert EndState(net', d, Recipient) == EndState(net, d, Recipient);
    }
  }

  // ---------- one connection at a time ----------

  lemma EndGone(c: Connection, i: Option<ConversationState>, r: Option<ConversationState>)
    requires ConnectionOk(c, i, r)
    ensures ConnectionOk(c, None, r) && ConnectionOk(c, i, None)
  {
  }

  lemma InitiatorSends(c: Connection, state: ConversationState, r: Option<ConversationState>, chat: Chat)
    requires ConnectionOk(c, Some(state), r)
    requires AfterSend(Initiator, state).Ok?
    requires SanitizedChat(chat.text) == Ok(chat.text)
    ensures ConnectionOk(Carry(c, Initiator, chat), Some(AfterSend(Initiator, state).value), r)
  {
  }

  lemma ResponderSends(c: Connection, i: Option<ConversationState>, state: ConversationState, chat: Chat)
    requires ConnectionOk(c, i, Some(state))
    requires AfterSend(Recipient, state).Ok?
    requires SanitizedChat(chat.text) == Ok(chat.text)
    ensures ConnectionOk(Carry(c, Recipient, chat), i, Some(AfterSend(Recipient, state).value))
  {
  }

  /** The opening message on a drawn connection. */
  lemma OpeningSent(a: Action, chat: Chat)
    requires a.UserSend? && a.reachable
    requires SanitizedChat(chat.text) == Ok(chat.text)
    ensures ConnectionOk(Carry(NewConnection(a), Initiator, chat), Some(AwaitingReply), None)
    ensures ConnectionOk(NewConnection(a), None, None)
  {
  }

  /** The side after it took its next message, showing it or not. */
  function TakeNext(c: Connection, end: LinkRole, shows: bool): Connection
    requires At(c, end).incoming.queue != []
  {
    var side := At(c, end);
    var q := side.incoming.queue;
    WithSide(c, end,
             side.(shown := if shows then side.shown + [q[0]] else side.shown,
                   incoming := side.incoming.(queue := q[1..])))
  }

  /** A live responder's gate lets the next message of an honest initiator in, and its text is clean. */
  lemma ResponderTakes(c: Connection, i: Option<ConversationState>, state: ConversationState)
    requires ConnectionOk(c, i, Some(state)) && c.responder.incoming.queue != []
    ensures AfterArrival(Recipient, state).Some?
    ensures SanitizedChat(c.responder.incoming.queue[0].text) == Ok(c.responder.incoming.queue[0].text)
    ensures ConnectionOk(TakeNext(c, Recipient, true), i, Some(AfterArrival(Recipient, state).value))
  {
    var q, shown, sent := c.responder.incoming.queue, c.responder.shown, c.initiator.sent;
    assert (shown + q)[|shown|] == q[0] == sent[|shown|];
    assert shown + [q[0]] + q[1..] == shown + q;
    assert shown + [q[0]] <= sent;
  }

  lemma InitiatorTakes(c: Connection, state: ConversationState, r: Option<ConversationState>)
    requires ConnectionOk(c, Some(state), r) && c.initiator.incoming.queue != []
    ensures AfterArrival(Initiator, state).Some?
    ensures SanitizedChat(c.initiator.incoming.queue[0].text) == Ok(c.initiator.incoming.queue[0].text)
    ensures ConnectionOk(TakeNext(c, Initiator, true), Some(AfterArrival(Initiator, state).value), r)
  {
    var q, shown, sent := c.initiator.incoming.queue, c.initiator.shown, c.responder.sent;
    assert (shown + q)[|shown|] == q[0] == sent[|shown|];
    assert shown + [q[0]] + q[1..] == shown + q;
    assert shown + [q[0]] <= sent;
  }

  lemma DeadEndTakes(c: Connection, end: LinkRole, i: Option<ConversationState>, r: Option<ConversationState>)
    requires ConnectionOk(c, i, r) && At(c, end).incoming.queue != []
    requires if end.Initiator? then i.None? else r.None? && !c.announced
    ensures ConnectionOk(TakeNext(c, end, false), i, r)
  {
  }

  lemma CutKeeps(c: Connection, end: LinkRole, keep: nat, i: Option<ConversationState>, r: Option<ConversationState>)
    requires ConnectionOk(c, i, r) && keep <= |At(c, end).incoming.queue|
    ensures ConnectionOk(WithSide(c, end,
      At(c, end).(incoming := Stream(At(c, end).incoming.queue[..keep], Ending))), i, r)
  {
  }

  lemma StreamEnds(c: Connection, end: LinkRole, i: Option<ConversationState>, r: Option<ConversationState>)
    requires ConnectionOk(c, i, r) && At(c, end).incoming.phase.Ending?
    ensures ConnectionOk(WithSide(c, end, At(c, end).(incoming := At(c, end).incoming.(phase := Closed))), i, r)
  {
  }

  // ---------- every step keeps the invariant ----------

  /** Where a link in the hub after a step comes from: it was there, or this step dialled it, or announced it. */
  lemma LinkOrigin(local: Peer, links: Links, input: Input, p: Uuid)
    requires p in Step(local, links, input).links
    ensures var link := Step(local, links, input).links[p];
            || (p in links && link == links[p].(state := link.state))
            || (input.Send? && p == input.to && p !in links && SanitizedChat(input.text).Ok?
                && p in input.directory && input.dial.Reached?
                && link == DirectLink(input.dial.linkId, input.directory[p], Initiator, link.state))
            || (input.Connected? && p == input.peer.sessionId
                && link == DirectLink(input.linkId, input.peer, Recipient, link.state))
  {
  }

  /** Connections keep their index and their two sessions. */
  predicate SessionsKept(before: seq<Connection>, after: seq<Connection>) {
    && |before| <= |after|
    && forall d :: 0 <= d < |before| ==>
         && after[d].initiator.session == before[d].initiator.session
         && after[d].responder.session == before[d].responder.session
  }

  lemma SessionsStep(net: Net, a: Action)
    requires Enabled(net, a)
    ensures SessionsKept(net.connections, Apply(net, a).connections)
  {
  }

  /** After a hub step every link is named, if a link it brought in is an end of its connection. */
  lemma HubStepNamed(net: Net, net': Net, s: Uuid, input: Input)
    requires Named(net) && s in net.hubs
    requires SessionsKept(net.connections, net'.connections)
    requires net'.hubs == WithLinks(net, s, HubOutcome(net, s, input).links)
    requires input.Send? && input.dial.Reached? && SanitizedChat(input.text).Ok?
             && input.to !in net.hubs[s].links && input.to in input.directory ==>
               && input.directory[input.to].sessionId == input.to
               && input.dial.linkId.end == Initiator
               && input.dial.linkId.connection < |net'.connections|
               && net'.connections[input.dial.linkId.connection].initiator.session == s
               && net'.connections[input.dial.linkId.connection].responder.session == input.to
    requires input.Connected? ==>
               && input.linkId.end == Recipient
               && input.linkId.connection < |net'.connections|
               && net'.connections[input.linkId.connection].responder.session == s
               && net'.connections[input.linkId.connection].initiator.session == input.peer.sessionId
    ensures Named(net')
  {
    forall t, p | t in net'.hubs && p in net'.hubs[t].links ensures LinkNamed(net', t, p) {
      if t == s {
        LinkOrigin(net.hubs[s].local, net.hubs[s].links, input, p);
      }
      if p in net.hubs[t].links {
        assert LinkNamed(net, t, p);
      }
    }
  }

  lemma NamedStep(net: Net, a: Action)
    requires Enabled(net, a) && Named(net)
    ensures Named(Apply(net, a))
  {
    var net' := Apply(net, a);
    SessionsStep(net, a);
    match a
    case Start(_) =>
      forall t, p | t in net'.hubs && p in net'.hubs[t].links ensures LinkNamed(net', t, p) {
        assert LinkNamed(net, t, p);
      }
    case UserSend(user, _, _, _, _, _, _, _, _) =>
      if Dials(net, a) { DialledNamed(net, a); }
      HubStepNamed(net, net', user, DialInput(net, a));
    case MemberLeft(user, who) => HubStepNamed(net, net', user, PeerLeft(who));
    case Announce(at, record) =>
      HubStepNamed(net, net', net.connections[at].responder.session, Connected(LinkId(at, Recipient), record));
    case Deliver(at, end) =>
      HubStepNamed(net, net', At(net.connections[at], end).session, NextInput(net, at, end));
    case Cut(_, _, _) =>
      forall t, p | t in net'.hubs && p in net'.hubs[t].links ensures LinkNamed(net', t, p) {
        assert LinkNamed(net, t, p);
      }
  }

  lemma DialledNamed(net: Net, a: Action)
    requires a.UserSend? && Enabled(net, a) && Dials(net, a)
    ensures var n := |net.connections|;
            && |Apply(net, a).connections| == n + 1
            && Apply(net, a).connections[n].initiator.session == a.user
            && Apply(net, a).connections[n].responder.session == a.to
  {
  }

  /** A step that moves one end of one connection keeps all connections as they should be. */
  lemma OneEndMoves(net: Net, net': Net, k: LinkId)
    requires Invariant(net) && OnlyLink(net, net', k)
    requires k.connection < |net.connections|
    requires SessionsKept(net.connections, net'.connections) && |net'.connections| == |net.connections|
    requires forall d :: 0 <= d < |net.connections| && d != k.connection ==> net'.connections[d] == net.connections[d]
    requires var c' := net'.connections[k.connection];
             var moved, still := EndState(net', k.connection, k.end), EndState(net, k.connection, Other(k.end));
             if k.end.Initiator? then ConnectionOk(c', moved, still) else ConnectionOk(c', still, moved)
    ensures forall at :: 0 <= at < |net'.connections| ==> OkAt(net', at)
  {
    OthersStayOk(net, net', k);
    assert EndState(net', k.connection, Other(k.end)) == EndState(net, k.connection, Other(k.end));
    assert OkAt(net', k.connection);
  }

  /** What a send on an existing link does to it. */
  lemma SendOutcome(local: Peer, links: Links, input: Input)
    requires input.Send? && input.to in links
    ensures var o := Step(local, links, input);
            var link := links[input.to];
            var state := LinkState(o.links, input.to, link.linkId);
            match o.queued
            case None => state == None || state == Some(link.state)
            case Some(out) =>
              && out.linkId == link.linkId
              && SanitizedChat(out.chat.text) == Ok(out.chat.text)
              && AfterSend(link.role, link.state).Ok?
              && state == Some(AfterSend(link.role, link.state).value)
  {
    if SanitizedChat(input.text).Ok? {
      SanitizingChatIsIdempotent(input.text);
    }
  }

  lemma SendKeeps(net: Net, a: Action)
    requires a.UserSend? && Enabled(net, a) && Invariant(net) && !Dials(net, a)
    ensures forall at :: 0 <= at < |Apply(net, a).connections| ==> OkAt(Apply(net, a), at)
  {
    var links := net.hubs[a.user].links;
    if a.to in links {
      var o := HubOutcome(net, a.user, DialInput(net, a));
      HubStepFrame(net, Apply(net, a), a.user, DialInput(net, a));
      SendOutcome(net.hubs[a.user].local, links, DialInput(net, a));
      assert LinkNamed(net, a.user, a.to);
      SendOnLink(net, Apply(net, a), a.user, a.to, o);
    } else {
      NothingSent(net, a);
    }
  }

  lemma NothingSent(net: Net, a: Action)
    requires a.UserSend? && Enabled(net, a) && Invariant(net) && !Dials(net, a) && a.to !in net.hubs[a.user].links
    ensures Apply(net, a) == net
  {
  }

  lemma SendOnLink(net: Net, net': Net, s: Uuid, p: Uuid, o: Outcome)
    requires Invariant(net) && s in net.hubs && p in net.hubs[s].links
    requires LinkNamed(net, s, p)
    requires OnlyLink(net, net', net.hubs[s].links[p].linkId)
    requires net'.hubs == WithLinks(net, s, o.links) && net'.connections == CarryQueued(net.connections, o.queued)
    requires var link := net.hubs[s].links[p];
             var state := LinkState(o.links, p, link.linkId);
             match o.queued
             case None => state == None || state == Some(link.state)
             case Some(out) =>
               && out.linkId == link.linkId
               && SanitizedChat(out.chat.text) == Ok(out.chat.text)
               && AfterSend(link.role, link.state).Ok?
               && state == Some(AfterSend(link.role, link.state).value)
    ensures forall at :: 0 <= at < |net'.connections| ==> OkAt(net', at)
  {
    var link := net.hubs[s].links[p];
    var k := link.linkId;
    var c := net.connections[k.connection];
    assert OkAt(net, k.connection);
    var i, r := EndState(net, k.connection, Initiator), EndState(net, k.connection, Recipient);
    if o.queued.None? {
      EndGone(c, i, r);
    } else if k.end.Initiator? {
      InitiatorSends(c, link.state, r, o.queued.value.chat);
    } else {
      ResponderSends(c, i, link.state, o.queued.value.chat);
    }
    OneEndMoves(net, net', k);
  }

  lemma DialKeeps(net: Net, a: Action)
    requires a.UserSend? && Enabled(net, a) && Invariant(net) && Dials(net, a)
    ensures forall at :: 0 <= at < |Apply(net, a).connections| ==> OkAt(Apply(net, a), at)
  {
    var net' := Apply(net, a);
    var n := |net.connections|;
    var input := DialInput(net, a);
    var o := HubOutcome(net, a.user, input);
    SanitizingChatIsIdempotent(a.text);
    HubStepFrame(net, net', a.user, input);
    NobodyNames(net, n);
    var drawn := LinkId(n, Initiator);
    if a.reachable {
      OthersStayOk(net, net', drawn);
      OpeningSent(a, Chat(a.messageId, a.now, SanitizedChat(a.text).value));
      assert SlotState(net', a.to, a.user, LinkId(n, Recipient)) == SlotState(net, a.to, a.user, LinkId(n, Recipient));
      assert OkAt(net', n);
    } else {
      assert o.links == net.hubs[a.user].links;
      assert net'.hubs == net.hubs by {
        assert net.hubs[a.user].(links := o.links) == net.hubs[a.user];
      }
      OthersStayOk(net, net', drawn);
      assert OkAt(net', n);
    }
  }

  /** Nobody has a link of a connection that does not exist yet. */
  lemma NobodyNames(net: Net, n: nat)
    requires Named(net) && n >= |net.connections|
    ensures forall s, p, end :: SlotState(net, s, p, LinkId(n, end)) == None
  {
  }

  lemma MemberLeftKeeps(net: Net, a: Action)
    requires a.MemberLeft? && Enabled(net, a) && Invariant(net)
    ensures forall at :: 0 <= at < |Apply(net, a).connections| ==> OkAt(Apply(net, a), at)
  {
    var net' := Apply(net, a);
    var links := net.hubs[a.user].links;
    HubStepFrame(net, net', a.user, PeerLeft(a.who));
    if a.who in links {
      var k := links[a.who].linkId;
      assert LinkNamed(net, a.user, a.who);
      assert OkAt(net, k.connection);
      OthersStayOk(net, net', k);
      EndGone(net.connections[k.connection], EndState(net, k.connection, Initiator),
        EndState(net, k.connection, Recipient));
      assert OkAt(net', k.connection);
    } else {
      assert net.hubs[a.user].(links := links) == net.hubs[a.user];
      assert net' == net;
    }
  }

  lemma AnnounceKeeps(net: Net, a: Action)
    requires a.Announce? && Enabled(net, a) && Invariant(net)
    ensures forall at :: 0 <= at < |Apply(net, a).connections| ==> OkAt(Apply(net, a), at)
  {
    var net' := Apply(net, a);
    var c := net.connections[a.at];
    var s := c.responder.session;
    var k := LinkId(a.at, Recipient);
    HubStepFrame(net, net', s, Connected(k, a.record));
    OthersStayOk(net, net', k);
    assert OkAt(net, a.at);
    assert EndState(net', a.at, Initiator) == EndState(net, a.at, Initiator);
    assert OkAt(net', a.at);
  }

  /**
   What an arriving message does to the link it belongs to, when that link's gate lets it in and its text is clean.
   */
  lemma ArrivalOutcome(local: Peer, links: Links, input: Input)
    requires input.Incoming?
    ensures var o := Step(local, links, input);
            if !Matches(links, input.from, input.linkId) then o == Quiet(links)
            else
              var link := links[input.from];
              AfterArrival(link.role, link.state).Some? && SanitizedChat(input.chat.text) == Ok(input.chat.text) ==>
                && LinkState(o.links, input.from, input.linkId) == AfterArrival(link.role, link.state)
                && Shown(o.events) == [input.chat]
  {
  }

  /** Taking a message: a live end shows exactly the message that was sent, a dead end shows nothing. */
  lemma DeliverMessage(net: Net, a: Action)
    requires a.Deliver? && Enabled(net, a) && Invariant(net)
    requires At(net.connections[a.at], a.end).incoming.queue != []
    ensures var net' := Apply(net, a);
            var state := EndState(net, a.at, a.end);
            && net'.connections == net.connections[a.at := TakeNext(net.connections[a.at], a.end, state.Some?)]
            && (state.Some? ==>
                  && AfterArrival(a.end, state.value).Some?
                  && EndState(net', a.at, a.end) == AfterArrival(a.end, state.value))
            && (state.None? ==> net'.hubs == net.hubs)
  {
    var c := net.connections[a.at];
    var side := At(c, a.end);
    var p := At(c, Other(a.end)).session;
    var hub := net.hubs[side.session];
    ArrivalOutcome(hub.local, hub.links, NextInput(net, a.at, a.end));
    if EndState(net, a.at, a.end).Some? {
      assert LinkNamed(net, side.session, p);
      assert OkAt(net, a.at);
      NextIsWelcome(c, a.end, EndState(net, a.at, Initiator), EndState(net, a.at, Recipient));
    } else {
      assert hub.(links := hub.links) == hub;
      assert side.shown + [] == side.shown;
    }
  }

  /** Between honest ends no message meets a closed gate and none fails the second sanitizing. */
  lemma NextIsWelcome(c: Connection, end: LinkRole, i: Option<ConversationState>, r: Option<ConversationState>)
    requires ConnectionOk(c, i, r) && At(c, end).incoming.queue != []
    requires if end.Initiator? then i.Some? else r.Some?
    ensures AfterArrival(end, if end.Initiator? then i.value else r.value).Some?
    ensures var text := At(c, end).incoming.queue[0].text; SanitizedChat(text) == Ok(text)
  {
    if end.Initiator? {
      InitiatorTakes(c, i.value, r);
    } else {
      ResponderTakes(c, i, r.value);
    }
  }

  lemma DeliverMessageKeeps(net: Net, a: Action)
    requires a.Deliver? && Enabled(net, a) && Invariant(net)
    requires At(net.connections[a.at], a.end).incoming.queue != []
    requires OnlyLink(net, Apply(net, a), LinkId(a.at, a.end))
    ensures forall at :: 0 <= at < |Apply(net, a).connections| ==> OkAt(Apply(net, a), at)
  {
    DeliverMessage(net, a);
    var c := net.connections[a.at];
    var i, r := EndState(net, a.at, Initiator), EndState(net, a.at, Recipient);
    assert OkAt(net, a.at);
    if EndState(net, a.at, a.end).None? {
      DeadEndTakes(c, a.end, i, r);
    } else if a.end.Initiator? {
      InitiatorTakes(c, i.value, r);
    } else {
      ResponderTakes(c, i, r.value);
    }
    OneEndMoves(net, Apply(net, a), LinkId(a.at, a.end));
  }

  /** The end of a stream takes the link it belongs to out of its hub. */
  lemma StreamEndOutcome(net: Net, a: Action)
    requires a.Deliver? && Enabled(net, a)
    requires At(net.connections[a.at], a.end).incoming.queue == []
    ensures var c := net.connections[a.at];
            var side := At(c, a.end);
            Apply(net, a).connections ==
            net.connections[a.at := WithSide(c, a.end, side.(incoming := side.incoming.(phase := Closed)))]
    ensures EndState(Apply(net, a), a.at, a.end) == None
  {
    var side := At(net.connections[a.at], a.end);
    assert side.shown + [] == side.shown;
  }

  lemma StreamEndKeeps(net: Net, a: Action)
    requires a.Deliver? && Enabled(net, a) && Invariant(net)
    requires At(net.connections[a.at], a.end).incoming.queue == []
    requires OnlyLink(net, Apply(net, a), LinkId(a.at, a.end))
    ensures forall at :: 0 <= at < |Apply(net, a).connections| ==> OkAt(Apply(net, a), at)
  {
    var net' := Apply(net, a);
    var i, r := EndState(net, a.at, Initiator), EndState(net, a.at, Recipient);
    assert OkAt(net, a.at);
    StreamEndOutcome(net, a);
    StreamEnds(net.connections[a.at], a.end, i, r);
    EndGone(net'.connections[a.at], i, r);
    OneEndMoves(net, net', LinkId(a.at, a.end));
  }

  lemma DeliverKeeps(net: Net, a: Action)
    requires a.Deliver? && Enabled(net, a) && Invariant(net)
    ensures forall at :: 0 <= at < |Apply(net, a).connections| ==> OkAt(Apply(net, a), at)
  {
    HubStepFrame(net, Apply(net, a), At(net.connections[a.at], a.end).session, NextInput(net, a.at, a.end));
    if At(net.connections[a.at], a.end).incoming.queue != [] {
      DeliverMessageKeeps(net, a);
    } else {
      StreamEndKeeps(net, a);
    }
  }

  lemma CutInvariant(net: Net, a: Action)
    requires a.Cut? && Enabled(net, a) && Invariant(net)
    ensures forall at :: 0 <= at < |Apply(net, a).connections| ==> OkAt(Apply(net, a), at)
  {
    var net' := Apply(net, a);
    var c := net.connections[a.at];
    OthersStayOk(net, net', LinkId(a.at, a.end));
    assert OkAt(net, a.at);
    CutKeeps(c, a.end, a.keep, EndState(net, a.at, Initiator), EndState(net, a.at, Recipient));
    assert OkAt(net', a.at);
  }

  lemma StartKeeps(net: Net, a: Action)
    requires a.Start? && Enabled(net, a) && Invariant(net)
    ensures forall at :: 0 <= at < |Apply(net, a).connections| ==> OkAt(Apply(net, a), at)
  {
    var net' := Apply(net, a);
    forall at | 0 <= at < |net.connections| ensures OkAt(net', at) {
      assert OkAt(net, at);
    }
  }

  lemma StepKeepsInvariant(net: Net, a: Action)
    requires Enabled(net, a) && Invariant(net)
    ensures Invariant(Apply(net, a))
  {
    NamedStep(net, a);
    match a
    case Start(_) => StartKeeps(net, a);
    case UserSend(_, _, _, _, _, _, _, _, _) =>
      if Dials(net, a) { DialKeeps(net, a); } else { SendKeeps(net, a); }
    case MemberLeft(_, _) => MemberLeftKeeps(net, a);
    case Announce(_, _) => AnnounceKeeps(net, a);
    case Deliver(_, _) => DeliverKeeps(net, a);
    case Cut(_, _, _) => CutInvariant(net, a);
  }

  lemma {:induction false} RunKeepsInvariant(net: Net, actions: seq<Action>)
    requires Invariant(net) && ValidRun(net, actions)
    ensures Invariant(RunFrom(net, actions))
    decreases actions
  {
    if actions != [] {
      StepKeepsInvariant(net, actions[0]);
      RunKeepsInvariant(Apply(net, actions[0]), actions[1..]);
    }
  }

  // ---------- what every run guarantees ----------

  lemma ReachableInvariant(actions: seq<Action>)
    requires ValidRun(EMPTY, actions)
    ensures Invariant(RunFrom(EMPTY, actions))
  {
    RunKeepsInvariant(EMPTY, actions);
  }

  /** A stream that was never cut carries exactly `expected`; a cut one may have lost a tail of it. */
  predicate InFlight(stream: Stream, expected: seq<Chat>) {
    && stream.queue <= expected
    && (stream.phase.Flowing? ==> stream.queue == expected)
  }

  /**
   In every reachable state a connection installed at both ends is in one of four joint states: the opening is on its
   way; it was shown and nothing moves; replies are on their way; the conversation is established.
   */
  lemma JointStates(actions: seq<Action>, at: nat)
    requires ValidRun(EMPTY, actions)
    requires at < |RunFrom(EMPTY, actions).connections|
    requires EndState(RunFrom(EMPTY, actions), at, Initiator).Some?
    requires EndState(RunFrom(EMPTY, actions), at, Recipient).Some?
    ensures var net := RunFrom(EMPTY, actions);
            var c := net.connections[at];
            var toResponder, toInitiator := c.responder.incoming, c.initiator.incoming;
            match (EndState(net, at, Initiator).value, EndState(net, at, Recipient).value)
            case (AwaitingReply, New) =>
              |c.initiator.sent| == 1 && InFlight(toResponder, c.initiator.sent) && toInitiator.queue == []
            case (AwaitingReply, AwaitingReply) =>
              c.responder.shown == c.initiator.sent && toResponder.queue == [] && toInitiator.queue == []
            case (AwaitingReply, Active) =>
              toResponder.queue == [] && c.responder.sent != [] && InFlight(toInitiator, c.responder.sent)
            case (Active, Active) => c.initiator.shown != [] && c.responder.shown != []
            case _ => false
  {
    ReachableInvariant(actions);
    assert OkAt(RunFrom(EMPTY, actions), at);
    var c := RunFrom(EMPTY, actions).connections[at];
    assert [] + c.responder.incoming.queue == c.responder.incoming.queue;
    assert [] + c.initiator.incoming.queue == c.initiator.incoming.queue;
  }

  /**
   On every connection and in both directions, what the receiver showed is a prefix of what the sender queued: same
   messages, same order, same text.
   */
  lemma ShownIsAPrefixOfSent(actions: seq<Action>, at: nat)
    requires ValidRun(EMPTY, actions)
    requires at < |RunFrom(EMPTY, actions).connections|
    ensures var c := RunFrom(EMPTY, actions).connections[at];
            && c.responder.shown <= c.initiator.sent
            && c.initiator.shown <= c.responder.sent
  {
    ReachableInvariant(actions);
    assert OkAt(RunFrom(EMPTY, actions), at);
  }

  /**
   Between honest hubs no branch that drops a message ever runs on a live link: the next message of the stream is shown
   unchanged. Nothing is lost on a stream that was not cut.
   */
  lemma LiveEndsShowEveryMessage(actions: seq<Action>, a: Action)
    requires ValidRun(EMPTY, actions) && a.Deliver? && Enabled(RunFrom(EMPTY, actions), a)
    requires EndState(RunFrom(EMPTY, actions), a.at, a.end).Some?
    ensures var net := RunFrom(EMPTY, actions);
            var side := At(net.connections[a.at], a.end);
            var sender := At(net.connections[a.at], Other(a.end));
            && (side.incoming.queue != [] ==>
                  At(Apply(net, a).connections[a.at], a.end).shown == side.shown + [side.incoming.queue[0]])
            && (side.incoming.phase.Flowing? ==> side.shown + side.incoming.queue == sender.sent)
  {
    var net := RunFrom(EMPTY, actions);
    ReachableInvariant(actions);
    assert OkAt(net, a.at);
    if At(net.connections[a.at], a.end).incoming.queue != [] {
      DeliverMessage(net, a);
    }
  }

  /**
   An initiator is Active only on a connection the responder itself installed and answered on, simultaneous opens
   included: what it was shown are that responder's messages on this very connection.
   */
  lemma ActiveMeansAnswered(actions: seq<Action>, at: nat)
    requires ValidRun(EMPTY, actions)
    requires at < |RunFrom(EMPTY, actions).connections|
    requires EndState(RunFrom(EMPTY, actions), at, Initiator) == Some(Active)
    ensures var c := RunFrom(EMPTY, actions).connections[at];
            && c.accepted
            && c.responder.sent != [] && c.responder.shown != []
            && c.initiator.shown != [] && c.initiator.shown <= c.responder.sent
  {
    ReachableInvariant(actions);
    assert OkAt(RunFrom(EMPTY, actions), at);
  }

  // ---------- refused and superseded connections ----------

  /** The hub at this end refused the link or let it go; it will not be announced again. */
  predicate Dead(net: Net, at: nat, end: LinkRole) {
    && at < |net.connections|
    && EndState(net, at, end) == None
    && (end.Recipient? ==> !net.connections[at].announced)
  }

  /** A hub step on other links leaves a dead end dead. */
  lemma DeadUnlessActing(net: Net, net': Net, k: LinkId, at: nat, end: LinkRole)
    requires Dead(net, at, end) && SessionsKept(net.connections, net'.connections)
    requires OnlyLink(net, net', k) && k != LinkId(at, end)
    requires end.Recipient? ==> !net'.connections[at].announced
    ensures Dead(net', at, end)
  {
  }

  /** No hub has the link of a dead end in any slot. */
  lemma DeadEverywhere(net: Net, at: nat, end: LinkRole, s: Uuid, p: Uuid)
    requires Named(net) && Dead(net, at, end)
    requires s in net.hubs && p in net.hubs[s].links
    ensures net.hubs[s].links[p].linkId != LinkId(at, end)
  {
  }

  lemma DeadAfterDelivery(net: Net, a: Action, at: nat, end: LinkRole)
    requires a.Deliver? && Enabled(net, a) && Invariant(net) && Dead(net, at, end)
    ensures Dead(Apply(net, a), at, end)
    ensures At(Apply(net, a).connections[at], end).shown == At(net.connections[at], end).shown
    ensures a.at == at && a.end == end ==> Apply(net, a).hubs == net.hubs
  {
    var net' := Apply(net, a);
    var s := At(net.connections[a.at], a.end).session;
    SessionsStep(net, a);
    if a.at == at && a.end == end {
      assert HubOutcome(net, s, NextInput(net, at, end)) == Quiet(net.hubs[s].links);
      assert net.hubs[s].(links := net.hubs[s].links) == net.hubs[s];
      assert net'.hubs == net.hubs;
    } else {
      HubStepFrame(net, net', s, NextInput(net, a.at, a.end));
      DeadUnlessActing(net, net', LinkId(a.at, a.end), at, end);
    }
  }

  lemma SendShowsNothing(net: Net, a: Action, at: nat, end: LinkRole)
    requires a.UserSend? && Enabled(net, a) && at < |net.connections|
    ensures at < |Apply(net, a).connections|
    ensures At(Apply(net, a).connections[at], end).shown == At(net.connections[at], end).shown
    ensures Apply(net, a).connections[at].announced == net.connections[at].announced
  {
  }

  lemma DeadAfterSend(net: Net, a: Action, at: nat, end: LinkRole)
    requires a.UserSend? && Enabled(net, a) && Invariant(net) && Dead(net, at, end)
    ensures Dead(Apply(net, a), at, end)
    ensures At(Apply(net, a).connections[at], end).shown == At(net.connections[at], end).shown
  {
    var links := net.hubs[a.user].links;
    SessionsStep(net, a);
    SendShowsNothing(net, a, at, end);
    HubStepFrame(net, Apply(net, a), a.user, DialInput(net, a));
    if a.to in links {
      DeadEverywhere(net, at, end, a.user, a.to);
      DeadUnlessActing(net, Apply(net, a), links[a.to].linkId, at, end);
    } else if a.reachable {
      DeadUnlessActing(net, Apply(net, a), LinkId(|net.connections|, Initiator), at, end);
    } else {
      assert HubOutcome(net, a.user, DialInput(net, a)).links == links;
    }
  }

  lemma DeadAfterMemberLeft(net: Net, a: Action, at: nat, end: LinkRole)
    requires a.MemberLeft? && Enabled(net, a) && Invariant(net) && Dead(net, at, end)
    ensures Dead(Apply(net, a), at, end)
    ensures Apply(net, a).connections == net.connections
  {
  }

  lemma DeadAfterAnnounce(net: Net, a: Action, at: nat, end: LinkRole)
    requires a.Announce? && Enabled(net, a) && Invariant(net) && Dead(net, at, end)
    ensures Dead(Apply(net, a), at, end)
    ensures At(Apply(net, a).connections[at], end).shown == At(net.connections[at], end).shown
  {
  }

  lemma DeadStep(net: Net, a: Action, at: nat, end: LinkRole)
    requires Enabled(net, a) && Invariant(net) && Dead(net, at, end)
    ensures Dead(Apply(net, a), at, end)
    ensures At(Apply(net, a).connections[at], end).shown == At(net.connections[at], end).shown
  {
    match a
    case Start(_) =>
    case UserSend(_, _, _, _, _, _, _, _, _) => DeadAfterSend(net, a, at, end);
    case MemberLeft(_, _) => DeadAfterMemberLeft(net, a, at, end);
    case Announce(_, _) => DeadAfterAnnounce(net, a, at, end);
    case Deliver(_, _) => DeadAfterDelivery(net, a, at, end);
    case Cut(_, _, _) =>
  }

  /**
   A refused or superseded connection is inert forever: no later run shows another message on it or installs it again.
   */
  lemma {:induction false} DeadStaysDead(net: Net, actions: seq<Action>, at: nat, end: LinkRole)
    requires Invariant(net) && ValidRun(net, actions) && Dead(net, at, end)
    ensures Dead(RunFrom(net, actions), at, end)
    ensures At(RunFrom(net, actions).connections[at], end).shown == At(net.connections[at], end).shown
    decreases actions
  {
    if actions != [] {
      DeadStep(net, actions[0], at, end);
      StepKeepsInvariant(net, actions[0]);
      DeadStaysDead(Apply(net, actions[0]), actions[1..], at, end);
    }
  }

  /**
   A hub that finds its slot taken at `Connected` refuses: the connection is dead from then on, whatever follows, and
   delivering its stream changes no link of any hub.
   */
  lemma RefusedConnectionIsInert(net: Net, record: Peer, at: nat, later: seq<Action>)
    requires Invariant(net) && Enabled(net, Announce(at, record))
    requires record.sessionId in net.hubs[net.connections[at].responder.session].links
    requires ValidRun(Apply(net, Announce(at, record)), later)
    ensures var end := RunFrom(Apply(net, Announce(at, record)), later);
            && Dead(end, at, Recipient)
            && At(end.connections[at], Recipient).shown == []
            && end.connections[at].responder.sent == []
            && (Enabled(end, Deliver(at, Recipient)) ==> Apply(end, Deliver(at, Recipient)).hubs == end.hubs)
            && EndState(end, at, Initiator) != Some(Active)
  {
    var after := Apply(net, Announce(at, record));
    StepKeepsInvariant(net, Announce(at, record));
    assert OkAt(net, at);
    assert OkAt(after, at);
    var s := net.connections[at].responder.session;
    assert LinkNamed(net, s, record.sessionId);
    RefusedIsDead(net, record, at);
    DeadStaysDead(after, later, at, Recipient);
    RunKeepsInvariant(after, later);
    NeverAccepted(after, later, at);
    var end := RunFrom(after, later);
    assert OkAt(end, at);
    if Enabled(end, Deliver(at, Recipient)) {
      DeadAfterDelivery(end, Deliver(at, Recipient), at, Recipient);
    }
  }

  lemma RefusedIsDead(net: Net, record: Peer, at: nat)
    requires Invariant(net) && Enabled(net, Announce(at, record))
    requires record.sessionId in net.hubs[net.connections[at].responder.session].links
    ensures Dead(Apply(net, Announce(at, record)), at, Recipient)
    ensures !Apply(net, Announce(at, record)).connections[at].accepted
  {
    assert OkAt(net, at);
    var s := net.connections[at].responder.session;
    var links := net.hubs[s].links;
    assert HubOutcome(net, s, Connected(LinkId(at, Recipient), record)).links == links;
    assert EndState(net, at, Recipient) == None;
  }

  /** Once the announcement is over, whether the connection was accepted never changes. */
  lemma {:induction false} NeverAccepted(net: Net, actions: seq<Action>, at: nat)
    requires ValidRun(net, actions) && at < |net.connections|
    requires !net.connections[at].announced && !net.connections[at].accepted
    ensures at < |RunFrom(net, actions).connections|
    ensures !RunFrom(net, actions).connections[at].announced && !RunFrom(net, actions).connections[at].accepted
    decreases actions
  {
    if actions != [] {
      NeverAccepted(Apply(net, actions[0]), actions[1..], at);
    }
  }
}
