/**
 The gateway's realtime hub as a step machine: streams that subscribe to channels,
 publications that fan out to them, heartbeats and unsubscriptions.
 */
module Realtime {
  import opened Common
  import opened Machines

  // ----- channels

  datatype Scope = ROOM | DEBATE | USER | LEADERBOARD

  datatype Channel = Channel(scope: Scope, id: string)

  function ScopeName(scope: Scope): string {
    match scope
    case ROOM => "room"
    case DEBATE => "debate"
    case USER => "user"
    case LEADERBOARD => "leaderboard"
  }

  function ChannelKey(c: Channel): string {
    ScopeName(c.scope) + ":" + c.id
  }

  /** Whatever characters the ids hold, colons included, two channels never share a key. */
  lemma ChannelKeyIsInjective(c: Channel, d: Channel)
    ensures ChannelKey(c) == ChannelKey(d) <==> c == d
  {
    if ChannelKey(c) == ChannelKey(d) {
      assert ChannelKey(c)[0] == ScopeName(c.scope)[0] && ChannelKey(d)[0] == ScopeName(d.scope)[0];
      var n := |ScopeName(c.scope)| + 1;
      assert ChannelKey(c)[n..] == c.id && ChannelKey(d)[n..] == d.id;
    }
  }

  // ----- streams and what is sent to them

  /** The four streams a client can open. */
  datatype Shape =
    | RoomStream(roomId: string, userId: string)
    | DebateStream(debateId: string, userId: string)
    | UserStream(userId: string)
    | LeaderboardStream(userId: string)

  datatype Context = Context(stream: string, streamId: string, roomId: Option<string>, userId: string)

  function ChannelsOf(shape: Shape): seq<Channel> {
    match shape
    case RoomStream(r, u) => [Channel(ROOM, r), Channel(USER, u)]
    case DebateStream(d, u) => [Channel(DEBATE, d), Channel(USER, u)]
    case UserStream(u) => [Channel(USER, u)]
    case LeaderboardStream(u) => [Channel(LEADERBOARD, "global"), Channel(USER, u)]
  }

  function ContextOf(shape: Shape): Context {
    match shape
    case RoomStream(r, u) => Context("room", r, Some(r), u)
    case DebateStream(d, u) => Context("debate", d, None, u)
    case UserStream(u) => Context("user", u, None, u)
    case LeaderboardStream(u) => Context("leaderboard", "leaderboard", None, u)
  }

  datatype Publication =
    | RoomReady(roomId: string)
    | TopicRevealed(roomId: string)
    | SidesAssigned(roomId: string)
    | PrepStarted(roomId: string)
    | DebateStarted(roomId: string, debateId: Option<string>)
    | MessageCreated(roomId: string, author: string)
    | VoteCreated(debate: string, userId: string)
    | VoteUpdated(debate: string, userId: string)
    | ResultPublished(room: Option<string>, debateId: Option<string>)
    | LeaderboardUpdated(room: Option<string>)

  datatype Event = Connected(context: Context) | Ping(context: Context) | Published(publication: Publication)

  /** `id` is the counter part of the message id. */
  datatype Message = Message(id: nat, event: Event)

  datatype Stream = Stream(channels: seq<Channel>, context: Context, live: bool, inbox: seq<Message>)

  datatype Hub = Hub(streams: seq<Stream>, nextEventId: nat)

  /** An optional id that is neither missing nor empty. */
  predicate Given(id: Option<string>) {
    id.Some? && id.value != ""
  }

  function OptionalChannel(scope: Scope, id: Option<string>): seq<Channel> {
    if Given(id) then [Channel(scope, id.value)] else []
  }

  /** The channels of the delivery every publication makes. */
  function FirstPass(p: Publication): seq<Channel> {
    match p
    case VoteCreated(d, u) => [Channel(DEBATE, d), Channel(USER, u)]
    case VoteUpdated(d, u) => [Channel(DEBATE, d), Channel(USER, u)]
    case ResultPublished(r, d) => OptionalChannel(ROOM, r) + OptionalChannel(DEBATE, d)
    case LeaderboardUpdated(r) => [Channel(LEADERBOARD, "global")] + OptionalChannel(ROOM, r)
    case _ => [Channel(ROOM, p.roomId)]
  }

  /** The channels of the second, separate delivery that only the start of a debate makes. */
  function SecondPass(p: Publication): seq<Channel> {
    match p
    case DebateStarted(_, d) => OptionalChannel(DEBATE, d)
    case _ => []
  }

  ghost predicate Listens(s: Stream, c: Channel) {
    s.live && c in s.channels
  }

  predicate Meets(xs: seq<Channel>, ys: seq<Channel>) {
    exists c :: c in xs && c in ys
  }

  function Push(s: Stream, m: Message): Stream {
    s.(inbox := s.inbox + [m])
  }

  /** The live streams on at least one of the channels. */
  function Audience(streams: seq<Stream>, channels: seq<Channel>): set<nat> {
    set i | 0 <= i < |streams| && streams[i].live && Meets(streams[i].channels, channels)
  }

  function SendTo(streams: seq<Stream>, to: set<nat>, m: Message): seq<Stream> {
    seq(|streams|, i requires 0 <= i < |streams| => if i in to then Push(streams[i], m) else streams[i])
  }

  /** One delivery pass: one message for all, under a new counter. */
  function Deliver(h: Hub, channels: seq<Channel>, e: Event): Hub {
    Hub(SendTo(h.streams, Audience(h.streams, channels), Message(h.nextEventId + 1, e)), h.nextEventId + 1)
  }

  function PublishTo(h: Hub, p: Publication): Hub {
    var first := Deliver(h, FirstPass(p), Published(p));
    if SecondPass(p) == [] then first else Deliver(first, SecondPass(p), Published(p))
  }

  function OpenStream(h: Hub, channels: seq<Channel>, context: Context): Hub {
    var connected := Message(h.nextEventId + 1, Connected(context));
    Hub(h.streams + [Stream(channels, context, true, [connected])], h.nextEventId + 1)
  }

  function Beat(h: Hub, i: nat): Hub
    requires i < |h.streams|
  {
    Hub(h.streams[i := Push(h.streams[i], Message(h.nextEventId + 1, Ping(h.streams[i].context)))], h.nextEventId + 1)
  }

  function CloseStream(h: Hub, i: nat): Hub
    requires i < |h.streams|
  {
    h.(streams := h.streams[i := h.streams[i].(live := false)])
  }

  datatype Op = Subscribe(shape: Shape) | Publish(publication: Publication) | Heartbeat(i: nat) | Unsubscribe(i: nat)

  function Step(h: Hub, op: Op): Hub {
    match op
    case Subscribe(shape) => OpenStream(h, ChannelsOf(shape), ContextOf(shape))
    case Publish(p) => PublishTo(h, p)
    case Heartbeat(i) => if i < |h.streams| && h.streams[i].live then Beat(h, i) else h
    case Unsubscribe(i) => if i < |h.streams| && h.streams[i].live then CloseStream(h, i) else h
  }

  function Idle(): Hub {
    Hub([], 0)
  }

  // ----- who should hear what

  /** An id is given, is not empty, and is this one. */
  predicate Names(id: Option<string>, name: string) {
    id == Some(name) && name != ""
  }

  predicate IsVoteBy(p: Publication, user: string) {
    (p.VoteCreated? || p.VoteUpdated?) && p.userId == user
  }

  /**
   What each kind of stream is for: everybody hears of their own votes; a room stream hears what
   happens in its room and the results and leaderboard updates that name it; a debate stream hears
   of its debate's start, votes and result; a leaderboard stream hears every leaderboard update.
   */
  predicate Hears(shape: Shape, p: Publication) {
    || IsVoteBy(p, shape.userId)
    || (match shape
        case UserStream(_) => false
        case LeaderboardStream(_) => p.LeaderboardUpdated?
        case RoomStream(r, _) =>
          (match p
           case RoomReady(room) => room == r
           case TopicRevealed(room) => room == r
           case SidesAssigned(room) => room == r
           case PrepStarted(room) => room == r
           case DebateStarted(room, _) => room == r
           case MessageCreated(room, _) => room == r
           case ResultPublished(room, _) => Names(room, r)
           case LeaderboardUpdated(room) => Names(room, r)
           case VoteCreated(_, _) => false
           case VoteUpdated(_, _) => false)
        case DebateStream(d, _) =>
          (match p
           case DebateStarted(_, debate) => Names(debate, d)
           case ResultPublished(_, debate) => Names(debate, d)
           case VoteCreated(debate, _) => debate == d
           case VoteUpdated(debate, _) => debate == d
           case _ => false))
  }

  // ----- one publication

  /** One pass: one message to every stream on at least one channel, nothing to any other. */
  lemma DeliverReachesExactly(h: Hub, channels: seq<Channel>, e: Event, i: nat)
    requires i < |h.streams|
    ensures var h' := Deliver(h, channels, e);
            && |h'.streams| == |h.streams|
            && h'.streams[i] == if exists c :: Listens(h.streams[i], c) && c in channels
                                then Push(h.streams[i], Message(h'.nextEventId, e)) else h.streams[i]
  {
  }

  /** A stream that is both on a room and on a debate. */
  ghost predicate RoomAndDebate(channels: seq<Channel>) {
    exists c, d :: c in channels && d in channels && c.scope == ROOM && d.scope == DEBATE
  }

  lemma NoShapeJoinsRoomAndDebate(shape: Shape)
    ensures !RoomAndDebate(ChannelsOf(shape))
  {
  }

  function Events(inbox: seq<Message>): seq<Event> {
    seq(|inbox|, k requires 0 <= k < |inbox| => inbox[k].event)
  }

  lemma EventsOfPush(s: Stream, m: Message)
    ensures Events(Push(s, m).inbox) == Events(s.inbox) + [m.event]
  {
  }

  /**
   What one publication adds to one stream's inbox. A stream would get the start of a
   debate twice exactly when it listens both to the room and to the debate.
   */
  lemma PublishReaches(h: Hub, p: Publication, i: nat)
    requires i < |h.streams|
    ensures var h', s := PublishTo(h, p), h.streams[i];
            && |h'.streams| == |h.streams|
            && h'.streams[i] == s.(inbox := h'.streams[i].inbox)
            && s.inbox <= h'.streams[i].inbox
            && Events(h'.streams[i].inbox) == Events(s.inbox)
                 + (if s.live && Meets(s.channels, FirstPass(p)) then [Published(p)] else [])
                 + (if s.live && Meets(s.channels, SecondPass(p)) then [Published(p)] else [])
  {
    var s := h.streams[i];
    var first := Deliver(h, FirstPass(p), Published(p));
    DeliverReachesExactly(h, FirstPass(p), Published(p), i);
    EventsOfPush(s, Message(first.nextEventId, Published(p)));
    if SecondPass(p) != [] {
      DeliverReachesExactly(first, SecondPass(p), Published(p), i);
      EventsOfPush(first.streams[i], Message(first.nextEventId + 1, Published(p)));
    }
  }

  function Targets(p: Publication): seq<Channel> {
    FirstPass(p) + SecondPass(p)
  }

  /** On a stream that has not both kinds of channel, both passes together deliver at most once. */
  lemma PublishReachesOnce(h: Hub, p: Publication, i: nat)
    requires i < |h.streams| && !RoomAndDebate(h.streams[i].channels)
    ensures var s := h.streams[i];
            Events(PublishTo(h, p).streams[i].inbox)
            == Events(s.inbox) + if s.live && Meets(s.channels, Targets(p)) then [Published(p)] else []
  {
    PublishReaches(h, p, i);
    var s := h.streams[i];
    assert Meets(s.channels, Targets(p)) <==> Meets(s.channels, FirstPass(p)) || Meets(s.channels, SecondPass(p));
    assert Meets(s.channels, FirstPass(p)) && Meets(s.channels, SecondPass(p)) ==> RoomAndDebate(s.channels);
  }

  // ----- every run

  ghost predicate InboxOk(inbox: seq<Message>, bound: nat) {
    && inbox != []
    && (forall k :: 0 <= k < |inbox| ==> (inbox[k].event.Connected? <==> k == 0))
    && (forall k, l :: 0 <= k < l < |inbox| ==> inbox[k].id < inbox[l].id)
    && (forall k :: 0 <= k < |inbox| ==> inbox[k].id <= bound)
  }

  ghost predicate Inv(h: Hub) {
    && (forall i :: 0 <= i < |h.streams| ==> InboxOk(h.streams[i].inbox, h.nextEventId))
    && (forall i :: 0 <= i < |h.streams| ==> !RoomAndDebate(h.streams[i].channels))
  }

  ghost predicate SameIdsSameEvents(xs: seq<Message>, ys: seq<Message>) {
    forall k, l :: 0 <= k < |xs| && 0 <= l < |ys| && xs[k].id == ys[l].id ==> xs[k].event == ys[l].event
  }

  /** A counter stands for one event, whichever streams received it. */
  ghost predicate IdsIdentify(h: Hub) {
    forall i, j :: 0 <= i < |h.streams| && 0 <= j < |h.streams|
      ==> SameIdsSameEvents(h.streams[i].inbox, h.streams[j].inbox)
  }

  /** Every message is sent under the next counter, to some of the inboxes there were. */
  ghost predicate Extends(h: Hub, h': Hub, e: Event) {
    && |h'.streams| == |h.streams| && h'.nextEventId == h.nextEventId + 1
    && (forall i :: 0 <= i < |h.streams| ==>
          && h'.streams[i].channels == h.streams[i].channels
          && (h'.streams[i] == h.streams[i] || h'.streams[i] == Push(h.streams[i], Message(h'.nextEventId, e))))
  }

  lemma ExtendKeeps(h: Hub, h': Hub, e: Event)
    requires Inv(h) && IdsIdentify(h) && Extends(h, h', e) && !e.Connected?
    ensures Inv(h') && IdsIdentify(h')
  {
    hide RoomAndDebate;
    forall i | 0 <= i < |h.streams| ensures InboxOk(h'.streams[i].inbox, h'.nextEventId) {
      assert InboxOk(h.streams[i].inbox, h.nextEventId);
    }
    forall i, j | 0 <= i < |h.streams| && 0 <= j < |h.streams|
      ensures SameIdsSameEvents(h'.streams[i].inbox, h'.streams[j].inbox)
    {
      assert InboxOk(h.streams[i].inbox, h.nextEventId) && InboxOk(h.streams[j].inbox, h.nextEventId);
      assert SameIdsSameEvents(h.streams[i].inbox, h.streams[j].inbox);
    }
  }

  lemma OpenKeeps(h: Hub, shape: Shape)
    requires Inv(h) && IdsIdentify(h)
    ensures Inv(Step(h, Subscribe(shape))) && IdsIdentify(Step(h, Subscribe(shape)))
  {
    hide RoomAndDebate;
    NoShapeJoinsRoomAndDebate(shape);
    var h' := Step(h, Subscribe(shape));
    forall i, j | 0 <= i < |h'.streams| && 0 <= j < |h'.streams|
      ensures SameIdsSameEvents(h'.streams[i].inbox, h'.streams[j].inbox)
    {
      assert i < |h.streams| ==> InboxOk(h.streams[i].inbox, h.nextEventId);
      assert j < |h.streams| ==> InboxOk(h.streams[j].inbox, h.nextEventId);
    }
  }

  lemma StepKeeps(h: Hub, op: Op)
    requires Inv(h) && IdsIdentify(h)
    ensures Inv(Step(h, op)) && IdsIdentify(Step(h, op))
  {
    hide RoomAndDebate, InboxOk, SameIdsSameEvents, Meets;
    match op
    case Subscribe(shape) =>
      OpenKeeps(h, shape);
    case Publish(p) =>
      var first := Deliver(h, FirstPass(p), Published(p));
      ExtendKeeps(h, first, Published(p));
      if SecondPass(p) != [] {
        ExtendKeeps(first, Deliver(first, SecondPass(p), Published(p)), Published(p));
      }
    case Heartbeat(i) =>
      if i < |h.streams| && h.streams[i].live {
        ExtendKeeps(h, Beat(h, i), Ping(h.streams[i].context));
      }
    case Unsubscribe(i) =>
  }

  /**
   In every run each inbox starts with its only realtime.connected, its counters rise
   strictly, and equal counters mean the same event.
   */
  lemma {:induction false} InboxesAreOrdered(ops: seq<Op>)
    ensures Inv(Run(Step, Idle(), ops)) && IdsIdentify(Run(Step, Idle(), ops))
  {
    if ops != [] {
      InboxesAreOrdered(ops[..|ops| - 1]);
      StepKeeps(Run(Step, Idle(), ops[..|ops| - 1]), ops[|ops| - 1]);
    }
  }

  /** The channels a stream joins and those a publication goes to meet exactly when the stream should hear it. */
  lemma ChannelsServeHearing(shape: Shape, p: Publication)
    ensures Meets(ChannelsOf(shape), Targets(p)) <==> Hears(shape, p)
  {
    var xs, ys := ChannelsOf(shape), Targets(p);
    assert Meets(xs, ys) <==> xs[0] in ys || (|xs| == 2 && xs[1] in ys);
    InTargets(p, xs[0]);
    InTargets(p, xs[|xs| - 1]);
  }

  /** A channel is among the targets of a publication through its first pass or its second. */
  lemma InTargets(p: Publication, c: Channel)
    ensures c in Targets(p) <==> c in FirstPass(p) || c in SecondPass(p)
  {
  }

  /** The kinds of the streams of a run, in the order in which they were opened. */
  function Shapes(ops: seq<Op>): seq<Shape> {
    if ops == [] then []
    else
      var op := ops[|ops| - 1];
      Shapes(ops[..|ops| - 1]) + if op.Subscribe? then [op.shape] else []
  }

  ghost predicate SameChannels(h: Hub, h': Hub) {
    |h'.streams| == |h.streams| && forall i :: 0 <= i < |h.streams| ==> h'.streams[i].channels == h.streams[i].channels
  }

  lemma StepKeepsChannels(h: Hub, op: Op)
    ensures !op.Subscribe? ==> SameChannels(h, Step(h, op))
    ensures op.Subscribe? ==> Step(h, op).streams[..|h.streams|] == h.streams
                              && |Step(h, op).streams| == |h.streams| + 1
                              && Step(h, op).streams[|h.streams|].channels == ChannelsOf(op.shape)
  {
    hide Audience, ChannelsOf, FirstPass, SecondPass;
  }

  lemma {:induction false} StreamsHaveShapes(ops: seq<Op>)
    ensures var streams := Run(Step, Idle(), ops).streams;
            |streams| == |Shapes(ops)|
            && forall i :: 0 <= i < |streams| ==> streams[i].channels == ChannelsOf(Shapes(ops)[i])
  {
    if ops != [] {
      var before := ops[..|ops| - 1];
      StreamsHaveShapes(before);
      StepKeepsChannels(Run(Step, Idle(), before), ops[|ops| - 1]);
      var streams, streams' := Run(Step, Idle(), before).streams, Run(Step, Idle(), ops).streams;
      assert streams' == Step(Run(Step, Idle(), before), ops[|ops| - 1]).streams;
      hide Step, ChannelsOf;
      forall i | 0 <= i < |streams| ensures streams'[i].channels == streams[i].channels {
        assert ops[|ops| - 1].Subscribe? ==> streams'[..|streams|][i] == streams[i];
      }
    }
  }

  /**
   In every run a publication, the start of a debate included, reaches exactly the live streams
   that should hear it, each once.
   */
  lemma NoStreamHearsTwice(ops: seq<Op>, p: Publication, i: nat)
    requires i < |Run(Step, Idle(), ops).streams|
    ensures |Shapes(ops)| == |Run(Step, Idle(), ops).streams|
    ensures var s, s' := Run(Step, Idle(), ops).streams[i], Run(Step, Idle(), ops + [Publish(p)]).streams[i];
            Events(s'.inbox) == Events(s.inbox)
              + if s.live && Hears(Shapes(ops)[i], p) then [Published(p)] else []
  {
    InboxesAreOrdered(ops);
    StreamsHaveShapes(ops);
    ChannelsServeHearing(Shapes(ops)[i], p);
    RunSnoc(Step, Idle(), ops, Publish(p));
    PublishReachesOnce(Run(Step, Idle(), ops), p, i);
    hide Hears, Meets, Targets, FirstPass, SecondPass, ChannelsOf;
  }

  // ----- what one stream hears

  /**
   What stream `i` should hear of the operations after its subscription, and whether it is
   still live: told from its own kind alone, without channels and hub.
   */
  function Heard(ops: seq<Op>, i: nat, shape: Shape, context: Context): (seq<Event>, bool) {
    if ops == [] then ([], true)
    else
      var (events, live) := Heard(ops[..|ops| - 1], i, shape, context);
      match ops[|ops| - 1]
      case Publish(p) => (if live && Hears(shape, p) then events + [Published(p)] else events, live)
      case Heartbeat(j) => (if live && j == i then events + [Ping(context)] else events, live)
      case Unsubscribe(j) => (events, live && j != i)
      case Subscribe(_) => (events, live)
  }

  /** A stream says what it is, who listens, and, when it is a room's, which room. */
  predicate Introduces(c: Context, shape: Shape) {
    && c.userId == shape.userId
    && c.roomId == (if shape.RoomStream? then Some(shape.roomId) else None)
    && c.stream == (match shape case RoomStream(_, _) => "room" case DebateStream(_, _) => "debate"
                                case UserStream(_) => "user" case LeaderboardStream(_) => "leaderboard")
    && c.streamId == (match shape case RoomStream(r, _) => r case DebateStream(d, _) => d
                                  case UserStream(u) => u case LeaderboardStream(_) => "leaderboard")
  }

  lemma StepOnStream(h: Hub, op: Op, i: nat, events: seq<Event>)
    requires i < |h.streams| && !RoomAndDebate(h.streams[i].channels) && Events(h.streams[i].inbox) == events
    ensures var h', s := Step(h, op), h.streams[i];
            && i < |h'.streams| && h'.streams[i].channels == s.channels && h'.streams[i].context == s.context
            && h'.streams[i].live == (s.live && op != Unsubscribe(i))
            && Events(h'.streams[i].inbox) == events
                 + (if s.live && op.Publish? && Meets(s.channels, Targets(op.publication))
                    then [Published(op.publication)]
                    else if s.live && op == Heartbeat(i) then [Ping(s.context)] else [])
  {
    hide Deliver, Meets, RoomAndDebate, Targets, Events, FirstPass, SecondPass, PublishTo;
    match op
    case Publish(p) =>
      PublishReaches(h, p, i);
      PublishReachesOnce(h, p, i);
    case Heartbeat(j) =>
      if j == i {
        EventsOfPush(h.streams[i], Message(h.nextEventId + 1, Ping(h.streams[i].context)));
      }
    case _ =>
  }

  /**
   From any state on, a new stream hears realtime.connected with its own context and then, once each
   and in order, exactly the publications it should hear and its own heartbeats until it
   unsubscribes, whatever the other streams do.
   */
  lemma {:induction false} StreamHearsExactly(h: Hub, shape: Shape, ops: seq<Op>)
    ensures var i, h' := |h.streams|, Run(Step, Step(h, Subscribe(shape)), ops);
            var (events, live) := Heard(ops, i, shape, ContextOf(shape));
            && i < |h'.streams| && Introduces(ContextOf(shape), shape)
            && h'.streams[i].channels == ChannelsOf(shape) && h'.streams[i].context == ContextOf(shape)
            && h'.streams[i].live == live
            && Events(h'.streams[i].inbox) == [Connected(ContextOf(shape))] + events
  {
    hide Hears, Meets, Targets, Introduces, ContextOf, ChannelsOf, RoomAndDebate;
    ContextIntroduces(shape);
    var i, h1 := |h.streams|, Step(h, Subscribe(shape));
    if ops == [] {
      assert Events(h1.streams[i].inbox) == [Connected(ContextOf(shape))];
    } else {
      hide Step, Events;
      var before, op := ops[..|ops| - 1], ops[|ops| - 1];
      StreamHearsExactly(h, shape, before);
      NoShapeJoinsRoomAndDebate(shape);
      var (events, _) := Heard(before, i, shape, ContextOf(shape));
      if op.Publish? {
        ChannelsServeHearing(shape, op.publication);
      }
      StepOnStream(Run(Step, h1, before), op, i, [Connected(ContextOf(shape))] + events);
    }
  }

  lemma ContextIntroduces(shape: Shape)
    ensures Introduces(ContextOf(shape), shape)
  {
  }
}
