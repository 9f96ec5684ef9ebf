/**
 The realtime service: a map from channel keys to subscriber sets, updated in place, proved to
 agree with the relation between live streams and their channels, and to deliver like the hub.
 */
module RealtimeServices {
  import opened Common
  import opened Realtime

  /** A subscriber is known by its position in the list of streams. */
  type Subscribers = map<string, set<nat>>

  ghost predicate Holds(m: Subscribers, c: Channel, i: nat) {
    ChannelKey(c) in m && i in m[ChannelKey(c)]
  }

  /** No empty set is kept and every key is the key of a channel. */
  ghost predicate Tidy(m: Subscribers) {
    forall k :: k in m ==> m[k] != {} && exists c :: k == ChannelKey(c)
  }

  ghost predicate Agrees(m: Subscribers, streams: seq<Stream>) {
    && Tidy(m)
    && forall c, i: nat :: Holds(m, c, i) <==> i < |streams| && Listens(streams[i], c)
  }

  /** So the live streams and their channels determine the whole map. */
  lemma MapIsDetermined(m: Subscribers, n: Subscribers, streams: seq<Stream>)
    requires Agrees(m, streams) && Agrees(n, streams)
    ensures m == n
  {
    KeysAreIn(m, n, streams);
    KeysAreIn(n, m, streams);
    assert m.Keys == n.Keys;
    assert forall k :: k in m ==> m[k] == n[k];
  }

  lemma KeysAreIn(m: Subscribers, n: Subscribers, streams: seq<Stream>)
    requires Agrees(m, streams) && Agrees(n, streams)
    ensures forall k :: k in m ==> k in n && m[k] <= n[k]
  {
    forall k | k in m ensures k in n && m[k] <= n[k] {
      var c :| k == ChannelKey(c);
      forall i | i in m[k] ensures k in n && i in n[k] {
        assert Holds(m, c, i);
        assert Holds(n, c, i);
      }
    }
  }

  /** Whether the map agrees depends on who is live on which channels, not on the inboxes. */
  lemma AgreesWhateverIsSent(m: Subscribers, streams: seq<Stream>, to: set<nat>, message: Message)
    requires Agrees(m, streams)
    ensures Agrees(m, SendTo(streams, to, message))
  {
  }

  lemma NothingSent(streams: seq<Stream>, message: Message)
    ensures Audience(streams, []) == {} && SendTo(streams, {}, message) == streams
  {
  }

  /** Each channel once, in the order of first appearance. */
  function FirstOccurrences(channels: seq<Channel>): seq<Channel> {
    if channels == [] then []
    else
      var before := FirstOccurrences(channels[..|channels| - 1]);
      var last := channels[|channels| - 1];
      if last in channels[..|channels| - 1] then before else before + [last]
  }

  ghost predicate Distinct(channels: seq<Channel>) {
    forall i, j :: 0 <= i < j < |channels| ==> channels[i] != channels[j]
  }

  lemma {:induction false} FirstOccurrencesAreASet(channels: seq<Channel>)
    ensures forall c :: c in FirstOccurrences(channels) <==> c in channels
    ensures Distinct(FirstOccurrences(channels))
  {
    if channels != [] {
      var n := |channels| - 1;
      FirstOccurrencesAreASet(channels[..n]);
      assert channels == channels[..n] + [channels[n]];
    }
  }

  /** Repeats and order in a channel list make no difference to who is reached. */
  lemma AudienceOfSame(streams: seq<Stream>, xs: seq<Channel>, ys: seq<Channel>)
    requires forall c :: c in xs <==> c in ys
    ensures Audience(streams, xs) == Audience(streams, ys)
  {
  }

  lemma AudienceGrows(m: Subscribers, streams: seq<Stream>, channels: seq<Channel>, c: Channel)
    requires Agrees(m, streams)
    ensures Audience(streams, channels + [c])
            == Audience(streams, channels) + if ChannelKey(c) in m then m[ChannelKey(c)] else {}
    ensures ChannelKey(c) in m ==> forall i :: i in m[ChannelKey(c)] ==> i < |streams|
  {
    assert forall i :: ChannelKey(c) in m && i in m[ChannelKey(c)] ==> Holds(m, c, i);
    forall i: nat
      ensures i in Audience(streams, channels + [c]) <==> i in Audience(streams, channels) || Holds(m, c, i)
    {
      if i < |streams| {
        var own := streams[i].channels;
        assert Meets(own, channels + [c]) <==> Meets(own, channels) || c in own by {
          assert c in channels + [c];
          assert forall d :: d in channels + [c] <==> d in channels || d == c;
        }
      }
    }
  }

  class RealtimeService {
    var subscribersByChannel: Subscribers
    var nextEventId: nat
    /** What each stream captured when it was created, and what has been passed to its subscriber. */
    var streams: seq<Stream>

    ghost predicate Valid()
      reads this
    {
      Agrees(subscribersByChannel, streams)
    }

    ghost function State(): Hub
      reads this
    {
      Hub(streams, nextEventId)
    }

    constructor ()
      ensures Valid() && State() == Idle()
    {
      subscribersByChannel := map[];
      nextEventId := 0;
      streams := [];
    }

    // ----- the map

    method AddSubscriber(c: Channel, i: nat)
      requires Tidy(subscribersByChannel)
      modifies this`subscribersByChannel
      ensures Tidy(subscribersByChannel)
      ensures forall d, j: nat :: Holds(subscribersByChannel, d, j)
                             <==> Holds(old(subscribersByChannel), d, j) || (d == c && j == i)
    {
      var key := ChannelKey(c);
      var subscribers := if key in subscribersByChannel then subscribersByChannel[key] else {};
      subscribersByChannel := subscribersByChannel[key := subscribers + {i}];
      forall d ensures ChannelKey(d) == key <==> d == c {
        ChannelKeyIsInjective(d, c);
      }
    }

    method RemoveSubscriber(c: Channel, i: nat)
      requires Tidy(subscribersByChannel)
      modifies this`subscribersByChannel
      ensures Tidy(subscribersByChannel)
      ensures forall d, j: nat :: Holds(subscribersByChannel, d, j)
                             <==> Holds(old(subscribersByChannel), d, j) && !(d == c && j == i)
    {
      forall d ensures ChannelKey(d) == ChannelKey(c) <==> d == c {
        ChannelKeyIsInjective(d, c);
      }
      var key := ChannelKey(c);
      if key !in subscribersByChannel {
        return;
      }
      var subscribers := subscribersByChannel[key] - {i};
      if |subscribers| == 0 {
        subscribersByChannel := subscribersByChannel - {key};
      } else {
        subscribersByChannel := subscribersByChannel[key := subscribers];
      }
    }

    method UniqueChannels(channels: seq<Channel>) returns (unique: seq<Channel>)
      ensures unique == FirstOccurrences(channels)
    {
      var seen: set<string> := {};
      unique := [];
      for n := 0 to |channels|
        invariant forall c :: ChannelKey(c) in seen <==> c in channels[..n]
        invariant unique == FirstOccurrences(channels[..n])
      {
        var key := ChannelKey(channels[n]);
        forall d ensures ChannelKey(d) == key <==> d == channels[n] {
          ChannelKeyIsInjective(d, channels[n]);
        }
        assert channels[..n + 1][..n] == channels[..n];
        if key !in seen {
          seen := seen + {key};
          unique := unique + [channels[n]];
        }
      }
      assert channels[..|channels|] == channels;
    }

    /** How many live streams listen to the channel. */
    method GetSubscriberCount(scope: Scope, id: string) returns (count: nat)
      requires Valid()
      ensures count == |set i | 0 <= i < |streams| && Listens(streams[i], Channel(scope, id))|
    {
      var key := ChannelKey(Channel(scope, id));
      ghost var listeners := set i | 0 <= i < |streams| && Listens(streams[i], Channel(scope, id));
      assert forall i: nat :: i in listeners <==> Holds(subscribersByChannel, Channel(scope, id), i);
      if key !in subscribersByChannel {
        assert listeners == {};
        return 0;
      }
      assert listeners == subscribersByChannel[key];
      return |subscribersByChannel[key]|;
    }

    // ----- streams

    method CreateStream(channels: seq<Channel>, context: Context) returns (i: nat)
      requires Valid()
      modifies this
      ensures Valid()
      ensures i == |old(streams)| && State() == OpenStream(old(State()), channels, context)
    {
      i := |streams|;
      var unique := UniqueChannels(channels);
      FirstOccurrencesAreASet(channels);
      for n := 0 to |unique|
        invariant Tidy(subscribersByChannel) && State() == old(State())
        invariant forall c, j: nat :: Holds(subscribersByChannel, c, j)
                    <==> Holds(old(subscribersByChannel), c, j) || (j == i && c in unique[..n])
      {
        AddSubscriber(unique[n], i);
      }
      nextEventId := nextEventId + 1;
      streams := streams + [Stream(channels, context, true, [Message(nextEventId, Connected(context))])];
    }

    /** What createStream returns to be called on unsubscription; the stream's own channels go, nothing else. */
    method Unsubscribe(i: nat)
      requires Valid() && i < |streams| && streams[i].live
      modifies this
      ensures Valid()
      ensures State() == CloseStream(old(State()), i)
      ensures forall c, j: nat :: Holds(subscribersByChannel, c, j)
                                  <==> Holds(old(subscribersByChannel), c, j) && j != i
    {
      var unique := UniqueChannels(streams[i].channels);
      FirstOccurrencesAreASet(streams[i].channels);
      for n := 0 to |unique|
        invariant Tidy(subscribersByChannel) && State() == old(State())
        invariant forall c, j: nat :: Holds(subscribersByChannel, c, j)
                    <==> Holds(old(subscribersByChannel), c, j) && !(j == i && c in unique[..n])
      {
        RemoveSubscriber(unique[n], i);
      }
      streams := streams[i := streams[i].(live := false)];
    }

    method Heartbeat(i: nat)
      requires Valid() && i < |streams| && streams[i].live
      modifies this
      ensures Valid() && State() == Beat(old(State()), i)
    {
      nextEventId := nextEventId + 1;
      streams := streams[i := Push(streams[i], Message(nextEventId, Ping(streams[i].context)))];
      assert streams == SendTo(old(streams), {i}, Message(nextEventId, Ping(streams[i].context)));
      AgreesWhateverIsSent(subscribersByChannel, old(streams), {i}, Message(nextEventId, Ping(streams[i].context)));
    }

    method StreamRoom(roomId: string, userId: string) returns (i: nat)
      requires Valid()
      modifies this
      ensures Valid() && State() == Step(old(State()), Op.Subscribe(RoomStream(roomId, userId)))
    {
      i := CreateStream([Channel(ROOM, roomId), Channel(USER, userId)], Context("room", roomId, Some(roomId), userId));
    }

    method StreamDebate(debateId: string, userId: string) returns (i: nat)
      requires Valid()
      modifies this
      ensures Valid() && State() == Step(old(State()), Op.Subscribe(DebateStream(debateId, userId)))
    {
      i := CreateStream([Channel(DEBATE, debateId), Channel(USER, userId)], Context("debate", debateId, None, userId));
    }

    method StreamCurrentUser(userId: string) returns (i: nat)
      requires Valid()
      modifies this
      ensures Valid() && State() == Step(old(State()), Op.Subscribe(UserStream(userId)))
    {
      i := CreateStream([Channel(USER, userId)], Context("user", userId, None, userId));
    }

    method StreamLeaderboard(userId: string) returns (i: nat)
      requires Valid()
      modifies this
      ensures Valid() && State() == Step(old(State()), Op.Subscribe(LeaderboardStream(userId)))
    {
      i := CreateStream([Channel(LEADERBOARD, "global"), Channel(USER, userId)],
                        Context("leaderboard", "leaderboard", None, userId));
    }

    // ----- publications

    /** The sets overlap, so what has been delivered is remembered; nobody gets the message twice. */
    method PublishToChannels(channels: seq<Channel>, event: Event)
      requires Valid()
      modifies this`nextEventId, this`streams
      ensures Valid()
      ensures State() == Deliver(old(State()), channels, event)
    {
      hide Audience, SendTo, Agrees;
      nextEventId := nextEventId + 1;
      var message := Message(nextEventId, event);
      ghost var before := streams;
      var delivered: set<nat> := {};
      var unique := UniqueChannels(channels);
      FirstOccurrencesAreASet(channels);
      AudienceOfSame(before, unique, channels);
      NothingSent(before, message);
      for n := 0 to |unique|
        invariant nextEventId == message.id
        invariant delivered == Audience(before, unique[..n])
        invariant streams == SendTo(before, delivered, message)
      {
        var key := ChannelKey(unique[n]);
        AudienceGrows(subscribersByChannel, before, unique[..n], unique[n]);
        assert unique[..n + 1] == unique[..n] + [unique[n]];
        if key in subscribersByChannel {
          delivered := DeliverTo(subscribersByChannel[key], delivered, message, before);
        }
      }
      assert unique[..|unique|] == unique;
      AgreesWhateverIsSent(subscribersByChannel, before, delivered, message);
    }

    /** The inner loop over one subscriber set, in whatever order the set is listed. */
    method DeliverTo(subscribers: set<nat>, sent: set<nat>, message: Message, ghost before: seq<Stream>)
      returns (delivered: set<nat>)
      requires streams == SendTo(before, sent, message) && forall i :: i in subscribers ==> i < |before|
      modifies this`streams
      ensures delivered == sent + subscribers
      ensures streams == SendTo(before, delivered, message)
    {
      delivered := sent;
      var pending := subscribers;
      while pending != {}
        invariant pending <= subscribers && delivered == sent + (subscribers - pending)
        invariant streams == SendTo(before, delivered, message)
      {
        var i :| i in pending;
        pending := pending - {i};
        if i !in delivered {
          delivered := delivered + {i};
          streams := streams[i := Push(streams[i], message)];
        }
      }
    }

    method PublishRoomEvent(p: Publication)
      requires Valid()
      requires p.RoomReady? || p.TopicRevealed? || p.SidesAssigned? || p.PrepStarted? || p.MessageCreated?
      modifies this
      ensures Valid() && State() == PublishTo(old(State()), p)
    {
      PublishToChannels([Channel(ROOM, p.roomId)], Published(p));
    }

    method PublishDebateStarted(roomId: string, debateId: Option<string>)
      requires Valid()
      modifies this
      ensures Valid() && State() == PublishTo(old(State()), DebateStarted(roomId, debateId))
    {
      var event := Published(DebateStarted(roomId, debateId));
      PublishToChannels([Channel(ROOM, roomId)], event);
      if debateId.Some? && debateId.value != "" {
        PublishToChannels([Channel(DEBATE, debateId.value)], event);
      }
    }

    method PublishVote(p: Publication)
      requires Valid()
      requires p.VoteCreated? || p.VoteUpdated?
      modifies this
      ensures Valid() && State() == PublishTo(old(State()), p)
    {
      PublishToChannels([Channel(DEBATE, p.debate), Channel(USER, p.userId)], Published(p));
    }

    method PublishResultPublished(roomId: Option<string>, debateId: Option<string>)
      requires Valid()
      modifies this
      ensures Valid() && State() == PublishTo(old(State()), ResultPublished(roomId, debateId))
    {
      var channels := [];
      if Given(roomId) {
        channels := channels + [Channel(ROOM, roomId.value)];
      }
      if Given(debateId) {
        channels := channels + [Channel(DEBATE, debateId.value)];
      }
      PublishToChannels(channels, Published(ResultPublished(roomId, debateId)));
    }

    method PublishLeaderboardUpdated(roomId: Option<string>)
      requires Valid()
      modifies this
      ensures Valid() && State() == PublishTo(old(State()), LeaderboardUpdated(roomId))
    {
      var channels := [Channel(LEADERBOARD, "global")];
      if Given(roomId) {
        channels := channels + [Channel(ROOM, roomId.value)];
      }
      PublishToChannels(channels, Published(LeaderboardUpdated(roomId)));
    }
  }
}
