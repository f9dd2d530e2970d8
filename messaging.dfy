/**
 * Conversations between two users: the find-or-create step, sending a message, and the
 * listings of conversations and messages. The three tables are held in memory; row ids
 * are positions, so a new row's id is the table's length.
 */
module Messaging {
  import opened Wrappers
  import opened Lists

  datatype ConversationRow = ConversationRow(id: nat, createdAt: int, updatedAt: int)
  datatype ParticipantRow = ParticipantRow(conversationId: nat, userId: string, lastReadAt: Option<int>)
  datatype MessageRow = MessageRow(id: nat, conversationId: nat, senderId: string, content: string, createdAt: int)
  datatype ProfileRow = ProfileRow(id: string, userId: string, fullName: string, avatarUrl: Option<string>)

  /** Some row of `ps` places `user` in conversation `c`. */
  ghost predicate Participates(ps: seq<ParticipantRow>, user: string, c: nat) {
    exists i :: 0 <= i < |ps| && ps[i].userId == user && ps[i].conversationId == c
  }

  /** The conversation ids of `user`'s participations, in table order. */
  function ConversationIdsOf(ps: seq<ParticipantRow>, user: string): (ids: seq<nat>)
    ensures forall c :: c in ids <==> Participates(ps, user, c)
  {
    if ps == [] then []
    else
      var rest := ConversationIdsOf(ps[1..], user);
      assert forall c :: Participates(ps[1..], user, c) ==> Participates(ps, user, c) by {
        forall c | Participates(ps[1..], user, c) ensures Participates(ps, user, c) {
          var i :| 0 <= i < |ps[1..]| && ps[1..][i].userId == user && ps[1..][i].conversationId == c;
          assert ps[i + 1] == ps[1..][i];
        }
      }
      assert forall c :: Participates(ps, user, c) ==> c in rest || (ps[0].userId == user && ps[0].conversationId == c) by {
        forall c | Participates(ps, user, c) ensures c in rest || (ps[0].userId == user && ps[0].conversationId == c) {
          var i :| 0 <= i < |ps| && ps[i].userId == user && ps[i].conversationId == c;
          if i > 0 {
            assert ps[1..][i - 1] == ps[i];
          }
        }
      }
      if ps[0].userId == user then [ps[0].conversationId] + rest else rest
  }

  /**
   * The lookup of `startConversation`: `me`'s participations; if there are any, the
   * participations of `other` in those conversations; the first of these, if any.
   */
  function FindShared(ps: seq<ParticipantRow>, me: string, other: string): (r: Option<nat>)
    ensures r.Some? ==> Participates(ps, me, r.value) && Participates(ps, other, r.value)
    ensures r.None? ==> forall c :: !(Participates(ps, me, c) && Participates(ps, other, c))
  {
    var mine := ConversationIdsOf(ps, me);
    if |mine| == 0 then None
    else
      var theirs := Filter(ps, InConversationsOf(other, mine));
      if |theirs| > 0 then
        assert theirs[0] in ps;
        Some(theirs[0].conversationId)
      else
        forall c | Participates(ps, me, c) && Participates(ps, other, c) ensures false {
          SharedIsKept(ps, me, other, c);
        }
        None
  }

  /** The filter `p => p.user_id === other && mine.includes(p.conversation_id)`. */
  function InConversationsOf(other: string, mine: seq<nat>): ParticipantRow -> bool {
    (p: ParticipantRow) => p.userId == other && p.conversationId in mine
  }

  /** A conversation both users are in survives the second query's filter. */
  lemma SharedIsKept(ps: seq<ParticipantRow>, me: string, other: string, c: nat)
    requires Participates(ps, me, c) && Participates(ps, other, c)
    ensures |Filter(ps, InConversationsOf(other, ConversationIdsOf(ps, me)))| > 0
  {
    var i :| 0 <= i < |ps| && ps[i].userId == other && ps[i].conversationId == c;
    assert ps[i] in ps;
    assert InConversationsOf(other, ConversationIdsOf(ps, me))(ps[i]);
  }

  /**
   * After a creation the two users share the new conversation and no other, so the lookup
   * of a second call for the same pair finds it.
   */
  lemma FoundAfterCreate(ps: seq<ParticipantRow>, me: string, other: string, id: nat)
    requires FindShared(ps, me, other).None?
    requires forall p :: p in ps ==> p.conversationId != id
    ensures FindShared(ps + [ParticipantRow(id, me, None), ParticipantRow(id, other, None)], me, other) == Some(id)
  {
    var added := [ParticipantRow(id, me, None), ParticipantRow(id, other, None)];
    var ps' := ps + added;
    assert ps'[|ps|].userId == me && ps'[|ps|].conversationId == id;
    assert ps'[|ps| + 1].userId == other && ps'[|ps| + 1].conversationId == id;
    assert Participates(ps', me, id) && Participates(ps', other, id);
    var r := FindShared(ps', me, other);
    assert r.Some?;
    if r.value != id {
      StillParticipates(ps, added, me, r.value);
      StillParticipates(ps, added, other, r.value);
      assert false;
    }
  }

  /** Rows appended for another conversation do not add participations in `c`. */
  lemma StillParticipates(ps: seq<ParticipantRow>, added: seq<ParticipantRow>, user: string, c: nat)
    requires Participates(ps + added, user, c)
    requires forall p :: p in added ==> p.conversationId != c
    ensures Participates(ps, user, c)
  {
    forall k | |ps| <= k < |ps + added| ensures (ps + added)[k].conversationId != c {
      assert (ps + added)[k] == added[k - |ps|];
      assert added[k - |ps|] in added;
    }
    var i :| 0 <= i < |ps + added| && (ps + added)[i].userId == user && (ps + added)[i].conversationId == c;
    assert (ps + added)[i] == ps[i];
  }

  /** `conversations` with the updated time of conversation `id` set to `now`. */
  function Touched(conversations: seq<ConversationRow>, id: nat, now: int): (r: seq<ConversationRow>)
    ensures |r| == |conversations|
    ensures forall k :: 0 <= k < |r| && conversations[k].id != id ==> r[k] == conversations[k]
    ensures forall k :: 0 <= k < |r| && conversations[k].id == id ==>
              r[k] == conversations[k].(updatedAt := now)
  {
    seq(|conversations|, k requires 0 <= k < |conversations| =>
      if conversations[k].id == id then conversations[k].(updatedAt := now) else conversations[k])
  }

  /** The conversation, participant and message tables. */
  class MessageTables {
    var conversations: seq<ConversationRow>
    var participants: seq<ParticipantRow>
    var messages: seq<MessageRow>

    /** Ids are positions, and every participant and message belongs to a conversation. */
    ghost predicate Valid()
      reads this
    {
      && (forall k :: 0 <= k < |conversations| ==> conversations[k].id == k)
      && (forall p :: p in participants ==> p.conversationId < |conversations|)
      && (forall k :: 0 <= k < |messages| ==> messages[k].id == k && messages[k].conversationId < |conversations|)
    }

    constructor ()
      ensures Valid() && conversations == [] && participants == [] && messages == []
    {
      conversations := [];
      participants := [];
      messages := [];
    }

    /**
     * `startConversation(other)`: not signed in, it throws before any read or write. The two
     * lookup reads keep only their data, so when either read fails (`lookupsOk` false) the
     * lookup finds nothing and a conversation is created even if the users already share
     * one. A conversation found by the lookup is returned with nothing written; otherwise a
     * conversation is inserted and then the two participant rows, me first. A failed
     * conversation insert writes nothing; a failed participant insert leaves the new
     * conversation without participants.
     */
    method StartConversation(me: Option<string>, other: string, now: int, lookupsOk: bool,
                             conversationInsertOk: bool, participantInsertOk: bool)
      returns (r: Result<nat>)
      requires Valid()
      modifies this
      ensures Valid()
      ensures messages == old(messages)
      ensures me.None? ==> r == Err("Not authenticated")
      ensures me.None? || (lookupsOk && FindShared(old(participants), me.value, other).Some?) || !conversationInsertOk ==>
                conversations == old(conversations) && participants == old(participants)
      ensures me.Some? && lookupsOk && FindShared(old(participants), me.value, other).Some? ==>
                r == Ok(FindShared(old(participants), me.value, other).value)
      ensures me.Some? && !(lookupsOk && FindShared(old(participants), me.value, other).Some?) && !conversationInsertOk ==>
                r.Err?
      ensures me.Some? && !(lookupsOk && FindShared(old(participants), me.value, other).Some?) && conversationInsertOk ==>
                conversations == old(conversations) + [ConversationRow(|old(conversations)|, now, now)]
                && (participantInsertOk ==>
                      r == Ok(|old(conversations)|)
                      && participants == old(participants) + [ParticipantRow(|old(conversations)|, me.value, None),
                                                              ParticipantRow(|old(conversations)|, other, None)])
                && (!participantInsertOk ==> r.Err? && participants == old(participants))
    {
      if me.None? {
        return Err("Not authenticated");
      }
      if lookupsOk {
        var mine := ConversationIdsOf(participants, me.value);
        if |mine| > 0 {
          var theirs := Filter(participants, InConversationsOf(other, mine));
          if |theirs| > 0 {
            return Ok(theirs[0].conversationId);
          }
        }
      }
      if !conversationInsertOk {
        return Err("conversation insert failed");
      }
      var id := |conversations|;
      conversations := conversations + [ConversationRow(id, now, now)];
      if !participantInsertOk {
        return Err("participant insert failed");
      }
      participants := participants + [ParticipantRow(id, me.value, None), ParticipantRow(id, other, None)];
      r := Ok(id);
    }

    /**
     * `sendMessage`: not signed in, it throws before writing; otherwise one message from
     * `me` is inserted (it fails when the insert fails or the conversation does not exist)
     * and then the conversation's updated time is set to `now`; a failure of that update is
     * ignored.
     */
    method SendMessage(me: Option<string>, conversationId: nat, content: string, now: int, insertOk: bool, touchOk: bool)
      returns (r: Result<MessageRow>)
      requires Valid()
      modifies this
      ensures Valid()
      ensures participants == old(participants)
      ensures me.None? || !insertOk || conversationId >= |old(conversations)| ==>
                r.Err? && conversations == old(conversations) && messages == old(messages)
      ensures me.Some? && insertOk && conversationId < |old(conversations)| ==>
                r == Ok(MessageRow(|old(messages)|, conversationId, me.value, content, now))
                && messages == old(messages) + [r.value]
                && conversations == (if touchOk then Touched(old(conversations), conversationId, now) else old(conversations))
    {
      if me.None? {
        return Err("Not authenticated");
      }
      if !insertOk || conversationId >= |conversations| {
        return Err("message insert failed");
      }
      var row := MessageRow(|messages|, conversationId, me.value, content, now);
      messages := messages + [row];
      if touchOk {
        conversations := Touched(conversations, conversationId, now);
      }
      r := Ok(row);
    }
  }

  /**
   * Starting a conversation twice with the same user: when the second call's lookups succeed
   * it finds the conversation the first one created and writes nothing.
   */
  method StartTwice(t: MessageTables, me: string, other: string, now: int) returns (first: Result<nat>, second: Result<nat>)
    requires t.Valid()
    modifies t
    ensures first.Ok? ==> second == first
  {
    first := t.StartConversation(Some(me), other, now, true, true, true);
    if first.Ok? && FindShared(old(t.participants), me, other).None? {
      FoundAfterCreate(old(t.participants), me, other, first.value);
    }
    second := t.StartConversation(Some(me), other, now, true, true, true);
  }

  /**
   * A failed lookup read on the second call: the source discards the read's error, so the
   * second call creates another conversation for the same two users, distinct from the first.
   */
  method StartTwiceLookupFails(t: MessageTables, me: string, other: string, now: int)
    returns (first: Result<nat>, second: Result<nat>)
    requires t.Valid()
    modifies t
    ensures second.Ok? && second.value == |t.conversations| - 1
    ensures first.Ok? ==> first.value < second.value
    ensures first.Ok? ==>
              Participates(t.participants, me, first.value) && Participates(t.participants, other, first.value)
              && Participates(t.participants, me, second.value) && Participates(t.participants, other, second.value)
  {
    first := t.StartConversation(Some(me), other, now, true, true, true);
    if first.Ok? && FindShared(old(t.participants), me, other).None? {
      FoundAfterCreate(old(t.participants), me, other, first.value);
    }
    var ps := t.participants;
    ghost var n := |t.conversations|;
    second := t.StartConversation(Some(me), other, now, false, true, true);
    var added := [ParticipantRow(n, me, None), ParticipantRow(n, other, None)];
    assert t.participants == ps + added;
    assert t.participants[|ps|] == added[0] && t.participants[|ps| + 1] == added[1];
    if first.Ok? {
      assert Participates(ps, me, first.value) && Participates(ps, other, first.value) by {
        assert FindShared(ps, me, other) == Some(first.value);
      }
      var i :| 0 <= i < |ps| && ps[i].userId == me && ps[i].conversationId == first.value;
      assert ps[i] in ps;
      KeepsParticipation(ps, added, me, first.value);
      KeepsParticipation(ps, added, other, first.value);
    }
  }

  /** Rows appended to a participant table keep every participation already there. */
  lemma KeepsParticipation(ps: seq<ParticipantRow>, added: seq<ParticipantRow>, user: string, c: nat)
    requires Participates(ps, user, c)
    ensures Participates(ps + added, user, c)
  {
    var i :| 0 <= i < |ps| && ps[i].userId == user && ps[i].conversationId == c;
    assert (ps + added)[i] == ps[i];
  }

  /** `profiles.find(p => p.user_id === userId)`. */
  function FindProfile(profiles: seq<ProfileRow>, userId: string): (r: Option<ProfileRow>)
    ensures r.Some? ==> r.value in profiles && r.value.userId == userId
    ensures r.None? <==> forall p :: p in profiles ==> p.userId != userId
  {
    if profiles == [] then None
    else if profiles[0].userId == userId then Some(profiles[0])
    else FindProfile(profiles[1..], userId)
  }

  /** The newest message of a list: the first one with the greatest creation time. */
  function Newest(ms: seq<MessageRow>): (r: Option<MessageRow>)
    ensures r.None? <==> ms == []
    ensures r.Some? ==> r.value in ms && forall m :: m in ms ==> m.createdAt <= r.value.createdAt
  {
    if ms == [] then None
    else
      var rest := Newest(ms[1..]);
      if rest.None? || rest.value.createdAt <= ms[0].createdAt then Some(ms[0]) else rest
  }

  datatype ParticipantView = ParticipantView(userId: string, lastReadAt: Option<int>, profile: Option<ProfileRow>)
  datatype ConversationView = ConversationView(
    conversation: ConversationRow, participants: seq<ParticipantView>, lastMessage: Option<MessageRow>)

  /** The filter `p => p.conversation_id === conv.id` on participant rows. */
  function OwnRows(id: nat): ParticipantRow -> bool {
    (p: ParticipantRow) => p.conversationId == id
  }

  /**
   * A conversation with its own participant rows, in table order, each joined with its
   * `lastReadAt` and the profile of its user, and with its newest message.
   */
  function ViewOf(c: ConversationRow, ps: seq<ParticipantRow>, ms: seq<MessageRow>, profiles: seq<ProfileRow>): (v: ConversationView)
    ensures v.conversation == c
    ensures |v.participants| == |Filter(ps, OwnRows(c.id))|
    ensures forall k :: 0 <= k < |v.participants| ==>
              v.participants[k] == ParticipantView(Filter(ps, OwnRows(c.id))[k].userId, Filter(ps, OwnRows(c.id))[k].lastReadAt,
                                                   FindProfile(profiles, Filter(ps, OwnRows(c.id))[k].userId))
    ensures forall k :: 0 <= k < |v.participants| ==> Participates(ps, v.participants[k].userId, c.id)
    ensures v.lastMessage == Newest(Filter(ms, (m: MessageRow) => m.conversationId == c.id))
    ensures v.lastMessage.Some? ==> v.lastMessage.value.conversationId == c.id
  {
    var own := Filter(ps, OwnRows(c.id));
    var views := seq(|own|, k requires 0 <= k < |own| =>
      ParticipantView(own[k].userId, own[k].lastReadAt, FindProfile(profiles, own[k].userId)));
    assert forall k :: 0 <= k < |views| ==> Participates(ps, views[k].userId, c.id) by {
      forall k | 0 <= k < |views| ensures Participates(ps, views[k].userId, c.id) {
        assert own[k] in own;
        var i :| 0 <= i < |ps| && ps[i] == own[k];
      }
    }
    ConversationView(c, views, Newest(Filter(ms, (m: MessageRow) => m.conversationId == c.id)))
  }

  function NegatedUpdate(c: ConversationRow): int {
    -c.updatedAt
  }

  /** The filter `.in('id', ids)` on conversations. */
  function IdIn(ids: seq<nat>): ConversationRow -> bool {
    (c: ConversationRow) => c.id in ids
  }

  /**
   * The conversations whose id is listed, each as often as in the table, most recently
   * updated first.
   */
  function ByRecentUpdate(conversations: seq<ConversationRow>, ids: seq<nat>): (r: seq<ConversationRow>)
    ensures multiset(r) == multiset(Filter(conversations, IdIn(ids)))
    ensures forall c :: c in r <==> c in conversations && c.id in ids
    ensures forall i, j :: 0 <= i < j < |r| ==> r[i].updatedAt >= r[j].updatedAt
  {
    var mine := Filter(conversations, IdIn(ids));
    var ordered := SortByKey(mine, NegatedUpdate);
    SameMembers(ordered, mine);
    assert forall i, j :: 0 <= i < j < |ordered| ==> NegatedUpdate(ordered[i]) <= NegatedUpdate(ordered[j]);
    ordered
  }

  /** Sequences with the same multiset have the same members. */
  lemma SameMembers<T>(a: seq<T>, b: seq<T>)
    requires multiset(a) == multiset(b)
    ensures forall x :: x in a <==> x in b
  {
    forall x ensures x in a <==> x in b {
      assert x in a <==> x in multiset(a);
      assert x in b <==> x in multiset(b);
    }
  }

  /**
   * `useConversations`: nothing when signed out or without participations; otherwise the
   * user's conversations, most recently updated first, each with its participants and its
   * newest message.
   */
  function ConversationList(me: Option<string>, conversations: seq<ConversationRow>, ps: seq<ParticipantRow>,
                            ms: seq<MessageRow>, profiles: seq<ProfileRow>): (r: seq<ConversationView>)
    ensures me.None? ==> r == []
    ensures me.Some? && ConversationIdsOf(ps, me.value) == [] ==> r == []
    ensures me.Some? ==> forall k :: 0 <= k < |r| ==>
              r[k].conversation in conversations && Participates(ps, me.value, r[k].conversation.id)
    ensures me.Some? ==> forall c :: c in conversations && Participates(ps, me.value, c.id) ==>
              exists k :: 0 <= k < |r| && r[k].conversation == c
    ensures me.Some? ==> multiset(ConversationsOf(r)) == multiset(Filter(conversations, IdIn(ConversationIdsOf(ps, me.value))))
    ensures forall k :: 0 <= k < |r| ==> r[k] == ViewOf(r[k].conversation, ps, ms, profiles)
  {
    if me.None? then []
    else if ConversationIdsOf(ps, me.value) == [] then
      NoIdsNoConversations(conversations);
      []
    else
      ListedViews(me.value, conversations, ps, ms, profiles);
      Views(Listed(me.value, conversations, ps), ps, ms, profiles)
  }

  /** No listed id, no conversation kept by `.in('id', ids)`. */
  lemma {:induction false} NoIdsNoConversations(conversations: seq<ConversationRow>)
    ensures Filter(conversations, IdIn([])) == []
  {
    if conversations != [] {
      NoIdsNoConversations(conversations[1..]);
    }
  }

  /** The views of the listed conversations show each of `me`'s conversations once per table row. */
  lemma ListedViews(me: string, conversations: seq<ConversationRow>, ps: seq<ParticipantRow>,
                    ms: seq<MessageRow>, profiles: seq<ProfileRow>)
    ensures var r := Views(Listed(me, conversations, ps), ps, ms, profiles);
            && (forall k :: 0 <= k < |r| ==> r[k].conversation in conversations && Participates(ps, me, r[k].conversation.id))
            && (forall c :: c in conversations && Participates(ps, me, c.id) ==> exists k :: 0 <= k < |r| && r[k].conversation == c)
            && multiset(ConversationsOf(r)) == multiset(Filter(conversations, IdIn(ConversationIdsOf(ps, me))))
  {
    var listed := Listed(me, conversations, ps);
    var r := Views(listed, ps, ms, profiles);
    forall k | 0 <= k < |r|
      ensures r[k].conversation in conversations && Participates(ps, me, r[k].conversation.id)
    {
      assert listed[k] in listed;
    }
    forall c | c in conversations && Participates(ps, me, c.id)
      ensures exists k :: 0 <= k < |r| && r[k].conversation == c
    {
      var k :| 0 <= k < |listed| && listed[k] == c;
      assert r[k].conversation == c;
    }
    assert ConversationsOf(r) == listed;
  }

  /** The conversations `me` takes part in, most recently updated first. */
  function Listed(me: string, conversations: seq<ConversationRow>, ps: seq<ParticipantRow>): (r: seq<ConversationRow>)
    ensures multiset(r) == multiset(Filter(conversations, IdIn(ConversationIdsOf(ps, me))))
    ensures forall c :: c in r <==> c in conversations && Participates(ps, me, c.id)
    ensures forall i, j :: 0 <= i < j < |r| ==> r[i].updatedAt >= r[j].updatedAt
  {
    ByRecentUpdate(conversations, ConversationIdsOf(ps, me))
  }

  /** The conversation list is ordered most recently updated first. */
  lemma ConversationListNewestFirst(me: Option<string>, conversations: seq<ConversationRow>, ps: seq<ParticipantRow>,
                                    ms: seq<MessageRow>, profiles: seq<ProfileRow>)
    ensures var r := ConversationList(me, conversations, ps, ms, profiles);
            forall i, j :: 0 <= i < j < |r| ==> r[i].conversation.updatedAt >= r[j].conversation.updatedAt
  {
    if me.Some? && ConversationIdsOf(ps, me.value) != [] {
      var listed := Listed(me.value, conversations, ps);
      var r := ConversationList(me, conversations, ps, ms, profiles);
      assert r == Views(listed, ps, ms, profiles);
      assert forall k :: 0 <= k < |r| ==> r[k].conversation == listed[k];
    }
  }

  /** The view of each conversation, in order. */
  function Views(cs: seq<ConversationRow>, ps: seq<ParticipantRow>, ms: seq<MessageRow>, profiles: seq<ProfileRow>)
    : (r: seq<ConversationView>)
    ensures |r| == |cs|
    ensures forall k :: 0 <= k < |r| ==> r[k].conversation == cs[k] && r[k] == ViewOf(cs[k], ps, ms, profiles)
  {
    seq(|cs|, k requires 0 <= k < |cs| => ViewOf(cs[k], ps, ms, profiles))
  }

  /** The conversation of each view, in order. */
  function ConversationsOf(vs: seq<ConversationView>): (r: seq<ConversationRow>)
    ensures |r| == |vs| && forall k :: 0 <= k < |r| ==> r[k] == vs[k].conversation
  {
    seq(|vs|, k requires 0 <= k < |vs| => vs[k].conversation)
  }

  function CreatedAt(m: MessageRow): int {
    m.createdAt
  }

  /** The filter `.eq('conversation_id', conversationId)` on messages. */
  function InConversation(conversationId: nat): MessageRow -> bool {
    (m: MessageRow) => m.conversationId == conversationId
  }

  /** The messages of one conversation, oldest first. */
  function ByCreation(ms: seq<MessageRow>, conversationId: nat): (r: seq<MessageRow>)
    ensures |r| == |Filter(ms, InConversation(conversationId))|
    ensures forall m :: m in r <==> m in ms && m.conversationId == conversationId
    ensures forall i, j :: 0 <= i < j < |r| ==> r[i].createdAt <= r[j].createdAt
  {
    var own := Filter(ms, InConversation(conversationId));
    var ordered := SortByKey(own, CreatedAt);
    SameMembers(ordered, own);
    assert forall i, j :: 0 <= i < j < |ordered| ==> CreatedAt(ordered[i]) <= CreatedAt(ordered[j]);
    ordered
  }

  datatype MessageView = MessageView(message: MessageRow, sender: Option<ProfileRow>)

  /** Each message paired with its sender's profile, in the given order. */
  function WithSenders(ordered: seq<MessageRow>, profiles: seq<ProfileRow>): (r: seq<MessageView>)
    ensures |r| == |ordered|
    ensures forall k :: 0 <= k < |r| ==> r[k] == MessageView(ordered[k], FindProfile(profiles, ordered[k].senderId))
  {
    seq(|ordered|, k requires 0 <= k < |ordered| => MessageView(ordered[k], FindProfile(profiles, ordered[k].senderId)))
  }

  /** `useMessages`: the conversation's messages, oldest first, each with its sender's profile. */
  function MessagesOf(ms: seq<MessageRow>, conversationId: nat, profiles: seq<ProfileRow>): (r: seq<MessageView>)
    ensures |r| == |Filter(ms, InConversation(conversationId))|
    ensures forall k :: 0 <= k < |r| ==>
              r[k].message in ms && r[k].message.conversationId == conversationId
              && r[k].sender == FindProfile(profiles, r[k].message.senderId)
    ensures forall m :: m in ms && m.conversationId == conversationId ==> exists k :: 0 <= k < |r| && r[k].message == m
    ensures forall i, j :: 0 <= i < j < |r| ==> r[i].message.createdAt <= r[j].message.createdAt
  {
    var ordered := ByCreation(ms, conversationId);
    var r := WithSenders(ordered, profiles);
    forall m | m in ms && m.conversationId == conversationId
      ensures exists k :: 0 <= k < |r| && r[k].message == m
    {
      var k :| 0 <= k < |ordered| && ordered[k] == m;
      assert r[k].message == m;
    }
    forall k | 0 <= k < |r|
      ensures r[k].message in ms && r[k].message.conversationId == conversationId
    {
      assert ordered[k] in ordered;
    }
    r
  }
}
