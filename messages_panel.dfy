/**
 * The messages panel: the elapsed-time label of a message, the other participant shown for a
 * conversation, which messages are the viewer's own, and the send handler with its guard and
 * its clearing of the input box.
 */
module MessagesPanel {
  import opened Wrappers
  import opened Text
  import opened Messaging
  import Analytics

  /** Which format `formatMessageTime` picks; the formatted text itself is locale output. */
  datatype TimeBucket = ClockTime | Yesterday | Weekday | DayMonth

  /** Whole days elapsed from `t` to `now`, rounded down (negative for a time in the future). */
  function ElapsedDays(t: int, now: int): int {
    (now - t) / Analytics.MsPerDay
  }

  /**
   * `formatMessageTime`: the clock time within the first day, 'Ontem' on the second, the
   * weekday below a week (a time in the future included) and the day and month otherwise.
   */
  function FormatMessageTime(t: int, now: int): (b: TimeBucket)
    ensures b == ClockTime <==> 0 <= now - t < Analytics.MsPerDay
    ensures b == Yesterday <==> Analytics.MsPerDay <= now - t < 2 * Analytics.MsPerDay
    ensures b == Weekday <==> now - t < 0 || 2 * Analytics.MsPerDay <= now - t < 7 * Analytics.MsPerDay
    ensures b == DayMonth <==> 7 * Analytics.MsPerDay <= now - t
  {
    var days := ElapsedDays(t, now);
    if days == 0 then ClockTime
    else if days == 1 then Yesterday
    else if days < 7 then Weekday
    else DayMonth
  }

  /** An older message never gets a more recent kind of label than a newer one, once both are in the past. */
  lemma BucketsFollowAge(older: int, newer: int, now: int)
    requires older <= newer <= now
    ensures Rank(FormatMessageTime(newer, now)) <= Rank(FormatMessageTime(older, now))
  {
  }

  /** The order of the buckets from the most recent to the oldest. */
  function Rank(b: TimeBucket): nat {
    match b
    case ClockTime => 0
    case Yesterday => 1
    case Weekday => 2
    case DayMonth => 3
  }

  /** `p.user_id !== user?.id`: with nobody signed in every participant differs. */
  predicate IsOther(p: ParticipantView, me: Option<string>) {
    me.None? || p.userId != me.value
  }

  /** The position of the first participant at or after `i` who is not the viewer. */
  function FirstOtherFrom(ps: seq<ParticipantView>, me: Option<string>, i: nat): (r: Option<nat>)
    requires i <= |ps|
    ensures r.Some? ==> i <= r.value < |ps| && IsOther(ps[r.value], me)
                        && forall j :: i <= j < r.value ==> !IsOther(ps[j], me)
    ensures r.None? ==> forall j :: i <= j < |ps| ==> !IsOther(ps[j], me)
    decreases |ps| - i
  {
    if i == |ps| then None
    else if IsOther(ps[i], me) then Some(i)
    else FirstOtherFrom(ps, me, i + 1)
  }

  /**
   * `getOtherParticipant`: the profile of the first participant who is not the viewer; none
   * when every participant is the viewer or that participant has no profile.
   */
  function OtherParticipant(ps: seq<ParticipantView>, me: Option<string>): (r: Option<ProfileRow>)
    ensures (forall j :: 0 <= j < |ps| ==> !IsOther(ps[j], me)) ==> r.None?
    ensures forall k :: 0 <= k < |ps| && IsOther(ps[k], me) && (forall j :: 0 <= j < k ==> !IsOther(ps[j], me)) ==>
              r == ps[k].profile
    ensures r.Some? ==> exists k :: 0 <= k < |ps| && IsOther(ps[k], me) && ps[k].profile == r
                                    && forall j :: 0 <= j < k ==> !IsOther(ps[j], me)
  {
    match FirstOtherFrom(ps, me, 0)
    case None => None
    case Some(k) => ps[k].profile
  }

  /** In a two-person conversation the other participant is the one who is not the viewer. */
  lemma OtherOfPair(a: ParticipantView, b: ParticipantView, me: string)
    requires a.userId == me && b.userId != me
    ensures OtherParticipant([a, b], Some(me)) == b.profile
    ensures OtherParticipant([b, a], Some(me)) == b.profile
  {
    assert FirstOtherFrom([a, b], Some(me), 1) == Some(1);
  }

  /** `other?.full_name || 'Usuário'`. */
  function DisplayName(other: Option<ProfileRow>): (r: string)
    ensures r == "Usuário" <==> other.None? || other.value.fullName == "" || other.value.fullName == "Usuário"
    ensures r != "Usuário" ==> r == other.value.fullName
  {
    if other.Some? && other.value.fullName != "" then other.value.fullName else "Usuário"
  }

  /** `other?.full_name?.charAt(0) || 'U'`: the avatar's fallback letter. */
  function Initial(other: Option<ProfileRow>): (r: string)
    ensures |r| == 1
    ensures other.Some? && other.value.fullName != "" ==> r[0] == other.value.fullName[0]
    ensures other.None? || other.value.fullName == "" ==> r == "U"
  {
    if other.Some? && other.value.fullName != "" then other.value.fullName[..1] else "U"
  }

  /** A message is drawn as the viewer's own exactly when the viewer sent it. */
  predicate IsOwn(m: MessageRow, me: Option<string>) {
    me.Some? && m.senderId == me.value
  }

  /** The guard of `handleSendMessage`: some non-blank text and a selected conversation. */
  function ShouldSend(input: string, selected: Option<nat>): (r: bool)
    ensures r <==> selected.Some? && exists k :: 0 <= k < |input| && !IsSpace(input[k])
  {
    selected.Some? && Trim(input) != ""
  }

  /** The panel's own state: the selected conversation and the text in the input box. */
  class PanelState {
    var selectedConversation: Option<nat>
    var messageInput: string

    constructor ()
      ensures selectedConversation.None? && messageInput == ""
    {
      selectedConversation := None;
      messageInput := "";
    }

    method Select(id: nat)
      modifies this
      ensures selectedConversation == Some(id) && messageInput == old(messageInput)
    {
      selectedConversation := Some(id);
    }

    /** The back button: the list is shown again. */
    method Back()
      modifies this
      ensures selectedConversation.None? && messageInput == old(messageInput)
    {
      selectedConversation := None;
    }

    method Type(text: string)
      modifies this
      ensures messageInput == text && selectedConversation == old(selectedConversation)
    {
      messageInput := text;
    }

    /**
     * `handleSendMessage`: without text or a selected conversation nothing happens. Otherwise
     * the input, untrimmed, is sent to the selected conversation; the box is cleared only
     * when the send succeeds, and a failure leaves it as it was.
     */
    method HandleSendMessage(me: Option<string>, tables: MessageTables, now: int, insertOk: bool, touchOk: bool)
      returns (sent: Option<Result<MessageRow>>)
      requires tables.Valid()
      modifies this, tables
      ensures tables.Valid()
      ensures selectedConversation == old(selectedConversation)
      ensures !ShouldSend(old(messageInput), old(selectedConversation)) ==>
                sent.None? && messageInput == old(messageInput)
                && tables.messages == old(tables.messages) && tables.conversations == old(tables.conversations)
      ensures ShouldSend(old(messageInput), old(selectedConversation)) ==>
                sent.Some?
                && (sent.value.Ok? <==> me.Some? && insertOk && old(selectedConversation).value < |old(tables.conversations)|)
      ensures sent.Some? && sent.value.Ok? ==>
                messageInput == ""
                && sent.value.value
                   == MessageRow(|old(tables.messages)|, old(selectedConversation).value, me.value, old(messageInput), now)
                && IsOwn(sent.value.value, me)
                && tables.messages == old(tables.messages) + [sent.value.value]
      ensures sent.Some? && sent.value.Ok? ==>
                tables.conversations
                == (if touchOk then Touched(old(tables.conversations), old(selectedConversation).value, now)
                    else old(tables.conversations))
      ensures sent.Some? && sent.value.Err? ==>
                messageInput == old(messageInput) && tables.messages == old(tables.messages)
                && tables.conversations == old(tables.conversations)
      ensures tables.participants == old(tables.participants)
    {
      if !ShouldSend(messageInput, selectedConversation) {
        return None;
      }
      var r := tables.SendMessage(me, selectedConversation.value, messageInput, now, insertOk, touchOk);
      if r.Ok? {
        messageInput := "";
      }
      sent := Some(r);
    }
  }
}
