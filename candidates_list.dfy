/**
 * The candidates of one job: the checkbox selection with its toggle and select-all, the bulk
 * message that opens (or finds) a conversation with each selected candidate, and the bulk
 * email addressed to the selected candidates' addresses.
 */
module CandidatesList {
  import opened Wrappers
  import opened Text
  import opened Lists
  import opened Schema
  import opened Messaging

  /** An application with the email of the applicant's profile, if the profile was found. */
  datatype Applicant = Applicant(id: string, userId: string, status: ApplicationStatus, email: Option<string>)

  /** `applications?.map(a => a.user_id) || []`. */
  function UserIds(apps: Option<seq<Applicant>>): (r: seq<string>)
    ensures apps.None? ==> r == []
    ensures apps.Some? ==> |r| == |apps.value| && forall k :: 0 <= k < |r| ==> r[k] == apps.value[k].userId
  {
    if apps.None? then [] else seq(|apps.value|, k requires 0 <= k < |apps.value| => apps.value[k].userId)
  }

  /**
   * `handleSelectAll`: a selection as long as the list is cleared; any other selection is
   * replaced by every applicant, in list order. Only the lengths are compared.
   */
  function SelectAll(selected: seq<string>, apps: Option<seq<Applicant>>): (r: seq<string>)
    ensures apps.Some? && |selected| == |apps.value| ==> r == []
    ensures !(apps.Some? && |selected| == |apps.value|) ==> r == UserIds(apps)
  {
    if apps.Some? && |selected| == |apps.value| then [] else UserIds(apps)
  }

  /** The select-all checkbox: ticked when the selection is as long as a non-empty list. */
  predicate AllChecked(selected: seq<string>, apps: Option<seq<Applicant>>) {
    apps.Some? && |selected| == |apps.value| && |apps.value| > 0
  }

  /** Clicking select-all ticks the box exactly when it was not ticked and the list is not empty. */
  lemma SelectAllFlipsCheckbox(selected: seq<string>, apps: Option<seq<Applicant>>)
    ensures AllChecked(SelectAll(selected, apps), apps) <==>
              apps.Some? && |apps.value| > 0 && |selected| != |apps.value|
  {
  }

  /** The applications whose user is selected and whose profile has a non-empty email. */
  function SelectedWithEmail(selected: seq<string>): Applicant -> bool {
    (a: Applicant) => a.userId in selected && a.email.Some? && a.email.value != ""
  }

  /**
   * The recipients of the bulk email: the profile emails of the applications whose user is
   * selected, in list order, one per such application, leaving out missing and empty ones.
   */
  function EmailRecipients(apps: seq<Applicant>, selected: seq<string>): (r: seq<string>)
    ensures |r| == |Filter(apps, SelectedWithEmail(selected))| <= |apps|
    ensures forall k :: 0 <= k < |r| ==> Filter(apps, SelectedWithEmail(selected))[k].email == Some(r[k])
    ensures forall e :: e in r ==> e != ""
    ensures forall e :: e in r <==> exists a :: a in apps && a.userId in selected && a.email == Some(e) && e != ""
  {
    if apps == [] then []
    else
      var rest := EmailRecipients(apps[1..], selected);
      assert forall a :: a in apps[1..] ==> a in apps;
      assert forall a :: a in apps ==> a == apps[0] || a in apps[1..];
      var a := apps[0];
      if a.userId in selected && a.email.Some? && a.email.value != "" then [a.email.value] + rest else rest
  }

  /** Nobody selected, nobody addressed. */
  lemma {:induction false} NoSelectionNoRecipients(apps: seq<Applicant>)
    ensures EmailRecipients(apps, []) == []
  {
    if apps != [] {
      NoSelectionNoRecipients(apps[1..]);
    }
  }

  const SubjectPrefix: string := "Atualização sobre a vaga: "

  /** `emailSubject || 'Atualização sobre a vaga: ' + jobTitle`. */
  function EmailSubject(subject: string, jobTitle: string): (r: string)
    ensures subject != "" ==> r == subject
    ensures subject == "" ==> |r| == |SubjectPrefix| + |jobTitle| && r[|SubjectPrefix|..] == jobTitle
                              && r[..|SubjectPrefix|] == SubjectPrefix
  {
    if subject == "" then SubjectPrefix + jobTitle else subject
  }

  /** The text of each bulk message: the job title in brackets, a blank line, the message. */
  function MessageContent(jobTitle: string, message: string): (r: string)
    ensures |r| == |jobTitle| + |message| + 4
    ensures r[0] == '[' && r[1 + |jobTitle|] == ']'
    ensures r[1..1 + |jobTitle|] == jobTitle && r[|jobTitle| + 4..] == message
    ensures r[|jobTitle| + 2..|jobTitle| + 4] == "\n\n"
  {
    "[" + jobTitle + "]\n\n" + message
  }

  /** The body handed to the email function. */
  datatype EmailRequest = EmailRequest(to: Option<seq<string>>, subject: string, message: string, jobTitle: string)

  datatype Outcome = NotStarted | Sent(count: nat) | Failed(text: string)

  /**
   * Message `m` went from `user` to a conversation `user` shares with `candidate`, with the
   * given text.
   */
  ghost predicate Delivered(m: MessageRow, user: string, candidate: string, content: string, ps: seq<ParticipantRow>) {
    && m.senderId == user && m.content == content
    && Participates(ps, user, m.conversationId)
    && Participates(ps, candidate, m.conversationId)
  }

  /** A delivered message stays delivered when participant rows are appended. */
  lemma DeliveredStill(m: MessageRow, user: string, candidate: string, content: string,
                       ps: seq<ParticipantRow>, added: seq<ParticipantRow>)
    requires Delivered(m, user, candidate, content, ps)
    ensures Delivered(m, user, candidate, content, ps + added)
  {
    KeepsParticipation(ps, added, user, m.conversationId);
    KeepsParticipation(ps, added, candidate, m.conversationId);
  }

  /** A conversation somebody participates in exists. */
  lemma ParticipatedExists(t: MessageTables, user: string, c: nat)
    requires t.Valid() && Participates(t.participants, user, c)
    ensures c < |t.conversations|
  {
    var i :| 0 <= i < |t.participants| && t.participants[i].userId == user && t.participants[i].conversationId == c;
    assert t.participants[i] in t.participants;
  }

  /** The component's state for one job's candidates. */
  class CandidateSelection {
    var applications: Option<seq<Applicant>>
    var selectedCandidates: seq<string>
    var messageDialogOpen: bool
    var emailDialogOpen: bool
    var messageContent: string
    var emailSubject: string
    var emailContent: string
    var sendingMessages: bool
    var sendingEmails: bool

    constructor (applications: Option<seq<Applicant>>)
      ensures this.applications == applications && selectedCandidates == []
      ensures !messageDialogOpen && !emailDialogOpen && !sendingMessages && !sendingEmails
      ensures messageContent == "" && emailSubject == "" && emailContent == ""
    {
      this.applications := applications;
      selectedCandidates := [];
      messageDialogOpen, emailDialogOpen := false, false;
      messageContent, emailSubject, emailContent := "", "", "";
      sendingMessages, sendingEmails := false, false;
    }

    /** `handleSelectCandidate`: drops a selected candidate, appends an unselected one. */
    method SelectCandidate(userId: string)
      modifies this
      ensures selectedCandidates == Toggled(old(selectedCandidates), userId)
      ensures userId in selectedCandidates <==> userId !in old(selectedCandidates)
      ensures applications == old(applications) && messageContent == old(messageContent)
    {
      selectedCandidates := Toggled(selectedCandidates, userId);
    }

    /** `handleSelectAll`. */
    method SelectAllCandidates()
      modifies this
      ensures selectedCandidates == SelectAll(old(selectedCandidates), applications)
      ensures applications == old(applications) && messageContent == old(messageContent)
    {
      selectedCandidates := SelectAll(selectedCandidates, applications);
    }

    method OpenMessageDialog(text: string)
      modifies this
      ensures messageDialogOpen && messageContent == text
      ensures selectedCandidates == old(selectedCandidates) && applications == old(applications)
    {
      messageDialogOpen := true;
      messageContent := text;
    }

    method OpenEmailDialog(subject: string, text: string)
      modifies this
      ensures emailDialogOpen && emailSubject == subject && emailContent == text
      ensures selectedCandidates == old(selectedCandidates) && applications == old(applications)
    {
      emailDialogOpen := true;
      emailSubject, emailContent := subject, text;
    }

    /**
     * `handleSendMessages`: nothing without text or a selection. Otherwise, for each selected
     * candidate in turn, a conversation with the candidate is found or created and the message,
     * prefixed with the job title, is sent into it. Signed out, the first step throws, nothing
     * is written and the dialog keeps its text and selection; otherwise every candidate gets
     * one message from the recruiter, the dialog closes and text and selection are cleared.
     */
    method SendMessages(me: Option<string>, jobTitle: string, tables: MessageTables, now: int)
      returns (outcome: Outcome)
      requires tables.Valid()
      modifies this, tables
      ensures tables.Valid() && applications == old(applications)
      ensures IsBlank(old(messageContent)) || old(selectedCandidates) == [] ==>
                outcome == NotStarted && sendingMessages == old(sendingMessages)
                && selectedCandidates == old(selectedCandidates)
                && messageContent == old(messageContent) && messageDialogOpen == old(messageDialogOpen)
                && tables.messages == old(tables.messages) && tables.participants == old(tables.participants)
      ensures !IsBlank(old(messageContent)) && old(selectedCandidates) != [] && me.None? ==>
                outcome == Failed("Erro ao enviar mensagens") && !sendingMessages
                && selectedCandidates == old(selectedCandidates)
                && messageContent == old(messageContent) && messageDialogOpen == old(messageDialogOpen)
                && tables.messages == old(tables.messages) && tables.participants == old(tables.participants)
      ensures !IsBlank(old(messageContent)) && old(selectedCandidates) != [] && me.Some? ==>
                outcome == Sent(|old(selectedCandidates)|) && !sendingMessages
                && selectedCandidates == [] && messageContent == "" && !messageDialogOpen
                && |tables.messages| == |old(tables.messages)| + |old(selectedCandidates)|
                && tables.messages[..|old(tables.messages)|] == old(tables.messages)
                && forall k :: 0 <= k < |old(selectedCandidates)| ==>
                     Delivered(tables.messages[|old(tables.messages)| + k], me.value, old(selectedCandidates)[k],
                               MessageContent(jobTitle, old(messageContent)), tables.participants)
    {
      if IsBlank(messageContent) || selectedCandidates == [] {
        return NotStarted;
      }
      outcome := SendToSelected(me, jobTitle, tables, now);
    }

    /** The body of `handleSendMessages` once its guard has passed. */
    method SendToSelected(me: Option<string>, jobTitle: string, tables: MessageTables, now: int)
      returns (outcome: Outcome)
      requires tables.Valid() && selectedCandidates != []
      modifies this, tables
      ensures tables.Valid() && applications == old(applications) && !sendingMessages
      ensures me.None? ==>
                outcome == Failed("Erro ao enviar mensagens")
                && selectedCandidates == old(selectedCandidates)
                && messageContent == old(messageContent) && messageDialogOpen == old(messageDialogOpen)
                && tables.messages == old(tables.messages) && tables.participants == old(tables.participants)
      ensures me.Some? ==>
                outcome == Sent(|old(selectedCandidates)|)
                && selectedCandidates == [] && messageContent == "" && !messageDialogOpen
                && |tables.messages| == |old(tables.messages)| + |old(selectedCandidates)|
                && tables.messages[..|old(tables.messages)|] == old(tables.messages)
                && forall k :: 0 <= k < |old(selectedCandidates)| ==>
                     Delivered(tables.messages[|old(tables.messages)| + k], me.value, old(selectedCandidates)[k],
                               MessageContent(jobTitle, old(messageContent)), tables.participants)
    {
      sendingMessages := true;
      if me.None? {
        var r := tables.StartConversation(me, selectedCandidates[0], now, true, true, true);
        sendingMessages := false;
        return Failed("Erro ao enviar mensagens");
      }
      SendToAll(me.value, selectedCandidates, MessageContent(jobTitle, messageContent), tables, now);
      outcome := Sent(|selectedCandidates|);
      sendingMessages := false;
      messageDialogOpen := false;
      messageContent := "";
      selectedCandidates := [];
    }

    /**
     * `handleSendEmails`: nothing without text or a selection. Otherwise the email function is
     * asked to write to the selected candidates' addresses, with the subject falling back to
     * one naming the job; on success the dialog closes and subject, text and selection are
     * cleared, and on failure everything is kept. With the list not loaded there is no
     * recipient list, and the handler ends in its failure branch.
     */
    method SendEmails(jobTitle: string, invokeOk: bool) returns (request: Option<EmailRequest>, outcome: Outcome)
      modifies this
      ensures applications == old(applications)
      ensures outcome != NotStarted ==> !sendingEmails
      ensures IsBlank(old(emailContent)) || old(selectedCandidates) == [] ==>
                request.None? && outcome == NotStarted && sendingEmails == old(sendingEmails) && selectedCandidates == old(selectedCandidates)
                && emailSubject == old(emailSubject) && emailContent == old(emailContent)
      ensures !IsBlank(old(emailContent)) && old(selectedCandidates) != [] ==>
                request.Some?
                && request.value.subject == EmailSubject(old(emailSubject), jobTitle)
                && request.value.message == old(emailContent)
                && (applications.Some? ==> request.value.to == Some(EmailRecipients(applications.value, old(selectedCandidates))))
                && (applications.None? ==> request.value.to.None?)
      ensures request.Some? && invokeOk && applications.Some? ==>
                outcome == Sent(|request.value.to.value|) && selectedCandidates == [] && !emailDialogOpen
                && emailSubject == "" && emailContent == ""
      ensures request.Some? && !(invokeOk && applications.Some?) ==>
                outcome == Failed("Erro ao enviar emails") && selectedCandidates == old(selectedCandidates)
                && emailSubject == old(emailSubject) && emailContent == old(emailContent)
    {
      if IsBlank(emailContent) || selectedCandidates == [] {
        return None, NotStarted;
      }
      request, outcome := EmailSelected(jobTitle, invokeOk);
    }

    /** The body of `handleSendEmails` once its guard has passed. */
    method EmailSelected(jobTitle: string, invokeOk: bool) returns (request: Option<EmailRequest>, outcome: Outcome)
      modifies this
      ensures applications == old(applications) && !sendingEmails && outcome != NotStarted
      ensures request.Some?
              && request.value.subject == EmailSubject(old(emailSubject), jobTitle)
              && request.value.message == old(emailContent)
              && (applications.Some? ==> request.value.to == Some(EmailRecipients(applications.value, old(selectedCandidates))))
              && (applications.None? ==> request.value.to.None?)
      ensures invokeOk && applications.Some? ==>
                outcome == Sent(|request.value.to.value|) && selectedCandidates == [] && !emailDialogOpen
                && emailSubject == "" && emailContent == ""
      ensures !(invokeOk && applications.Some?) ==>
                outcome == Failed("Erro ao enviar emails") && selectedCandidates == old(selectedCandidates)
                && emailSubject == old(emailSubject) && emailContent == old(emailContent)
    {
      sendingEmails := true;
      var to := if applications.Some? then Some(EmailRecipients(applications.value, selectedCandidates)) else None;
      request := Some(EmailRequest(to, EmailSubject(emailSubject, jobTitle), emailContent, jobTitle));
      if invokeOk && to.Some? {
        outcome := Sent(|to.value|);
        emailDialogOpen := false;
        emailSubject, emailContent := "", "";
        selectedCandidates := [];
      } else {
        outcome := Failed("Erro ao enviar emails");
      }
      sendingEmails := false;
    }
  }

  /**
   * The loop of `handleSendMessages` for a signed-in sender: each selected candidate, in
   * order, gets one new message, sent into a conversation the two of them share.
   */
  method SendToAll(user: string, selected: seq<string>, content: string, tables: MessageTables, now: int)
    requires tables.Valid()
    modifies tables
    ensures tables.Valid()
    ensures |tables.messages| == |old(tables.messages)| + |selected|
    ensures tables.messages[..|old(tables.messages)|] == old(tables.messages)
    ensures forall k :: 0 <= k < |selected| ==>
              Delivered(tables.messages[|old(tables.messages)| + k], user, selected[k], content, tables.participants)
  {
    var before := tables.messages;
    for i := 0 to |selected|
      invariant tables.Valid()
      invariant |tables.messages| == |before| + i
      invariant tables.messages[..|before|] == before
      invariant forall k :: 0 <= k < i ==>
                  Delivered(tables.messages[|before| + k], user, selected[k], content, tables.participants)
    {
      SendOne(user, selected, i, content, tables, now, before);
    }
  }

  /**
   * One round of the bulk-send loop: find or create the conversation with `selected[i]`, then
   * send the message into it. The messages sent in earlier rounds, and the participations
   * they rely on, stay in place.
   */
  method SendOne(user: string, selected: seq<string>, i: nat, content: string, tables: MessageTables, now: int,
                 before: seq<MessageRow>)
    requires i < |selected|
    requires tables.Valid()
    requires |tables.messages| == |before| + i && tables.messages[..|before|] == before
    requires forall k :: 0 <= k < i ==>
               Delivered(tables.messages[|before| + k], user, selected[k], content, tables.participants)
    modifies tables
    ensures tables.Valid()
    ensures |tables.messages| == |before| + i + 1 && tables.messages[..|before|] == before
    ensures forall k :: 0 <= k < i + 1 ==>
              Delivered(tables.messages[|before| + k], user, selected[k], content, tables.participants)
  {
    var other := selected[i];
    var found := FindShared(tables.participants, user, other);
    var ps0 := tables.participants;
    var ms0 := tables.messages;
    var c := tables.StartConversation(Some(user), other, now, true, true, true);
    var id := c.value;
    if found.Some? {
      assert tables.participants == ps0;
      ParticipatedExists(tables, user, id);
    } else {
      var added := [ParticipantRow(id, user, None), ParticipantRow(id, other, None)];
      assert tables.participants == ps0 + added;
      assert tables.participants[|ps0|].userId == user && tables.participants[|ps0|].conversationId == id;
      assert tables.participants[|ps0| + 1].userId == other && tables.participants[|ps0| + 1].conversationId == id;
      forall k | 0 <= k < i
        ensures Delivered(ms0[|before| + k], user, selected[k], content, tables.participants)
      {
        DeliveredStill(ms0[|before| + k], user, selected[k], content, ps0, added);
      }
    }
    assert tables.messages == ms0;
    var sent := tables.SendMessage(Some(user), id, content, now, true, true);
    assert tables.messages == ms0 + [sent.value];
    assert forall k :: 0 <= k < |ms0| ==> tables.messages[k] == ms0[k];
  }
}
