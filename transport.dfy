/** The chat transport, reduced to what the handlers hand to it: every Bot
    API call the handlers make becomes one `Message` appended to an outbox.
    A call to a chat in `unreachable` fails (the bot was blocked, is not a
    member of the group, ...) and appends nothing. */
module Transport {

  /** A private chat is addressed by the user's id; servers store their
      publishing channel and moderation group as text. */
  datatype Chat = Private(userId: int) | Group(ref: string)

  /** An inline keyboard button and the callback payload it carries. */
  datatype Button = Button(caption: string, data: string)

  datatype Markup =
    | NoMarkup
    | Inline(rows: seq<seq<Button>>)
    | Reply(labels: seq<seq<string>>)

  /** The fixed texts the bot sends; their wording is not modelled. */
  datatype Notice =
    | Welcome | ChooseServer | AskText | AskPhotoChoice | AskPhoto | StartOver
    | SentForModeration | Cancelled | YourAdApproved | YourAdRejected
    | ApprovedAndPublished | RejectedNote | NoAccess | NoAccessToFunction
    | ChooseAction | BackInMainMenu | BackInAdminPanel | AskServerName
    | AskChannelId | AskModerationGroup | ServerAdded | AddServerFailed
    | NoServers | AskAdminId | BadAdminId | UnknownUser(id: int) | NowAdmin(id: int)

  datatype Body = Notice(notice: Notice) | Text(text: string) | Photo(fileId: string, caption: string)

  /** `send_message`/`send_photo`/`answer`, `edit_text`, and `delete`. */
  datatype Message =
    | Send(chat: Chat, body: Body, markup: Markup)
    | Edit(chat: Chat, body: Body, markup: Markup)
    | Delete(chat: Chat)

  class Outbox {
    var sent: seq<Message>
    const unreachable: set<Chat>

    constructor (unreachable: set<Chat>)
      ensures sent == [] && this.unreachable == unreachable
    {
      sent := [];
      this.unreachable := unreachable;
    }

    predicate Reaches(chat: Chat) {
      chat !in unreachable
    }

    /** One Bot API call: it succeeds exactly when the chat is reachable,
        and only a successful call is recorded. */
    method Deliver(m: Message) returns (ok: bool)
      modifies this
      ensures ok == Reaches(m.chat)
      ensures sent == if ok then old(sent) + [m] else old(sent)
    {
      ok := Reaches(m.chat);
      if ok {
        sent := sent + [m];
      }
    }

    /** The messages of `msgs` that go out when they are sent in order and
        the first failure aborts the rest: the longest prefix whose chats
        are all reachable. */
    function Reached(msgs: seq<Message>): (r: seq<Message>)
      ensures r <= msgs
      ensures forall i :: 0 <= i < |r| ==> Reaches(r[i].chat)
      ensures |r| < |msgs| ==> !Reaches(msgs[|r|].chat)
    {
      if msgs == [] || !Reaches(msgs[0].chat) then [] else [msgs[0]] + Reached(msgs[1..])
    }

    /** The first unreachable chat, or the end, is where the sending stops. */
    lemma {:induction false} ReachedStops(msgs: seq<Message>, j: nat)
      requires j <= |msgs|
      requires forall i :: 0 <= i < j ==> Reaches(msgs[i].chat)
      requires j < |msgs| ==> !Reaches(msgs[j].chat)
      ensures Reached(msgs) == msgs[..j]
    {
      if j > 0 {
        ReachedStops(msgs[1..], j - 1);
        assert msgs[..j] == [msgs[0]] + msgs[1..][..j - 1];
      }
    }

    /** A run of awaited Bot API calls: each is made only if every earlier
        one succeeded.  The source has no loop here; this stands for the
        consecutive `await`s after a decision (handlers.py lines 234-241 and
        255-262), the first failure raising out of the handler. */
    method DeliverAll(msgs: seq<Message>) returns (ok: bool)
      modifies this
      ensures ok <==> forall i :: 0 <= i < |msgs| ==> Reaches(msgs[i].chat)
      ensures sent == old(sent) + Reached(msgs)
    {
      var k := 0;
      ok := true;
      while k < |msgs| && ok
        invariant 0 <= k <= |msgs|
        invariant ok ==> sent == old(sent) + msgs[..k]
        invariant ok ==> forall i :: 0 <= i < k ==> Reaches(msgs[i].chat)
        invariant !ok ==> 0 < k && !Reaches(msgs[k - 1].chat) && sent == old(sent) + msgs[..k - 1]
        invariant !ok ==> forall i :: 0 <= i < k - 1 ==> Reaches(msgs[i].chat)
      {
        ok := Deliver(msgs[k]);
        if ok {
          assert msgs[..k + 1] == msgs[..k] + [msgs[k]];
        }
        k := k + 1;
      }
      if ok {
        ReachedStops(msgs, k);
        assert msgs[..k] == msgs;
      } else {
        ReachedStops(msgs, k - 1);
      }
    }
  }
}
