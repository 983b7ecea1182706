/** The handlers of handlers.py: composing an advertisement (server choice,
    text, optional photo, submission for moderation), cancelling it, paging
    through the catalog, and the moderators' approve/reject decisions.
    Each handler is called with the user's FSM context, the store and the
    outbox; a router state filter becomes a `requires` on the context. */
module Handlers {
  import opened Wrappers
  import opened Strings
  import opened Store
  import opened Transport
  import opened Fsm
  import opened Payload
  import opened Pager

  /** How a handler ends: normally, or with an exception that aiogram logs. */
  datatype Outcome = Done | Raised(error: Exception)

  /** The sender of an update: `from_user.id`, `.username`, `.full_name`. */
  datatype Sender = Sender(id: int, username: Option<string>, fullName: string)

  const CreateAdCaption := "📝 Создать объявление"
  const AdminPanelCaption := "🛠 Админ-панель"
  const CancelButton := Button("❌ Отменить", "cancel")
  const PhotoChoice := [[Button("📸 Добавить фото", "add_photo")],
                        [Button("🚀 Отправить без фото", "no_photo")],
                        [CancelButton]]

  /** `Database.is_admin(uid) or uid in config.ADMIN_IDS`. */
  predicate HasAdminAccess(db: Database, userId: int, adminIds: seq<int>)
    reads db
    ensures HasAdminAccess(db, userId, adminIds) <==>
      (userId in db.users && db.users[userId].role == AdminRole) || userId in adminIds
  {
    db.IsAdmin(userId) || userId in adminIds
  }

  /** `get_main_menu`: the admin-panel button is offered exactly to those
      who pass the admin gate. */
  function MainMenu(db: Database, userId: int, adminIds: seq<int>): (labels: seq<seq<string>>)
    reads db
    ensures 1 <= |labels| <= 2 && labels[0] == [CreateAdCaption]
    ensures |labels| == 2 <==> HasAdminAccess(db, userId, adminIds)
    ensures |labels| == 2 ==> labels[1] == [AdminPanelCaption]
  {
    [[CreateAdCaption]] + if HasAdminAccess(db, userId, adminIds) then [[AdminPanelCaption]] else []
  }

  /** The review request posted to a server's moderation group. */
  function ReviewRequest(group: string, adId: int, text: string, photo: Option<string>): (m: Message)
    ensures m.Send? && m.chat == Group(group)
    ensures m.body.Photo? <==> photo.Some?
    ensures m.body.Text? <==> photo.None?
    ensures photo.Some? ==> m.body.fileId == photo.value
    ensures var caption := if m.body.Photo? then m.body.caption else m.body.text;
      |text| <= |caption| && caption[|caption| - |text|..] == text
  {
    var caption := "Новое объявление #" + IntToString(adId) + "\n\n" + text;
    Send(Group(group),
         if photo.Some? then Photo(photo.value, caption) else Body.Text(caption),
         Inline([[Button("✅ Одобрить", Format(ApproveTag, adId)), Button("❌ Отклонить", Format(RejectTag, adId))]]))
  }

  /** The two buttons of a review request reach the approve and the reject
      handler, and both read back the id of the advertisement under review. */
  lemma ReviewButtonsReadBack(group: string, adId: int, text: string, photo: Option<string>)
    ensures var m := ReviewRequest(group, adId, text, photo);
      && m.markup.Inline? && |m.markup.rows| == 1 && |m.markup.rows[0]| == 2
      && Route(m.markup.rows[0][0].data) == ApproveAd && ParseArg(m.markup.rows[0][0].data) == Ok(adId)
      && Route(m.markup.rows[0][1].data) == RejectAd && ParseArg(m.markup.rows[0][1].data) == Ok(adId)
  {
    RouteFormat(adId);
    FormatRoundTrip(ApproveTag, adId);
    FormatRoundTrip(RejectTag, adId);
  }

  /** What approval publishes: the photo with the text as caption when the ad
      has a (non-empty) photo id, the text alone otherwise. */
  function Publication(ad: Advertisement): (b: Body)
    ensures b.Photo? <==> ad.photoId.Some? && ad.photoId.value != ""
    ensures b.Photo? ==> b.fileId == ad.photoId.value && b.caption == ad.text
    ensures b.Text? <==> !b.Photo?
    ensures b.Text? ==> b.text == ad.text
  {
    if ad.photoId.Some? && ad.photoId.value != "" then Photo(ad.photoId.value, ad.text) else Body.Text(ad.text)
  }

  /** `start`: registers the user, clears any session, greets with the menu. */
  method Start(ctx: Context, db: Database, out: Outbox, sender: Sender, adminIds: seq<int>)
    returns (outcome: Outcome)
    requires db.Valid()
    modifies ctx, db, out
    ensures db.Valid() && ctx.Valid()
    ensures db.users == Registered(old(db.users), sender.id, User(sender.username, Some(sender.fullName), UserRole))
    ensures db.servers == old(db.servers) && db.serverSeq == old(db.serverSeq)
    ensures db.advertisements == old(db.advertisements) && db.advertisementSeq == old(db.advertisementSeq)
    ensures ctx.state == None && ctx.data == map[]
    ensures var m := Send(Private(sender.id), Notice(Welcome), Reply(MainMenu(db, sender.id, adminIds)));
      out.sent == old(out.sent) + (if out.Reaches(m.chat) then [m] else [])
    ensures outcome == if out.Reaches(Private(sender.id)) then Done else Raised(DeliveryError)
  {
    db.AddUserIfNotExists(sender.id, sender.username, Some(sender.fullName));
    ctx.Clear();
    var ok := out.Deliver(Send(Private(sender.id), Notice(Welcome), Reply(MainMenu(db, sender.id, adminIds))));
    outcome := if ok then Done else Raised(DeliveryError);
  }

  /** `create_advertisement_entry`: shows catalog page 0, then enters
      WAITING_FOR_SERVER; the data collected so far is kept. */
  method CreateAdvertisementEntry(ctx: Context, db: Database, out: Outbox, userId: int)
    returns (outcome: Outcome)
    modifies ctx, out
    ensures ctx.data == old(ctx.data)
    ensures var m := Send(Private(userId), Notice(ChooseServer), Inline(GetServersKeyboard(db.GetServers(), 0)));
      && out.sent == old(out.sent) + (if out.Reaches(m.chat) then [m] else [])
      && ctx.state == (if out.Reaches(m.chat) then Some(WaitingForServer) else old(ctx.state))
      && outcome == (if out.Reaches(m.chat) then Done else Raised(DeliveryError))
  {
    var ok := out.Deliver(Send(Private(userId), Notice(ChooseServer), Inline(GetServersKeyboard(db.GetServers(), 0))));
    if !ok {
      return Raised(DeliveryError);
    }
    ctx.SetState(WaitingForServer);
    outcome := Done;
  }

  /** `handle_page_navigation`: re-renders the requested page; the session
      is not touched. */
  method HandlePageNavigation(db: Database, out: Outbox, userId: int, data: string)
    returns (outcome: Outcome)
    modifies out
    ensures ParseArg(data).Err? ==> outcome == Raised(ParseArg(data).error) && out.sent == old(out.sent)
    ensures ParseArg(data).Ok? ==>
      var m := Edit(Private(userId), Notice(ChooseServer), Inline(GetServersKeyboard(db.GetServers(), ParseArg(data).value)));
      && out.sent == old(out.sent) + (if out.Reaches(m.chat) then [m] else [])
      && outcome == (if out.Reaches(m.chat) then Done else Raised(DeliveryError))
  {
    var page := ParseArg(data);
    if page.Err? {
      return Raised(page.error);
    }
    var ok := out.Deliver(Edit(Private(userId), Notice(ChooseServer), Inline(GetServersKeyboard(db.GetServers(), page.value))));
    outcome := if ok then Done else Raised(DeliveryError);
  }

  /** `process_server_selection`: stores `server_id` and enters
      WAITING_FOR_TEXT.  The id is not checked against the catalog. */
  method ProcessServerSelection(ctx: Context, out: Outbox, userId: int, data: string)
    returns (outcome: Outcome)
    requires ctx.Valid()
    modifies ctx, out
    ensures ctx.Valid()
    ensures ParseArg(data).Err? ==>
      && outcome == Raised(ParseArg(data).error)
      && ctx.state == old(ctx.state) && ctx.data == old(ctx.data) && out.sent == old(out.sent)
    ensures ParseArg(data).Ok? ==>
      var m := Send(Private(userId), Notice(AskText), Inline([[CancelButton]]));
      && ctx.data == old(ctx.data)[ServerIdKey := Int(ParseArg(data).value)]
      && out.sent == old(out.sent) + (if out.Reaches(m.chat) then [m] else [])
      && ctx.state == (if out.Reaches(m.chat) then Some(WaitingForText) else old(ctx.state))
      && outcome == (if out.Reaches(m.chat) then Done else Raised(DeliveryError))
  {
    var serverId := ParseArg(data);
    if serverId.Err? {
      return Raised(serverId.error);
    }
    ctx.UpdateData(ServerIdKey, Int(serverId.value));
    var ok := out.Deliver(Send(Private(userId), Notice(AskText), Inline([[CancelButton]])));
    if !ok {
      return Raised(DeliveryError);
    }
    ctx.SetState(WaitingForText);
    outcome := Done;
  }

  /** `process_text`: stores `message.text` (None for a message without
      text; an empty text is not rejected) and enters CONFIRM_PHOTO_OPTION. */
  method ProcessText(ctx: Context, out: Outbox, userId: int, text: Option<string>)
    returns (outcome: Outcome)
    requires ctx.Valid() && ctx.state == Some(WaitingForText)
    modifies ctx, out
    ensures ctx.Valid()
    ensures ctx.data == old(ctx.data)[TextKey := Value.Text(text)]
    ensures var m := Send(Private(userId), Notice(AskPhotoChoice), Inline(PhotoChoice));
      && out.sent == old(out.sent) + (if out.Reaches(m.chat) then [m] else [])
      && ctx.state == (if out.Reaches(m.chat) then Some(ConfirmPhotoOption) else old(ctx.state))
      && outcome == (if out.Reaches(m.chat) then Done else Raised(DeliveryError))
  {
    ctx.UpdateData(TextKey, Value.Text(text));
    var ok := out.Deliver(Send(Private(userId), Notice(AskPhotoChoice), Inline(PhotoChoice)));
    if !ok {
      return Raised(DeliveryError);
    }
    ctx.SetState(ConfirmPhotoOption);
    outcome := Done;
  }

  /** `handle_add_photo`: asks for the photo and enters WAITING_FOR_PHOTO. */
  method HandleAddPhoto(ctx: Context, out: Outbox, userId: int)
    returns (outcome: Outcome)
    modifies ctx, out
    ensures ctx.data == old(ctx.data)
    ensures var m := Edit(Private(userId), Notice(AskPhoto), NoMarkup);
      && out.sent == old(out.sent) + (if out.Reaches(m.chat) then [m] else [])
      && ctx.state == (if out.Reaches(m.chat) then Some(WaitingForPhoto) else old(ctx.state))
      && outcome == (if out.Reaches(m.chat) then Done else Raised(DeliveryError))
  {
    var ok := out.Deliver(Edit(Private(userId), Notice(AskPhoto), NoMarkup));
    if !ok {
      return Raised(DeliveryError);
    }
    ctx.SetState(WaitingForPhoto);
    outcome := Done;
  }

  /** Both draft keys are present. */
  ghost predicate HasDraft(data: map<string, Value>) {
    TextKey in data && ServerIdKey in data
  }

  /** The effect of submitting the draft in `old(ctx.data)`, shared by
      `process_photo` and `handle_no_photo`: without both keys nothing is
      stored, "start over" is sent, and the session is cleared once that
      message went out; with both keys the draft is filed and the session
      is cleared whatever happens. */
  twostate predicate Submitted(ctx: Context, db: Database, out: Outbox, userId: int,
                               photo: Option<string>, adminIds: seq<int>, outcome: Outcome)
    reads ctx, db, out
  {
    && ctx.Valid() && db.Valid()
    && (!HasDraft(old(ctx.data)) ==>
          var m := Send(Private(userId), Notice(StartOver), NoMarkup);
          && unchanged(db)
          && out.sent == old(out.sent) + (if out.Reaches(m.chat) then [m] else [])
          && (if out.Reaches(m.chat)
              then outcome == Done && ctx.state == None && ctx.data == map[]
              else outcome == Raised(DeliveryError) && ctx.state == old(ctx.state) && ctx.data == old(ctx.data)))
    && (HasDraft(old(ctx.data)) && Typed(old(ctx.data)) ==>
          && ctx.state == None && ctx.data == map[]
          && Filed(db, out, userId, old(ctx.data)[ServerIdKey].n, old(ctx.data)[TextKey].t, photo, adminIds, outcome))
  }

  /** The effect of filing a draft: a None text fails the insert; otherwise
      exactly one pending row (sender, server id, text, photo) is appended
      under the next id, and then the review request goes to the server's
      moderation group, which fails with TypeError when the server does not
      exist (the row stays), and the sender is told with the main menu. */
  twostate predicate Filed(db: Database, out: Outbox, userId: int, serverId: int, text: Option<string>,
                           photo: Option<string>, adminIds: seq<int>, outcome: Outcome)
    reads db, out
  {
    && db.Valid()
    && db.servers == old(db.servers) && db.serverSeq == old(db.serverSeq) && db.users == old(db.users)
    && (text.None? ==>
          && outcome == Raised(IntegrityError) && out.sent == old(out.sent)
          && db.advertisements == old(db.advertisements) && db.advertisementSeq == old(db.advertisementSeq))
    && (text.Some? ==>
          var adId := old(db.advertisementSeq) + 1;
          && db.advertisements == old(db.advertisements) + [Advertisement(adId, userId, serverId, text.value, photo, Pending)]
          && db.advertisementSeq == adId
          && (db.GetServer(serverId).None? ==> outcome == Raised(TypeError) && out.sent == old(out.sent))
          && (db.GetServer(serverId).Some? ==>
                var review := ReviewRequest(db.GetServer(serverId).value.moderationGroupId, adId, text.value, photo);
                var ack := Send(Private(userId), Notice(SentForModeration), Reply(MainMenu(db, userId, adminIds)));
                && (!out.Reaches(review.chat) ==> outcome == Raised(DeliveryError) && out.sent == old(out.sent))
                && (out.Reaches(review.chat) ==>
                      && out.sent == old(out.sent) + [review] + (if out.Reaches(ack.chat) then [ack] else [])
                      && outcome == (if out.Reaches(ack.chat) then Done else Raised(DeliveryError)))))
  }

  method Submit(ctx: Context, db: Database, out: Outbox, userId: int, photo: Option<string>, adminIds: seq<int>)
    returns (outcome: Outcome)
    requires ctx.Valid() && db.Valid()
    modifies ctx, db, out
    ensures Submitted(ctx, db, out, userId, photo, adminIds, outcome)
  {
    var data := ctx.data;
    if TextKey !in data || ServerIdKey !in data {
      var ok := out.Deliver(Send(Private(userId), Notice(StartOver), NoMarkup));
      if !ok {
        return Raised(DeliveryError);
      }
      ctx.Clear();
      return Done;
    }
    outcome := File(db, out, userId, data[ServerIdKey].n, data[TextKey].t, photo, adminIds);
    ctx.Clear();
  }

  /** The body of the `try` once both keys are there. */
  method File(db: Database, out: Outbox, userId: int, serverId: int, text: Option<string>,
              photo: Option<string>, adminIds: seq<int>)
    returns (outcome: Outcome)
    requires db.Valid()
    modifies db, out
    ensures Filed(db, out, userId, serverId, text, photo, adminIds, outcome)
  {
    var adId := db.AddAdvertisement(userId, serverId, text, photo);
    if adId.Err? {
      return Raised(adId.error);
    }
    var server := db.GetServer(serverId);
    if server.None? {
      return Raised(TypeError);
    }
    var review := ReviewRequest(server.value.moderationGroupId, adId.value, text.value, photo);
    var ack := Send(Private(userId), Notice(SentForModeration), Reply(MainMenu(db, userId, adminIds)));
    outcome := Forward(out, review, ack);
  }

  /** The review request to the moderators, then, if it went out, the
      acknowledgement to the author. */
  method Forward(out: Outbox, review: Message, ack: Message) returns (outcome: Outcome)
    modifies out
    ensures !out.Reaches(review.chat) ==> outcome == Raised(DeliveryError) && out.sent == old(out.sent)
    ensures out.Reaches(review.chat) ==>
      && out.sent == old(out.sent) + [review] + (if out.Reaches(ack.chat) then [ack] else [])
      && outcome == (if out.Reaches(ack.chat) then Done else Raised(DeliveryError))
  {
    var ok := out.Deliver(review);
    if !ok {
      return Raised(DeliveryError);
    }
    ok := out.Deliver(ack);
    outcome := if ok then Done else Raised(DeliveryError);
  }

  /** `process_photo`: submits the draft with the photo's file id. */
  method ProcessPhoto(ctx: Context, db: Database, out: Outbox, userId: int, photoId: string, adminIds: seq<int>)
    returns (outcome: Outcome)
    requires ctx.Valid() && db.Valid() && ctx.state == Some(WaitingForPhoto)
    modifies ctx, db, out
    ensures Submitted(ctx, db, out, userId, Some(photoId), adminIds, outcome)
  {
    outcome := Submit(ctx, db, out, userId, Some(photoId), adminIds);
  }

  /** `handle_no_photo`: submits the draft without a photo.  The button is
      not tied to a state: it submits whatever draft the session holds. */
  method HandleNoPhoto(ctx: Context, db: Database, out: Outbox, userId: int, adminIds: seq<int>)
    returns (outcome: Outcome)
    requires ctx.Valid() && db.Valid()
    modifies ctx, db, out
    ensures Submitted(ctx, db, out, userId, None, adminIds, outcome)
  {
    outcome := Submit(ctx, db, out, userId, None, adminIds);
  }

  /** `cancel_advertisement`: clears the session from any state.  The store
      is not among the things it can reach. */
  method CancelAdvertisement(ctx: Context, out: Outbox, userId: int)
    returns (outcome: Outcome)
    modifies ctx, out
    ensures ctx.Valid() && ctx.state == None && ctx.data == map[]
    ensures var m := Edit(Private(userId), Notice(Cancelled), NoMarkup);
      && out.sent == old(out.sent) + (if out.Reaches(m.chat) then [m] else [])
      && outcome == (if out.Reaches(m.chat) then Done else Raised(DeliveryError))
  {
    ctx.Clear();
    var ok := out.Deliver(Edit(Private(userId), Notice(Cancelled), NoMarkup));
    outcome := if ok then Done else Raised(DeliveryError);
  }

  /** `approve_advertisement`, pressed in chat `here`: the payload's id is
      parsed first (a malformed payload raises before anything happens). */
  method ApproveAdvertisement(db: Database, out: Outbox, here: Chat, data: string)
    returns (outcome: Outcome)
    requires db.Valid()
    modifies db, out
    ensures ParseArg(data).Err? ==> outcome == Raised(ParseArg(data).error) && unchanged(db) && out.sent == old(out.sent)
    ensures ParseArg(data).Ok? ==> ApproveEffect(db, out, here, ParseArg(data).value, outcome)
  {
    var adId := ParseArg(data);
    if adId.Err? {
      return Raised(adId.error);
    }
    outcome := Approve(db, out, here, adId.value);
  }

  /** The effect of approving advertisement `adId`: an unknown id does
      nothing; otherwise the ad is published to its server's channel and
      only then marked approved (whatever its status was), after which the
      author is told and the review message is answered and deleted.  A
      missing server raises TypeError before anything is sent or written. */
  twostate predicate ApproveEffect(db: Database, out: Outbox, here: Chat, adId: int, outcome: Outcome)
    reads db, out
  {
    && db.Valid()
    && db.servers == old(db.servers) && db.serverSeq == old(db.serverSeq) && db.users == old(db.users)
    && db.advertisementSeq == old(db.advertisementSeq)
    && var found := FindBy(old(db.advertisements), AdId, adId);
    && (found.None? ==> outcome == Done && db.advertisements == old(db.advertisements) && out.sent == old(out.sent))
    && (found.Some? ==>
          var ad := found.value;
          var server := FindBy(db.servers, ServerId, ad.serverId);
          && (server.None? ==>
                outcome == Raised(TypeError) && db.advertisements == old(db.advertisements) && out.sent == old(out.sent))
          && (server.Some? ==>
                var post := Send(Group(server.value.channelId), Publication(ad), NoMarkup);
                && (!out.Reaches(post.chat) ==>
                      outcome == Raised(DeliveryError) && db.advertisements == old(db.advertisements)
                      && out.sent == old(out.sent))
                && (out.Reaches(post.chat) ==>
                      && db.advertisements == WithStatus(old(db.advertisements), adId, Approved)
                      && db.GetAdvertisement(adId) == Some(ad.(status := Approved))
                      && out.sent == old(out.sent) + [post] + out.Reached(ApprovalNotes(ad.userId, here))
                      && outcome == (if out.Reaches(Private(ad.userId)) && out.Reaches(here) then Done
                                     else Raised(DeliveryError)))))
  }

  /** What follows a successful publication: the author's notice, the answer
      in the moderation chat, and the deletion of the review message. */
  function ApprovalNotes(author: int, here: Chat): seq<Message> {
    [Send(Private(author), Notice(YourAdApproved), NoMarkup),
     Send(here, Notice(ApprovedAndPublished), NoMarkup),
     Delete(here)]
  }

  method Approve(db: Database, out: Outbox, here: Chat, adId: int) returns (outcome: Outcome)
    requires db.Valid()
    modifies db, out
    ensures ApproveEffect(db, out, here, adId, outcome)
  {
    var ad := db.GetAdvertisement(adId);
    if ad.None? {
      return Done;
    }
    var server := db.GetServer(ad.value.serverId);
    if server.None? {
      return Raised(TypeError);
    }
    outcome := Publish(db, out, here, ad.value, server.value.channelId);
  }

  /** The approval of a stored ad once its channel is known: the ad is
      marked approved only after it went out to the channel. */
  method Publish(db: Database, out: Outbox, here: Chat, ad: Advertisement, channel: string)
    returns (outcome: Outcome)
    requires db.Valid() && db.GetAdvertisement(ad.id) == Some(ad)
    modifies db, out
    ensures db.Valid()
    ensures db.servers == old(db.servers) && db.serverSeq == old(db.serverSeq) && db.users == old(db.users)
    ensures db.advertisementSeq == old(db.advertisementSeq)
    ensures !out.Reaches(Group(channel)) ==>
      outcome == Raised(DeliveryError) && db.advertisements == old(db.advertisements) && out.sent == old(out.sent)
    ensures out.Reaches(Group(channel)) ==>
      && db.advertisements == WithStatus(old(db.advertisements), ad.id, Approved)
      && db.GetAdvertisement(ad.id) == Some(ad.(status := Approved))
      && out.sent == old(out.sent) + [Send(Group(channel), Publication(ad), NoMarkup)] + out.Reached(ApprovalNotes(ad.userId, here))
      && outcome == (if out.Reaches(Private(ad.userId)) && out.Reaches(here) then Done else Raised(DeliveryError))
  {
    var ok := out.Deliver(Send(Group(channel), Publication(ad), NoMarkup));
    if !ok {
      return Raised(DeliveryError);
    }
    var notes := ApprovalNotes(ad.userId, here);
    ok := Decide(db, out, ad, Approved, notes);
    NotesReach(out, notes, ad.userId, here);
    outcome := if ok then Done else Raised(DeliveryError);
  }

  /** The notes of a decision go to the author and twice to the moderation
      chat, so all of them arrive exactly when those two chats are reachable. */
  lemma NotesReach(out: Outbox, notes: seq<Message>, author: int, here: Chat)
    requires |notes| == 3 && notes[0].chat == Private(author) && notes[1].chat == here && notes[2].chat == here
    ensures (forall i :: 0 <= i < |notes| ==> out.Reaches(notes[i].chat)) <==> out.Reaches(Private(author)) && out.Reaches(here)
  {
  }

  /** The status write of a decision, then its notes in order. */
  method Decide(db: Database, out: Outbox, ad: Advertisement, status: string, notes: seq<Message>)
    returns (ok: bool)
    requires db.Valid() && db.GetAdvertisement(ad.id) == Some(ad)
    modifies db, out
    ensures db.Valid()
    ensures db.servers == old(db.servers) && db.serverSeq == old(db.serverSeq) && db.users == old(db.users)
    ensures db.advertisementSeq == old(db.advertisementSeq)
    ensures db.advertisements == WithStatus(old(db.advertisements), ad.id, status)
    ensures db.GetAdvertisement(ad.id) == Some(ad.(status := status))
    ensures out.sent == old(out.sent) + out.Reached(notes)
    ensures ok <==> forall i :: 0 <= i < |notes| ==> out.Reaches(notes[i].chat)
  {
    db.UpdateAdvertisementStatus(ad.id, status);
    ok := out.DeliverAll(notes);
  }

  /** `reject_advertisement`, pressed in chat `here`: the payload's id is
      parsed first (a malformed payload raises before anything happens). */
  method RejectAdvertisement(db: Database, out: Outbox, here: Chat, data: string)
    returns (outcome: Outcome)
    requires db.Valid()
    modifies db, out
    ensures ParseArg(data).Err? ==> outcome == Raised(ParseArg(data).error) && unchanged(db) && out.sent == old(out.sent)
    ensures ParseArg(data).Ok? ==> RejectEffect(db, out, here, ParseArg(data).value, outcome)
  {
    var adId := ParseArg(data);
    if adId.Err? {
      return Raised(adId.error);
    }
    outcome := Reject(db, out, here, adId.value);
  }

  /** The effect of rejecting advertisement `adId`: an unknown id does
      nothing; otherwise the ad is marked rejected (whatever its status was)
      before the author is told.  A text review message is then edited and
      deleted; a photo review message cannot be edited, so the handler raises
      there and the message keeps its buttons. */
  twostate predicate RejectEffect(db: Database, out: Outbox, here: Chat, adId: int, outcome: Outcome)
    reads db, out
  {
    && db.Valid()
    && db.servers == old(db.servers) && db.serverSeq == old(db.serverSeq) && db.users == old(db.users)
    && db.advertisementSeq == old(db.advertisementSeq)
    && var found := FindBy(old(db.advertisements), AdId, adId);
    && (found.None? ==> outcome == Done && db.advertisements == old(db.advertisements) && out.sent == old(out.sent))
    && (found.Some? ==>
          var ad := found.value;
          && db.advertisements == WithStatus(old(db.advertisements), adId, Rejected)
          && db.GetAdvertisement(adId) == Some(ad.(status := Rejected))
          && out.sent == old(out.sent) + out.Reached(RejectionNotes(ad.userId, here, ad.photoId.Some?))
          && outcome == (if ad.photoId.None? && out.Reaches(Private(ad.userId)) && out.Reaches(here) then Done
                         else Raised(DeliveryError)))
  }

  /** The calls of a rejection that can succeed: the author's notice, then,
      when the review message is text, its edit and its deletion.  The review
      request of an ad with a photo is a photo message, on which `edit_text`
      always fails, so nothing after the notice is delivered. */
  function RejectionNotes(author: int, here: Chat, photoReview: bool): (notes: seq<Message>)
    ensures |notes| >= 1 && notes[0] == Send(Private(author), Notice(YourAdRejected), NoMarkup)
    ensures photoReview <==> |notes| == 1
    ensures Delete(here) in notes <==> !photoReview
  {
    [Send(Private(author), Notice(YourAdRejected), NoMarkup)]
    + if photoReview then [] else [Edit(here, Notice(RejectedNote), NoMarkup), Delete(here)]
  }

  method Reject(db: Database, out: Outbox, here: Chat, adId: int) returns (outcome: Outcome)
    requires db.Valid()
    modifies db, out
    ensures RejectEffect(db, out, here, adId, outcome)
  {
    var ad := db.GetAdvertisement(adId);
    if ad.None? {
      return Done;
    }
    var notes := RejectionNotes(ad.value.userId, here, ad.value.photoId.Some?);
    var ok := Decide(db, out, ad.value, Rejected, notes);
    if ad.value.photoId.Some? {
      // `edit_text` on the photo review message
      return Raised(DeliveryError);
    }
    NotesReach(out, notes, ad.value.userId, here);
    outcome := if ok then Done else Raised(DeliveryError);
  }
}
