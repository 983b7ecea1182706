/** Runs of several handlers in a row, written as client code over the
    handlers' contracts. */
module Scenarios {
  import opened Wrappers
  import opened Strings
  import opened Store
  import opened Transport
  import opened Fsm
  import opened Payload
  import opened Handlers
  import opened Admin
  import opened Routing

  /** A fresh store numbers its first server 1. */
  method FirstServer() returns (db: Database)
    ensures db.Valid() && db.GetServer(1) == Some(Server(1, "Main", "@channel", "@moderators"))
    ensures db.advertisements == [] && db.advertisementSeq == 0
  {
    db := new Database();
    var sid := db.AddServer(Some("Main"), Some("@channel"), Some("@moderators"));
    assert sid == Ok(1);
  }

  /** User 42 picks server 1 and types "bike for sale". */
  method DraftAd(out: Outbox) returns (ctx: Context)
    requires out.unreachable == {}
    modifies out
    ensures ctx.Valid() && ctx.data == map[ServerIdKey := Int(1), TextKey := Value.Text(Some("bike for sale"))]
  {
    ctx := new Context();
    ctx.SetState(WaitingForServer);
    FormatRoundTrip(ServerTag, 1);
    var o := ProcessServerSelection(ctx, out, 42, Format(ServerTag, 1));
    assert ctx.state == Some(WaitingForText);
    o := ProcessText(ctx, out, 42, Some("bike for sale"));
  }

  /** ... and sends it without a photo: the first ad is stored as pending
      and the session ends. */
  method SubmitDraft(db: Database, out: Outbox, ctx: Context)
    requires db.Valid() && db.advertisements == [] && db.advertisementSeq == 0
    requires ctx.Valid() && ctx.data == map[ServerIdKey := Int(1), TextKey := Value.Text(Some("bike for sale"))]
    modifies db, out, ctx
  {
    var o := HandleNoPhoto(ctx, db, out, 42, []);
    var pending := Advertisement(1, 42, 1, "bike for sale", None, Pending);
    assert db.advertisements == [pending];
    assert db.GetAdvertisement(1) == Some(pending);
    assert ctx.state == None;
  }

  /** The moderator approves that ad: it is published and reads back as
      approved with every other field unchanged. */
  method ApproveStored(db: Database, out: Outbox, server: Server)
    requires db.Valid() && out.unreachable == {}
    requires db.GetAdvertisement(1) == Some(Advertisement(1, 42, server.id, "bike for sale", None, Pending))
    requires db.GetServer(server.id) == Some(server)
    modifies db, out
  {
    FormatRoundTrip(ApproveTag, 1);
    var o := ApproveAdvertisement(db, out, Group(server.moderationGroupId), Format(ApproveTag, 1));
    assert o == Done;
    assert db.GetAdvertisement(1) == Some(Advertisement(1, 42, server.id, "bike for sale", None, Approved));
  }

  /** Nothing stops a second decision: a rejection after the approval
      overwrites the status, and the author hears both. */
  method RejectAfterApprove(db: Database, out: Outbox, moderators: Chat, ad: Advertisement)
    requires db.Valid() && db.GetAdvertisement(ad.id) == Some(ad) && ad.status == Approved
    modifies db, out
  {
    var payload := Format(RejectTag, ad.id);
    FormatRoundTrip(RejectTag, ad.id);
    var o := RejectAdvertisement(db, out, moderators, payload);
    assert db.GetAdvertisement(ad.id) == Some(ad.(status := Rejected));
  }

  /** Rejecting an ad with a photo raises at the edit of the photo review
      message, after the status write and the author's notice.  The review
      message is not deleted, so its "approve" button still works. */
  method RejectPhotoThenApprove(db: Database, out: Outbox, server: Server, ad: Advertisement)
    requires db.Valid() && db.GetAdvertisement(ad.id) == Some(ad) && ad.photoId.Some?
    requires db.GetServer(ad.serverId) == Some(server) && out.Reaches(Group(server.channelId))
    modifies db, out
  {
    var moderators := Group(server.moderationGroupId);
    var before := |out.sent|;
    FormatRoundTrip(RejectTag, ad.id);
    var o := RejectAdvertisement(db, out, moderators, Format(RejectTag, ad.id));
    assert o == Raised(DeliveryError);
    assert db.GetAdvertisement(ad.id) == Some(ad.(status := Rejected));
    assert Delete(moderators) !in out.sent[before..];

    FormatRoundTrip(ApproveTag, ad.id);
    o := ApproveAdvertisement(db, out, moderators, Format(ApproveTag, ad.id));
    assert db.GetAdvertisement(ad.id) == Some(ad.(status := Approved));
  }

  /** An admin types 2^63 as the new admin's id: it passes `isdigit()`, but
      the SELECT cannot bind it, so the handler raises with no reply and the
      session stays in WAITING_FOR_ADMIN_ID. */
  method AdminIdTooLarge(db: Database, out: Outbox, admin: int)
    requires db.Valid()
    modifies db, out
  {
    var ctx := new Context();
    ctx.SetState(WaitingForAdminId);
    var typed := NatToString(MaxInteger + 1);  // "9223372036854775808"
    NatRoundTrip(MaxInteger + 1);
    var o := ProcessAdminId(ctx, db, out, admin, Some(typed));
    assert o == Raised(OverflowError);
    assert ctx.state == Some(WaitingForAdminId);
  }

  /** "Back" in the first add-server step, as registered: the global
      handler answers and the session stays in the step, so the next text
      becomes the server name.  Under the intended routing the step's own
      branch runs and the session is cleared. */
  method BackDuringAddServer(db: Database, out: Outbox, admin: int)
    modifies out
  {
    var ctx := new Context();
    ctx.SetState(WaitingForServerName);
    var back := Incoming(Some(BackCaption), false);

    assert RouteMessage(ctx.state, back) == BackToMainMenuHandler;
    var o := BackToMainMenu(db, out, admin, []);
    assert ctx.state == Some(WaitingForServerName);
    o := ProcessServerName(ctx, out, admin, Some("Main"));
    assert ctx.data[ServerNameKey] == Value.Text(Some("Main"));

    var session := new Context();
    session.SetState(WaitingForServerName);
    assert RouteMessageIntended(session.state, back) == ServerNameStep;
    o := ProcessServerName(session, out, admin, back.text);
    assert session.state == None && session.data == map[];
  }
}
