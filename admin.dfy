/** The handlers of admin_panel.py: the admin panel and its gate, the
    three-step add-server flow, the server listing, and the promotion of a
    registered user to administrator. */
module Admin {
  import opened Wrappers
  import opened Strings
  import opened Store
  import opened Transport
  import opened Fsm
  import opened Handlers

  const AddAdminCaption := "Добавить администратора"
  const AddServerCaption := "➕ Добавить Группу"
  const ListServersCaption := "📋 Список Групп"
  const BackCaption := "⬅️ Назад"
  const AdminMenu := Reply([[AddAdminCaption], [AddServerCaption], [ListServersCaption], [BackCaption]])
  const BackButton := Reply([[BackCaption]])

  /** `admin_panel`: the admin menu for those who pass the gate, a refusal
      for everyone else. */
  method AdminPanel(db: Database, out: Outbox, userId: int, adminIds: seq<int>)
    returns (outcome: Outcome)
    modifies out
    ensures var m := if HasAdminAccess(db, userId, adminIds)
                     then Send(Private(userId), Notice(ChooseAction), AdminMenu)
                     else Send(Private(userId), Notice(NoAccess), NoMarkup);
      && out.sent == old(out.sent) + (if out.Reaches(m.chat) then [m] else [])
      && outcome == (if out.Reaches(m.chat) then Done else Raised(DeliveryError))
  {
    var ok;
    if !HasAdminAccess(db, userId, adminIds) {
      ok := out.Deliver(Send(Private(userId), Notice(NoAccess), NoMarkup));
    } else {
      ok := out.Deliver(Send(Private(userId), Notice(ChooseAction), AdminMenu));
    }
    outcome := if ok then Done else Raised(DeliveryError);
  }

  /** `back_to_main_menu`: answers with the main menu; the session is not
      among the things it can reach. */
  method BackToMainMenu(db: Database, out: Outbox, userId: int, adminIds: seq<int>)
    returns (outcome: Outcome)
    modifies out
    ensures var m := Send(Private(userId), Notice(BackInMainMenu), Reply(MainMenu(db, userId, adminIds)));
      && out.sent == old(out.sent) + (if out.Reaches(m.chat) then [m] else [])
      && outcome == (if out.Reaches(m.chat) then Done else Raised(DeliveryError))
  {
    var ok := out.Deliver(Send(Private(userId), Notice(BackInMainMenu), Reply(MainMenu(db, userId, adminIds))));
    outcome := if ok then Done else Raised(DeliveryError);
  }

  /** `add_server_start`: silently ignored without access; otherwise asks
      for the name and enters WAITING_FOR_SERVER_NAME. */
  method AddServerStart(ctx: Context, db: Database, out: Outbox, userId: int, adminIds: seq<int>)
    returns (outcome: Outcome)
    modifies ctx, out
    ensures ctx.data == old(ctx.data)
    ensures !HasAdminAccess(db, userId, adminIds) ==>
      outcome == Done && ctx.state == old(ctx.state) && out.sent == old(out.sent)
    ensures HasAdminAccess(db, userId, adminIds) ==>
      var m := Send(Private(userId), Notice(AskServerName), BackButton);
      && out.sent == old(out.sent) + (if out.Reaches(m.chat) then [m] else [])
      && ctx.state == (if out.Reaches(m.chat) then Some(WaitingForServerName) else old(ctx.state))
      && outcome == (if out.Reaches(m.chat) then Done else Raised(DeliveryError))
  {
    if !HasAdminAccess(db, userId, adminIds) {
      return Done;
    }
    var ok := out.Deliver(Send(Private(userId), Notice(AskServerName), BackButton));
    if !ok {
      return Raised(DeliveryError);
    }
    ctx.SetState(WaitingForServerName);
    outcome := Done;
  }

  const ListHeader := "Список серверов:\n\n"

  /** One line of the listing without its newline: `f"{server_id}. {name}"`. */
  function ServerLine(server: (int, string)): string {
    IntToString(server.0) + ". " + server.1
  }

  /** What one iteration of the loop appends. */
  function Entry(server: (int, string)): string {
    ServerLine(server) + "\n"
  }

  /** The entries of all servers, in catalog order. */
  function Lines(servers: seq<(int, string)>): string {
    if servers == [] then "" else Entry(servers[0]) + Lines(servers[1..])
  }

  /** The response of `list_servers` for a non-empty catalog. */
  function ServerListText(servers: seq<(int, string)>): (t: string)
    ensures |ListHeader| <= |t| && t[..|ListHeader|] == ListHeader
    ensures servers != [] <==> |ListHeader| < |t|
  {
    ListHeader + Lines(servers)
  }

  /** Appending one server to the catalog appends its entry to the text. */
  lemma {:induction false} LinesAppend(servers: seq<(int, string)>, server: (int, string))
    ensures Lines(servers + [server]) == Lines(servers) + Entry(server)
  {
    if servers == [] {
      assert servers + [server] == [server];
      assert Lines([server]) == Entry(server) + Lines([]);
    } else {
      var rest := servers[1..];
      assert (servers + [server])[1..] == rest + [server];
      LinesAppend(rest, server);
      calc {
        Lines(servers + [server]);
        Entry(servers[0]) + Lines(rest + [server]);
        Entry(servers[0]) + (Lines(rest) + Entry(server));
        (Entry(servers[0]) + Lines(rest)) + Entry(server);
        Lines(servers) + Entry(server);
      }
    }
  }

  /** One more iteration of the loop: the text so far grows by the next
      server's entry. */
  lemma ListStep(servers: seq<(int, string)>, k: nat)
    requires k < |servers|
    ensures ListHeader + Lines(servers[..k]) + Entry(servers[k]) == ListHeader + Lines(servers[..k + 1])
  {
    assert servers[..k + 1] == servers[..k] + [servers[k]];
    LinesAppend(servers[..k], servers[k]);
  }

  /** The loop of `list_servers` that builds the response string. */
  method FormatServerList(servers: seq<(int, string)>) returns (response: string)
    ensures response == ServerListText(servers)
  {
    response := ListHeader;
    var k := 0;
    while k < |servers|
      invariant 0 <= k <= |servers|
      invariant response == ListHeader + Lines(servers[..k])
    {
      var line := IntToString(servers[k].0) + ". " + servers[k].1 + "\n";
      ListStep(servers, k);
      response := response + line;
      k := k + 1;
    }
    assert servers[..k] == servers;
  }

  /** Split at newlines, the lines after the header and the blank line are
      exactly one line per server, in catalog order, when no name holds a
      newline. */
  lemma {:induction false} LinesSplit(servers: seq<(int, string)>)
    requires forall i :: 0 <= i < |servers| ==> '\n' !in servers[i].1
    ensures var lines := Split(Lines(servers), '\n');
      && |lines| == |servers| + 1 && lines[|servers|] == ""
      && forall i :: 0 <= i < |servers| ==> lines[i] == ServerLine(servers[i])
  {
    if servers != [] {
      var line := ServerLine(servers[0]);
      IntToStringFree(servers[0].0, '\n');
      assert '\n' !in line;
      assert Lines(servers) == line + ['\n'] + Lines(servers[1..]);
      SplitAfterFree(line, Lines(servers[1..]), '\n');
      LinesSplit(servers[1..]);
    }
  }

  /** The header splits into the title and a blank line, in front of
      whatever follows it. */
  lemma HeaderSplit(rest: string)
    ensures Split(ListHeader + rest, '\n') == ["Список серверов:", ""] + Split(rest, '\n')
  {
    var title := "Список серверов:";
    var tail := "" + ['\n'] + rest;
    assert ListHeader + rest == title + ['\n'] + tail;
    SplitAfterFree(title, tail, '\n');
    SplitAfterFree("", rest, '\n');
  }

  /** The listing reads back as the header, a blank line, one line per
      server in catalog order, and the final empty piece after the last
      newline. */
  lemma ServerListReadBack(servers: seq<(int, string)>)
    requires forall i :: 0 <= i < |servers| ==> '\n' !in servers[i].1
    ensures var lines := Split(ServerListText(servers), '\n');
      && |lines| == |servers| + 3
      && lines[0] == "Список серверов:" && lines[1] == "" && lines[|servers| + 2] == ""
      && forall i :: 0 <= i < |servers| ==> lines[i + 2] == ServerLine(servers[i])
  {
    HeaderSplit(Lines(servers));
    LinesSplit(servers);
  }

  /** `list_servers`: silently ignored without access; otherwise the listing
      of the catalog, or "no servers yet" for an empty one. */
  method ListServers(db: Database, out: Outbox, userId: int, adminIds: seq<int>)
    returns (outcome: Outcome)
    modifies out
    ensures !HasAdminAccess(db, userId, adminIds) ==> outcome == Done && out.sent == old(out.sent)
    ensures HasAdminAccess(db, userId, adminIds) ==>
      var m := Send(Private(userId),
                    if db.servers == [] then Notice(NoServers) else Body.Text(ServerListText(db.GetServers())),
                    NoMarkup);
      && out.sent == old(out.sent) + (if out.Reaches(m.chat) then [m] else [])
      && outcome == (if out.Reaches(m.chat) then Done else Raised(DeliveryError))
  {
    if !HasAdminAccess(db, userId, adminIds) {
      return Done;
    }
    var servers := db.GetServers();
    var ok;
    if servers == [] {
      ok := out.Deliver(Send(Private(userId), Notice(NoServers), NoMarkup));
    } else {
      var response := FormatServerList(servers);
      ok := out.Deliver(Send(Private(userId), Body.Text(response), NoMarkup));
    }
    outcome := if ok then Done else Raised(DeliveryError);
  }

  /** The "back" branch shared by the three add-server steps: clear the
      session and return to the admin panel. */
  method BackToAdminPanel(ctx: Context, out: Outbox, userId: int) returns (outcome: Outcome)
    modifies ctx, out
    ensures ctx.Valid() && ctx.state == None && ctx.data == map[]
    ensures var m := Send(Private(userId), Notice(BackInAdminPanel), AdminMenu);
      && out.sent == old(out.sent) + (if out.Reaches(m.chat) then [m] else [])
      && outcome == (if out.Reaches(m.chat) then Done else Raised(DeliveryError))
  {
    ctx.Clear();
    var ok := out.Deliver(Send(Private(userId), Notice(BackInAdminPanel), AdminMenu));
    outcome := if ok then Done else Raised(DeliveryError);
  }

  /** `process_server_name`: "back" aborts; anything else is stored as
      `server_name` (None for a message without text) before asking for
      the channel and entering WAITING_FOR_CHANNEL_ID. */
  method ProcessServerName(ctx: Context, out: Outbox, userId: int, text: Option<string>)
    returns (outcome: Outcome)
    requires ctx.Valid() && ctx.state == Some(WaitingForServerName)
    modifies ctx, out
    ensures ctx.Valid()
    ensures text == Some(BackCaption) ==>
      var m := Send(Private(userId), Notice(BackInAdminPanel), AdminMenu);
      && ctx.state == None && ctx.data == map[]
      && out.sent == old(out.sent) + (if out.Reaches(m.chat) then [m] else [])
      && outcome == (if out.Reaches(m.chat) then Done else Raised(DeliveryError))
    ensures text != Some(BackCaption) ==>
      var m := Send(Private(userId), Notice(AskChannelId), BackButton);
      && ctx.data == old(ctx.data)[ServerNameKey := Value.Text(text)]
      && out.sent == old(out.sent) + (if out.Reaches(m.chat) then [m] else [])
      && ctx.state == (if out.Reaches(m.chat) then Some(WaitingForChannelId) else old(ctx.state))
      && outcome == (if out.Reaches(m.chat) then Done else Raised(DeliveryError))
  {
    if text == Some(BackCaption) {
      outcome := BackToAdminPanel(ctx, out, userId);
      return;
    }
    ctx.UpdateData(ServerNameKey, Value.Text(text));
    var ok := out.Deliver(Send(Private(userId), Notice(AskChannelId), BackButton));
    if !ok {
      return Raised(DeliveryError);
    }
    ctx.SetState(WaitingForChannelId);
    outcome := Done;
  }

  /** `process_channel_id`: the same step for `channel_id`, leading to
      WAITING_FOR_MODERATION_GROUP. */
  method ProcessChannelId(ctx: Context, out: Outbox, userId: int, text: Option<string>)
    returns (outcome: Outcome)
    requires ctx.Valid() && ctx.state == Some(WaitingForChannelId)
    modifies ctx, out
    ensures ctx.Valid()
    ensures text == Some(BackCaption) ==>
      var m := Send(Private(userId), Notice(BackInAdminPanel), AdminMenu);
      && ctx.state == None && ctx.data == map[]
      && out.sent == old(out.sent) + (if out.Reaches(m.chat) then [m] else [])
      && outcome == (if out.Reaches(m.chat) then Done else Raised(DeliveryError))
    ensures text != Some(BackCaption) ==>
      var m := Send(Private(userId), Notice(AskModerationGroup), BackButton);
      && ctx.data == old(ctx.data)[ChannelIdKey := Value.Text(text)]
      && out.sent == old(out.sent) + (if out.Reaches(m.chat) then [m] else [])
      && ctx.state == (if out.Reaches(m.chat) then Some(WaitingForModerationGroup) else old(ctx.state))
      && outcome == (if out.Reaches(m.chat) then Done else Raised(DeliveryError))
  {
    if text == Some(BackCaption) {
      outcome := BackToAdminPanel(ctx, out, userId);
      return;
    }
    ctx.UpdateData(ChannelIdKey, Value.Text(text));
    var ok := out.Deliver(Send(Private(userId), Notice(AskModerationGroup), BackButton));
    if !ok {
      return Raised(DeliveryError);
    }
    ctx.SetState(WaitingForModerationGroup);
    outcome := Done;
  }

  /** The server the final step stores, if any: both keys collected with a
      text each, and a text for the moderation group.  A missing key raises
      KeyError, a None value violates NOT NULL; both end in the error reply. */
  ghost function NewServer(data: map<string, Value>, groupId: Option<string>): Option<(string, string, string)>
    requires Typed(data)
  {
    if ServerNameKey in data && ChannelIdKey in data
       && data[ServerNameKey].t.Some? && data[ChannelIdKey].t.Some? && groupId.Some?
    then Some((data[ServerNameKey].t.value, data[ChannelIdKey].t.value, groupId.value))
    else None
  }

  /** `process_moderation_group`: "back" aborts; otherwise `add_server` is
      called with the collected name and channel and this message's text,
      the outcome is reported with the admin menu, and the session is
      cleared in every case.  A failed success reply falls into the same
      `except` and tries the error reply to the same chat. */
  method ProcessModerationGroup(ctx: Context, db: Database, out: Outbox, userId: int, text: Option<string>)
    returns (outcome: Outcome)
    requires ctx.Valid() && db.Valid() && ctx.state == Some(WaitingForModerationGroup)
    modifies ctx, db, out
    ensures ctx.Valid() && db.Valid()
    ensures ctx.state == None && ctx.data == map[]
    ensures db.advertisements == old(db.advertisements) && db.advertisementSeq == old(db.advertisementSeq)
    ensures db.users == old(db.users)
    ensures text == Some(BackCaption) ==>
      var m := Send(Private(userId), Notice(BackInAdminPanel), AdminMenu);
      && db.servers == old(db.servers) && db.serverSeq == old(db.serverSeq)
      && out.sent == old(out.sent) + (if out.Reaches(m.chat) then [m] else [])
      && outcome == (if out.Reaches(m.chat) then Done else Raised(DeliveryError))
    ensures text != Some(BackCaption) ==>
      var added := old(NewServer(ctx.data, text));
      var m := Send(Private(userId), Notice(if added.Some? then ServerAdded else AddServerFailed), AdminMenu);
      && (added.None? ==> db.servers == old(db.servers) && db.serverSeq == old(db.serverSeq))
      && (added.Some? ==>
            && db.serverSeq == old(db.serverSeq) + 1
            && db.servers == old(db.servers) + [Server(db.serverSeq, added.value.0, added.value.1, added.value.2)])
      && out.sent == old(out.sent) + (if out.Reaches(m.chat) then [m] else [])
      && outcome == (if out.Reaches(m.chat) then Done else Raised(DeliveryError))
  {
    if text == Some(BackCaption) {
      outcome := BackToAdminPanel(ctx, out, userId);
      return;
    }
    var ok := StoreServer(db, out, userId, ctx.data, text);
    ctx.Clear();
    outcome := if ok then Done else Raised(DeliveryError);
  }

  /** The `try` block of `process_moderation_group` and its `except`: the
      server is added when everything was collected, and the one reply that
      reaches the admin is the matching report. */
  method StoreServer(db: Database, out: Outbox, userId: int, data: map<string, Value>, text: Option<string>)
    returns (ok: bool)
    requires db.Valid() && Typed(data)
    modifies db, out
    ensures db.Valid()
    ensures db.advertisements == old(db.advertisements) && db.advertisementSeq == old(db.advertisementSeq)
    ensures db.users == old(db.users)
    ensures var added := NewServer(data, text);
      var m := Send(Private(userId), Notice(if added.Some? then ServerAdded else AddServerFailed), AdminMenu);
      && (added.None? ==> db.servers == old(db.servers) && db.serverSeq == old(db.serverSeq))
      && (added.Some? ==>
            && db.serverSeq == old(db.serverSeq) + 1
            && db.servers == old(db.servers) + [Server(db.serverSeq, added.value.0, added.value.1, added.value.2)])
      && out.sent == old(out.sent) + (if out.Reaches(m.chat) then [m] else [])
      && ok == out.Reaches(m.chat)
  {
    if ServerNameKey !in data || ChannelIdKey !in data {
      ok := out.Deliver(Send(Private(userId), Notice(AddServerFailed), AdminMenu));
    } else {
      var id := db.AddServer(data[ServerNameKey].t, data[ChannelIdKey].t, text);
      if id.Err? {
        ok := out.Deliver(Send(Private(userId), Notice(AddServerFailed), AdminMenu));
      } else {
        ok := out.Deliver(Send(Private(userId), Notice(ServerAdded), AdminMenu));
        if !ok {
          ok := out.Deliver(Send(Private(userId), Notice(AddServerFailed), AdminMenu));
        }
      }
    }
  }

  /** `add_admin`: a refusal without access; otherwise asks for the id and
      enters WAITING_FOR_ADMIN_ID. */
  method AddAdmin(ctx: Context, db: Database, out: Outbox, userId: int, adminIds: seq<int>)
    returns (outcome: Outcome)
    modifies ctx, out
    ensures ctx.data == old(ctx.data)
    ensures var m := if HasAdminAccess(db, userId, adminIds)
                     then Send(Private(userId), Notice(AskAdminId), NoMarkup)
                     else Send(Private(userId), Notice(NoAccessToFunction), NoMarkup);
      && out.sent == old(out.sent) + (if out.Reaches(m.chat) then [m] else [])
      && outcome == (if out.Reaches(m.chat) then Done else Raised(DeliveryError))
      && ctx.state == (if HasAdminAccess(db, userId, adminIds) && out.Reaches(m.chat)
                       then Some(WaitingForAdminId) else old(ctx.state))
  {
    if !HasAdminAccess(db, userId, adminIds) {
      var ok := out.Deliver(Send(Private(userId), Notice(NoAccessToFunction), NoMarkup));
      return if ok then Done else Raised(DeliveryError);
    }
    var ok := out.Deliver(Send(Private(userId), Notice(AskAdminId), NoMarkup));
    if !ok {
      return Raised(DeliveryError);
    }
    ctx.SetState(WaitingForAdminId);
    outcome := Done;
  }

  /** `process_admin_id`: a message without text raises AttributeError on
      `isdigit`; a non-digit text re-prompts and keeps the session; an id
      with no users row is reported and the session cleared; a registered
      user's row gets role 'admin' (the UPDATE goes straight to the users
      table), then the session is cleared and the admin menu shown. */
  method ProcessAdminId(ctx: Context, db: Database, out: Outbox, userId: int, text: Option<string>)
    returns (outcome: Outcome)
    requires ctx.Valid() && ctx.state == Some(WaitingForAdminId)
    modifies ctx, db, out
    ensures ctx.Valid()
    ensures db.servers == old(db.servers) && db.serverSeq == old(db.serverSeq)
    ensures db.advertisements == old(db.advertisements) && db.advertisementSeq == old(db.advertisementSeq)
    ensures text.None? ==>
      outcome == Raised(AttributeError) && db.users == old(db.users)
      && ctx.state == old(ctx.state) && ctx.data == old(ctx.data) && out.sent == old(out.sent)
    ensures text.Some? && !IsDigits(text.value) ==>
      var m := Send(Private(userId), Notice(BadAdminId), NoMarkup);
      && db.users == old(db.users) && ctx.state == old(ctx.state) && ctx.data == old(ctx.data)
      && out.sent == old(out.sent) + (if out.Reaches(m.chat) then [m] else [])
      && outcome == (if out.Reaches(m.chat) then Done else Raised(DeliveryError))
    ensures text.Some? && IsDigits(text.value) && DigitsValue(text.value) > MaxInteger ==>
      outcome == Raised(OverflowError) && db.users == old(db.users)
      && ctx.state == old(ctx.state) && ctx.data == old(ctx.data) && out.sent == old(out.sent)
    ensures text.Some? && IsDigits(text.value) && DigitsValue(text.value) <= MaxInteger
            && DigitsValue(text.value) !in old(db.users) ==>
      var m := Send(Private(userId), Notice(UnknownUser(DigitsValue(text.value))), NoMarkup);
      && db.users == old(db.users)
      && out.sent == old(out.sent) + (if out.Reaches(m.chat) then [m] else [])
      && (if out.Reaches(m.chat) then outcome == Done && ctx.state == None && ctx.data == map[]
          else outcome == Raised(DeliveryError) && ctx.state == old(ctx.state) && ctx.data == old(ctx.data))
    ensures text.Some? && IsDigits(text.value) && DigitsValue(text.value) <= MaxInteger
            && DigitsValue(text.value) in old(db.users) ==>
      var id := DigitsValue(text.value);
      var m := Send(Private(userId), Notice(NowAdmin(id)), NoMarkup);
      && db.users == old(db.users)[id := old(db.users)[id].(role := AdminRole)]
      && db.IsAdmin(id)
      && (if out.Reaches(m.chat)
          then && out.sent == old(out.sent) + [m, Send(Private(userId), Notice(ChooseAction), AdminMenu)]
               && outcome == Done && ctx.state == None && ctx.data == map[]
          else && out.sent == old(out.sent) && outcome == Raised(DeliveryError)
               && ctx.state == old(ctx.state) && ctx.data == old(ctx.data))
  {
    if text.None? {
      return Raised(AttributeError);
    }
    if !IsDigits(text.value) {
      var ok := out.Deliver(Send(Private(userId), Notice(BadAdminId), NoMarkup));
      return if ok then Done else Raised(DeliveryError);
    }
    var id := DigitsValue(text.value);
    if id > MaxInteger {
      // binding the id to the SELECT
      return Raised(OverflowError);
    }
    if id !in db.users {
      var ok := out.Deliver(Send(Private(userId), Notice(UnknownUser(id)), NoMarkup));
      if !ok {
        return Raised(DeliveryError);
      }
      ctx.Clear();
      return Done;
    }
    db.users := db.users[id := db.users[id].(role := AdminRole)];
    var ok := out.Deliver(Send(Private(userId), Notice(NowAdmin(id)), NoMarkup));
    if !ok {
      return Raised(DeliveryError);
    }
    ctx.Clear();
    ok := out.Deliver(Send(Private(userId), Notice(ChooseAction), AdminMenu));
    outcome := if ok then Done else Raised(DeliveryError);
  }
}
