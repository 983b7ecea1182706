/** `get_servers_keyboard` of handlers.py: one page of the server catalog as
    an inline keyboard, five servers per page, with "back"/"forward" buttons. */
module Pager {
  import opened Wrappers
  import opened Strings
  import opened Transport
  import opened Payload

  const ServersPerPage := 5
  const PrevCaption := "◀️ Назад"
  const NextCaption := "Вперёд ▶️"

  /** Python's `s[a:b]`: negative bounds count from the end, then both are
      clamped to the sequence. */
  function PySlice<T>(s: seq<T>, a: int, b: int): (r: seq<T>)
    ensures a >= 0 && b >= a ==> r == s[if a <= |s| then a else |s| .. if b <= |s| then b else |s|]
  {
    var lo := if a < 0 then (if a + |s| < 0 then 0 else a + |s|) else (if a <= |s| then a else |s|);
    var hi := if b < 0 then (if b + |s| < 0 then 0 else b + |s|) else (if b <= |s| then b else |s|);
    if lo >= hi then [] else s[lo..hi]
  }

  /** A server's button: its name, and the payload `server_<id>`. */
  function ServerButton(server: (int, string)): Button {
    Button(server.1, Format(ServerTag, server.0))
  }

  /** The pagination row: "back" when `page > 0`, "forward" when servers
      remain after this page. */
  function NavRow(total: nat, page: int): (nav: seq<Button>)
    ensures nav != [] <==> page > 0 || page * ServersPerPage + ServersPerPage < total
  {
    var end := page * ServersPerPage + ServersPerPage;
    (if page > 0 then [Button(PrevCaption, Format(PageTag, page - 1))] else [])
    + (if end < total then [Button(NextCaption, Format(PageTag, page + 1))] else [])
  }

  /** Number of servers page `page >= 0` shows. */
  function Shown(total: nat, page: nat): (k: nat)
    ensures k <= ServersPerPage
  {
    var start := page * ServersPerPage;
    if start >= total then 0 else if total - start < ServersPerPage then total - start else ServersPerPage
  }

  /** One single-button row per server, in order. */
  function ServerRows(servers: seq<(int, string)>): (rows: seq<seq<Button>>)
    ensures |rows| == |servers|
    ensures forall i :: 0 <= i < |servers| ==> rows[i] == [ServerButton(servers[i])]
  {
    seq(|servers|, i requires 0 <= i < |servers| => [ServerButton(servers[i])])
  }

  /** Page `page >= 0` is the run of `Shown` servers starting at `page * 5`. */
  lemma PageSlice<T>(servers: seq<T>, page: int)
    ensures page >= 0 ==> var paged := PySlice(servers, page * ServersPerPage, page * ServersPerPage + ServersPerPage);
      && |paged| == Shown(|servers|, page)
      && forall i :: 0 <= i < |paged| ==> paged[i] == servers[page * ServersPerPage + i]
  {
  }

  function GetServersKeyboard(servers: seq<(int, string)>, page: int): (rows: seq<seq<Button>>)
    ensures page >= 0 ==> var shown := Shown(|servers|, page);
      && |rows| == shown + (if page > 0 || page * ServersPerPage + ServersPerPage < |servers| then 1 else 0)
      && (forall i :: 0 <= i < shown ==> rows[i] == [ServerButton(servers[page * ServersPerPage + i])])
      && (shown < |rows| ==> rows[shown] == NavRow(|servers|, page))
  {
    var start := page * ServersPerPage;
    var end := start + ServersPerPage;
    var paged := PySlice(servers, start, end);
    PageSlice(servers, page);
    var buttons := ServerRows(paged);
    var nav := NavRow(|servers|, page);
    if nav != [] then buttons + [nav] else buttons
  }

  /** Every server of the catalog is on page `j / 5`, in row `j % 5`. */
  lemma EveryServerListed(servers: seq<(int, string)>, j: nat)
    requires j < |servers|
    ensures var page := j / ServersPerPage;
      && j % ServersPerPage < |GetServersKeyboard(servers, page)|
      && GetServersKeyboard(servers, page)[j % ServersPerPage] == [ServerButton(servers[j])]
  {
    var page, row := j / ServersPerPage, j % ServersPerPage;
    OnItsPage(|servers|, j);
    RowOfPage(servers, page, row);
    assert servers[page * ServersPerPage + row] == servers[j];
  }

  /** Row `row` of a page that shows more than `row` servers. */
  lemma RowOfPage(servers: seq<(int, string)>, page: nat, row: nat)
    requires row < Shown(|servers|, page)
    ensures row < |GetServersKeyboard(servers, page)|
    ensures GetServersKeyboard(servers, page)[row] == [ServerButton(servers[page * ServersPerPage + row])]
  {
  }

  /** Position `j` of the catalog is row `j % 5` of page `j / 5`, which shows it. */
  lemma OnItsPage(total: nat, j: nat)
    requires j < total
    ensures (j / ServersPerPage) * ServersPerPage + j % ServersPerPage == j
    ensures j % ServersPerPage < Shown(total, j / ServersPerPage)
  {
  }

  /** Every server button carries a payload that routes to the server
      selection handler and reads back as that server's id. */
  lemma ServerButtonsReadBack(servers: seq<(int, string)>, page: nat)
    ensures var rows := GetServersKeyboard(servers, page);
      forall i :: 0 <= i < Shown(|servers|, page) ==>
        && Route(rows[i][0].data) == SelectServer
        && ParseArg(rows[i][0].data) == Ok(servers[page * ServersPerPage + i].0)
  {
    var rows: seq<seq<Button>> := GetServersKeyboard(servers, page);
    forall i | 0 <= i < Shown(|servers|, page)
      ensures Route(rows[i][0].data) == SelectServer
      ensures ParseArg(rows[i][0].data) == Ok(servers[page * ServersPerPage + i].0)
    {
      RouteFormat(servers[page * ServersPerPage + i].0);
      FormatRoundTrip(ServerTag, servers[page * ServersPerPage + i].0);
    }
  }

  /** "Back" is there exactly when `page > 0` and leads to page - 1;
      "forward" is there exactly when the next page shows at least one server
      and leads to page + 1; both route to the page navigation handler. */
  lemma NavButtonsReadBack(total: nat, page: nat)
    ensures var nav := NavRow(total, page);
      && |nav| == (if page > 0 then 1 else 0) + (if Shown(total, page + 1) > 0 then 1 else 0)
      && (forall k :: 0 <= k < |nav| ==> Route(nav[k].data) == NavigatePage)
      && (page > 0 ==> ParseArg(nav[0].data) == Ok(page - 1))
      && (Shown(total, page + 1) > 0 ==> ParseArg(nav[|nav| - 1].data) == Ok(page + 1))
  {
    var forward := page * ServersPerPage + ServersPerPage < total;
    assert (page + 1) * ServersPerPage == page * ServersPerPage + ServersPerPage;
    assert Shown(total, page + 1) > 0 <==> forward;
    var back := Button(PrevCaption, Format(PageTag, page - 1));
    var next := Button(NextCaption, Format(PageTag, page + 1));
    PageButton(page - 1);
    PageButton(page + 1);
    assert NavRow(total, page) == (if page > 0 then [back] else []) + (if forward then [next] else []);
  }

  /** A pagination payload reaches the page navigation and reads back its page. */
  lemma PageButton(p: int)
    ensures Route(Format(PageTag, p)) == NavigatePage && ParseArg(Format(PageTag, p)) == Ok(p)
  {
    RouteFormat(p);
    FormatRoundTrip(PageTag, p);
  }

  /** The catalog of twelve servers: page 0 shows servers 1-5 with only
      "forward", page 2 shows servers 11-12 with only "back". */
  lemma TwelveServers(servers: seq<(int, string)>)
    requires |servers| == 12
    ensures |GetServersKeyboard(servers, 0)| == 6
    ensures forall i :: 0 <= i < 5 ==> GetServersKeyboard(servers, 0)[i] == [ServerButton(servers[i])]
    ensures GetServersKeyboard(servers, 0)[5] == [Button(NextCaption, Format(PageTag, 1))]
    ensures |GetServersKeyboard(servers, 2)| == 3
    ensures GetServersKeyboard(servers, 2)[0] == [ServerButton(servers[10])]
    ensures GetServersKeyboard(servers, 2)[1] == [ServerButton(servers[11])]
    ensures GetServersKeyboard(servers, 2)[2] == [Button(PrevCaption, Format(PageTag, 1))]
  {
  }
}
