/** Inline-button callback payloads: handlers.py builds them as
    f"{tag}_{n}" and reads the number back with `int(data.split("_")[1])`;
    the router dispatches on exact matches and `startswith` prefixes. */
module Payload {
  import opened Wrappers
  import opened Strings

  const ServerTag := "server"
  const PageTag := "page"
  const ApproveTag := "approve"
  const RejectTag := "reject"

  /** f"{tag}_{n}" */
  function Format(tag: string, n: int): string {
    tag + "_" + IntToString(n)
  }

  /** `int(data.split("_")[1])`: IndexError without an underscore, ValueError
      when the second piece is not an integer. */
  function ParseArg(data: string): (r: Result<int, Exception>)
    ensures r.Err? ==> r.error == IndexError || r.error == ValueError
  {
    var pieces := Split(data, '_');
    if |pieces| < 2 then Err(IndexError) else ParseInt(pieces[1])
  }

  /** A payload without an underscore has no second piece. */
  lemma NoUnderscoreIndexError(data: string)
    requires '_' !in data
    ensures ParseArg(data) == Err(IndexError)
  {
    SplitFree(data, '_');
  }

  /** Every payload the bot builds reads back as the number it carries. */
  lemma FormatRoundTrip(tag: string, n: int)
    requires '_' !in tag
    ensures ParseArg(Format(tag, n)) == Ok(n)
  {
    IntToStringFree(n, '_');
    assert Format(tag, n) == Join([tag, IntToString(n)], '_');
    SplitJoin([tag, IntToString(n)], '_');
    IntRoundTrip(n);
  }

  /** Only the piece between the first and second underscore is read. */
  lemma TrailingPiecesIgnored(tag: string, n: int, extra: string)
    requires '_' !in tag
    ensures ParseArg(Format(tag, n) + "_" + extra) == Ok(n)
  {
    IntToStringFree(n, '_');
    var s := Format(tag, n) + "_" + extra;
    assert s == tag + ['_'] + (IntToString(n) + ['_'] + extra);
    SplitAfterFree(tag, IntToString(n) + ['_'] + extra, '_');
    SplitAfterFree(IntToString(n), extra, '_');
    IntRoundTrip(n);
  }

  function StartsWith(s: string, prefix: string): bool {
    |prefix| <= |s| && s[..|prefix|] == prefix
  }

  /** The callback handler of handlers.py that a payload reaches. */
  datatype Callback =
    | SelectServer | AddPhoto | NavigatePage | NoPhoto | CancelAd | ApproveAd | RejectAd | Unhandled

  function Route(data: string): Callback {
    if StartsWith(data, ServerTag + "_") then SelectServer
    else if data == "add_photo" then AddPhoto
    else if StartsWith(data, PageTag + "_") then NavigatePage
    else if data == "no_photo" then NoPhoto
    else if data == "cancel" then CancelAd
    else if StartsWith(data, ApproveTag + "_") then ApproveAd
    else if StartsWith(data, RejectTag + "_") then RejectAd
    else Unhandled
  }

  /** A built payload starts with its tag and the underscore. */
  lemma Tagged(tag: string, n: int)
    ensures StartsWith(Format(tag, n), tag + "_")
  {
    assert Format(tag, n) == (tag + "_") + IntToString(n);
  }

  /** The fixed payloads reach their own handlers, and nothing else does:
      no fixed payload starts with a tag that is tested before it. */
  lemma FixedPayloadsRoute(data: string)
    ensures Route(data) == AddPhoto <==> data == "add_photo"
    ensures Route(data) == NoPhoto <==> data == "no_photo"
    ensures Route(data) == CancelAd <==> data == "cancel"
  {
    DiffersAt("add_photo", ServerTag + "_", 0);
    DiffersAt("no_photo", ServerTag + "_", 0);
    DiffersAt("no_photo", PageTag + "_", 0);
    DiffersAt("cancel", ServerTag + "_", 0);
    DiffersAt("cancel", PageTag + "_", 0);
  }

  /** Strings that differ at some position neither equal nor extend each other. */
  lemma DiffersAt(s: string, t: string, i: nat)
    requires i < |s| && i < |t| && s[i] != t[i]
    ensures !StartsWith(s, t) && s != t
  {
    if |t| <= |s| {
      assert s[..|t|][i] == s[i];
    }
  }

  /** Each tag differs in its first or second character from every pattern
      the router tries before it. */
  lemma RouteServer(n: int)
    ensures Route(Format(ServerTag, n)) == SelectServer
  {
    Tagged(ServerTag, n);
  }

  lemma RoutePage(n: int)
    ensures Route(Format(PageTag, n)) == NavigatePage
  {
    var page := Format(PageTag, n);
    Tagged(PageTag, n);
    assert page[0] == 'p';
    DiffersAt(page, ServerTag + "_", 0);
    DiffersAt(page, "add_photo", 0);
  }

  lemma RouteApprove(n: int)
    ensures Route(Format(ApproveTag, n)) == ApproveAd
  {
    var approve := Format(ApproveTag, n);
    Tagged(ApproveTag, n);
    assert approve[0] == 'a' && approve[1] == 'p';
    DiffersAt(approve, ServerTag + "_", 0);
    DiffersAt(approve, "add_photo", 1);
    DiffersAt(approve, PageTag + "_", 0);
    DiffersAt(approve, "no_photo", 0);
    DiffersAt(approve, "cancel", 0);
  }

  lemma RouteReject(n: int)
    ensures Route(Format(RejectTag, n)) == RejectAd
  {
    var reject := Format(RejectTag, n);
    Tagged(RejectTag, n);
    assert reject[0] == 'r';
    DiffersAt(reject, ServerTag + "_", 0);
    DiffersAt(reject, "add_photo", 0);
    DiffersAt(reject, PageTag + "_", 0);
    DiffersAt(reject, "no_photo", 0);
    DiffersAt(reject, "cancel", 0);
    DiffersAt(reject, ApproveTag + "_", 0);
  }

  /** A built payload reaches the handler of its own tag. */
  lemma RouteFormat(n: int)
    ensures Route(Format(ServerTag, n)) == SelectServer
    ensures Route(Format(PageTag, n)) == NavigatePage
    ensures Route(Format(ApproveTag, n)) == ApproveAd
    ensures Route(Format(RejectTag, n)) == RejectAd
  {
    RouteServer(n);
    RoutePage(n);
    RouteApprove(n);
    RouteReject(n);
  }
}
