/** The bootstrap administrator list: the `ADMIN_IDS` environment value,
    a comma-separated list of user ids, read once at start-up.  Reading the
    environment is left to the caller; this module is the conversion. */
module Config {
  import opened Wrappers
  import opened Strings

  /** The pieces that survive the `if id` filter. */
  function NonEmpty(pieces: seq<string>): (kept: seq<string>)
    ensures |kept| <= |pieces|
    ensures forall i :: 0 <= i < |kept| ==> kept[i] != "" && kept[i] in pieces
  {
    if pieces == [] then []
    else if pieces[0] == "" then NonEmpty(pieces[1..])
    else [pieces[0]] + NonEmpty(pieces[1..])
  }

  /** The filter keeps every non-empty piece, as often as it occurs, and
      drops every empty one; with NonEmptyAppend this fixes the order too. */
  lemma {:induction false} NonEmptyKeepsEvery(pieces: seq<string>)
    ensures multiset(NonEmpty(pieces)) == multiset(pieces)["" := 0]
  {
    if pieces != [] {
      NonEmptyKeepsEvery(pieces[1..]);
      assert pieces == [pieces[0]] + pieces[1..];
      assert multiset(pieces) == multiset{pieces[0]} + multiset(pieces[1..]);
    }
  }

  /** `int(id)` applied to each piece in order; the first failure propagates. */
  function ConvertAll(pieces: seq<string>): (r: Result<seq<int>, Exception>)
    ensures r.Ok? ==> |r.value| == |pieces|
  {
    if pieces == [] then Ok([])
    else match ParseInt(pieces[0])
      case Err(e) => Err(e)
      case Ok(id) =>
        match ConvertAll(pieces[1..])
        case Err(e) => Err(e)
        case Ok(ids) => Ok([id] + ids)
  }

  /** `[int(id) for id in raw.split(",") if id]` (config.py line 7). */
  function ParseAdminIds(raw: string): (r: Result<seq<int>, Exception>)
    ensures raw == "" ==> r == Ok([])
  {
    ConvertAll(NonEmpty(Split(raw, ',')))
  }

  /** Conversion succeeds exactly when every piece is an integer literal, and
      then the i-th id is the value of the i-th piece. */
  lemma {:induction false} ConvertAllSpec(pieces: seq<string>)
    ensures ConvertAll(pieces).Ok? <==> forall i :: 0 <= i < |pieces| ==> ParseInt(pieces[i]).Ok?
    ensures ConvertAll(pieces).Ok? ==>
      forall i :: 0 <= i < |pieces| ==> ConvertAll(pieces).value[i] == ParseInt(pieces[i]).value
  {
    if pieces != [] {
      ConvertAllSpec(pieces[1..]);
      assert forall i :: 1 <= i < |pieces| ==> pieces[i] == pieces[1..][i - 1];
    }
  }

  /** The parsed list has one id per non-empty piece, in order, each the
      integer value of its piece; any non-numeric piece makes it fail. */
  lemma ParseAdminIdsSpec(raw: string, kept: seq<string>)
    requires kept == NonEmpty(Split(raw, ','))
    ensures ParseAdminIds(raw).Ok? <==> forall i :: 0 <= i < |kept| ==> ParseInt(kept[i]).Ok?
    ensures ParseAdminIds(raw).Ok? ==>
      && |ParseAdminIds(raw).value| == |kept|
      && forall i :: 0 <= i < |kept| ==> ParseAdminIds(raw).value[i] == ParseInt(kept[i]).value
  {
    assert ParseAdminIds(raw) == ConvertAll(kept);
    ConvertAllSpec(kept);
  }

  /** Splitting at one occurrence of the separator splits both sides apart. */
  lemma {:induction false} SplitAround(a: string, b: string, sep: char)
    ensures Split(a + [sep] + b, sep) == Split(a, sep) + Split(b, sep)
  {
    if |a| == 0 {
      assert a + [sep] + b == [sep] + b;
      SplitCons(sep, b, sep);
    } else {
      var c, t := a[0], a[1..];
      assert a == [c] + t;
      assert a + [sep] + b == [c] + (t + [sep] + b);
      SplitAround(t, b, sep);
      SplitCons(c, t, sep);
      SplitCons(c, t + [sep] + b, sep);
      SplitTail(Split(t, sep), Split(b, sep));
    }
  }

  /** The sequence facts the inductive step of SplitAround needs. */
  lemma SplitTail(head: seq<string>, rest: seq<string>)
    requires |head| >= 1
    ensures (head + rest)[0] == head[0]
    ensures (head + rest)[1..] == head[1..] + rest
    ensures forall x: string :: [x] + (head + rest) == ([x] + head) + rest
    ensures forall x: string :: [x] + (head[1..] + rest) == ([x] + head[1..]) + rest
  {
  }

  lemma {:induction false} NonEmptyAppend(p: seq<string>, q: seq<string>)
    ensures NonEmpty(p + q) == NonEmpty(p) + NonEmpty(q)
  {
    if p != [] {
      NonEmptyAppend(p[1..], q);
      var pq := p + q;
      assert pq[0] == p[0] && pq[1..] == p[1..] + q;
      if p[0] == "" {
        calc {
          NonEmpty(pq);
          NonEmpty(p[1..] + q);
          NonEmpty(p[1..]) + NonEmpty(q);
          NonEmpty(p) + NonEmpty(q);
        }
      } else {
        calc {
          NonEmpty(pq);
          [p[0]] + NonEmpty(p[1..] + q);
          [p[0]] + NonEmpty(p[1..]) + NonEmpty(q);
          NonEmpty(p) + NonEmpty(q);
        }
      }
    } else {
      assert p + q == q;
    }
  }

  /** A doubled comma is the same as a single one: the empty piece between
      them is dropped. */
  lemma DoubledCommaSkipped(a: string, b: string)
    ensures ParseAdminIds(a + ",," + b) == ParseAdminIds(a + "," + b)
  {
    assert a + ",," + b == a + [','] + ([','] + b);
    assert a + "," + b == a + [','] + b;
    SplitAround(a, [','] + b, ',');
    SplitAround(a, b, ',');
    assert Split([','] + b, ',') == [""] + Split(b, ',');
    NonEmptyAppend(Split(a, ','), [""] + Split(b, ','));
    NonEmptyAppend(Split(a, ','), Split(b, ','));
    assert NonEmpty([""] + Split(b, ',')) == NonEmpty(Split(b, ','));
  }

  /** Leading and trailing commas are ignored. */
  lemma EdgeCommasSkipped(s: string)
    ensures ParseAdminIds("," + s) == ParseAdminIds(s)
    ensures ParseAdminIds(s + ",") == ParseAdminIds(s)
  {
    assert ("," + s)[1..] == s;
    assert NonEmpty(Split("," + s, ',')) == NonEmpty(Split(s, ','));
    assert s + "," == s + [','] + "";
    SplitAround(s, "", ',');
    assert Split(s + ",", ',') == Split(s, ',') + [""];
    NonEmptyAppend(Split(s, ','), [""]);
    assert NonEmpty([""]) == [];
    assert NonEmpty(Split(s + ",", ',')) == NonEmpty(Split(s, ','));
  }

  /** The reference rendering: `",".join(str(i) for i in ids)`. */
  function Render(ids: seq<int>): string
  {
    if ids == [] then "" else Join(Rendered(ids), ',')
  }

  function Rendered(ids: seq<int>): (pieces: seq<string>)
    ensures |pieces| == |ids|
    ensures forall i :: 0 <= i < |ids| ==> pieces[i] == IntToString(ids[i])
  {
    seq(|ids|, i requires 0 <= i < |ids| => IntToString(ids[i]))
  }

  /** Parsing a rendered list gives the list back: no id is lost, added,
      reordered or changed. */
  lemma ParseRenderRoundTrip(ids: seq<int>)
    ensures ParseAdminIds(Render(ids)) == Ok(ids)
  {
    if ids != [] {
      var pieces := Rendered(ids);
      forall i | 0 <= i < |pieces| ensures ',' !in pieces[i] && pieces[i] != "" {
        IntToStringFree(ids[i], ',');
      }
      SplitJoin(pieces, ',');
      NonEmptyKeepsFull(pieces);
      ConvertRendered(ids);
    }
  }

  lemma {:induction false} ConvertRendered(ids: seq<int>)
    ensures ConvertAll(Rendered(ids)) == Ok(ids)
  {
    if ids != [] {
      ConvertRendered(ids[1..]);
      assert Rendered(ids)[1..] == Rendered(ids[1..]);
      IntRoundTrip(ids[0]);
      assert [ids[0]] + ids[1..] == ids;
    }
  }

  lemma {:induction false} NonEmptyKeepsFull(pieces: seq<string>)
    requires forall i :: 0 <= i < |pieces| ==> pieces[i] != ""
    ensures NonEmpty(pieces) == pieces
  {
    if pieces != [] {
      NonEmptyKeepsFull(pieces[1..]);
    }
  }
}
