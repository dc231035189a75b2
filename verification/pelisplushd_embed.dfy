/**
 * The string surgery of the Pelisplushd player page: the `go_to_player('…')`
 * handler of a server button is cut down to the embed URL it carries, the
 * page script's `video[<id>] = '…';` assignments are read, and links to the
 * retired `api.mycdn.moe` host are rewritten into the embed URL of the server
 * the button names.
 */
module PelisplushdEmbed {
  import opened KotlinText

  // ---------------------------------------------------------------------------
  // The onclick handler

  /** What may follow the embed URL inside the handler, in the order it is cut at. */
  const Markers: seq<string> := ["?cover_url=", "')", "',", "?poster", "#poster="]

  /** `s.substringBefore(d)`: the text before the first `d`, or all of `s`. */
  function Cut(s: string, d: string): string {
    SubstringBefore(s, d, s)
  }

  /** The chain of `substringBefore` calls, one per marker, in order. */
  function CutAll(s: string, markers: seq<string>): string {
    if markers == [] then s else CutAll(Cut(s, markers[0]), markers[1..])
  }

  /** The embed URL of a server button: after `go_to_player('` (or the whole text), cut at every marker. */
  function CleanOnclick(onclick: string): string {
    CutAll(SubstringAfter(onclick, "go_to_player('", onclick), Markers)
  }

  predicate NonEmpty(markers: seq<string>) {
    forall i :: 0 <= i < |markers| ==> markers[i] != []
  }

  predicate LacksAll(s: string, markers: seq<string>) {
    forall i :: 0 <= i < |markers| ==> !Contains(s, markers[i])
  }

  /** One cut leaves a prefix without the marker, and stops either at the end or where the marker starts. */
  lemma CutShape(s: string, d: string)
    requires d != []
    ensures Cut(s, d) <= s && !Contains(Cut(s, d), d)
    ensures Cut(s, d) == s || OccursAt(s, d, |Cut(s, d)|)
  {
    if Contains(s, d) {
      var r := Cut(s, d);
      assert s[|r|..|r| + |d|] == (r + d)[|r|..];
    }
  }

  /**
   * The chain leaves a prefix of its input that holds no marker, and stops
   * either at the end or where one of the markers starts.
   */
  lemma {:induction false} CutAllShape(s: string, markers: seq<string>)
    requires NonEmpty(markers)
    ensures CutAll(s, markers) <= s
    ensures LacksAll(CutAll(s, markers), markers)
    ensures CutAll(s, markers) == s || exists i :: 0 <= i < |markers| && OccursAt(s, markers[i], |CutAll(s, markers)|)
  {
    if markers != [] {
      var t := Cut(s, markers[0]);
      var r := CutAll(t, markers[1..]);
      CutShape(s, markers[0]);
      CutAllShape(t, markers[1..]);
      PrefixLacks(t, r, markers[0]);
      forall i | 1 <= i < |markers| ensures !Contains(r, markers[i]) {
        assert markers[1..][i - 1] == markers[i];
      }
      if r != s {
        if r == t {
          assert OccursAt(s, markers[0], |r|);
        } else {
          var i :| 0 <= i < |markers[1..]| && OccursAt(t, markers[1..][i], |r|);
          assert t == s[..|t|];
          OccursInPrefix(s, markers[i + 1], |t|, |r|);
        }
      }
    }
  }

  /** Text that holds no marker passes the chain unchanged. */
  lemma {:induction false} CutAllLacking(s: string, markers: seq<string>)
    requires LacksAll(s, markers)
    ensures CutAll(s, markers) == s
  {
    if markers != [] {
      assert !Contains(s, markers[0]);
      assert LacksAll(s, markers[1..]) by {
        forall i | 0 <= i < |markers[1..]| ensures !Contains(s, markers[1..][i]) {
          assert markers[1..][i] == markers[i + 1];
        }
      }
      CutAllLacking(s, markers[1..]);
    }
  }

  /**
   * The cleaned handler holds none of the markers, is a prefix of the text
   * after `go_to_player('`, and a second pass of the chain leaves it alone.
   */
  lemma CleanOnclickShape(onclick: string)
    ensures var r := CleanOnclick(onclick);
      && !Contains(r, "?cover_url=") && !Contains(r, "')") && !Contains(r, "',")
      && !Contains(r, "?poster") && !Contains(r, "#poster=")
      && r <= SubstringAfter(onclick, "go_to_player('", onclick)
      && CutAll(r, Markers) == r
  {
    var r := CleanOnclick(onclick);
    CutAllShape(SubstringAfter(onclick, "go_to_player('", onclick), Markers);
    assert !Contains(r, Markers[0]) && !Contains(r, Markers[1]) && !Contains(r, Markers[2]);
    assert !Contains(r, Markers[3]) && !Contains(r, Markers[4]);
    CutAllLacking(r, Markers);
  }

  /** Appending text none of whose characters occurs in `d` cannot create an occurrence of `d`. */
  lemma AppendForeign(u: string, t: string, d: string)
    requires d != [] && !Contains(u, d)
    requires forall k :: 0 <= k < |t| ==> t[k] !in d
    ensures !Contains(u + t, d)
  {
    var s := u + t;
    forall j | 0 <= j ensures !OccursAt(s, d, j) {
      if j + |d| <= |u| {
        assert s[j..j + |d|] == u[j..j + |d|];
        assert !OccursAt(u, d, j);
      } else if j + |d| <= |s| {
        var p := if j < |u| then |u| else j;
        assert s[j..j + |d|][p - j] == s[p] == t[p - |u|];
        assert s[p] !in d;
      }
    }
  }

  /** The position of the first occurrence of `d` in `u + d` is `|u|` when `u + d` has no earlier one. */
  lemma CutAtEnd(u: string, d: string)
    requires forall j :: 0 <= j < |u| ==> !OccursAt(u + d, d, j)
    ensures Cut(u + d, d) == u
  {
    var s := u + d;
    assert s[|u|..|u| + |d|] == d;
    assert OccursAt(s, d, |u|);
    var i := IndexOf(s, d);
    assert i != -1;
    assert OccursAt(s, d, i);
    assert i >= |u|;
    assert i == |u|;
    assert s[..|u|] == u;
  }

  /** What follows a leading `p` is the rest of the text. */
  lemma AfterLeading(p: string, rest: string)
    requires p != []
    ensures SubstringAfter(p + rest, p, p + rest) == rest
  {
    var s := p + rest;
    assert s[..|p|] == p;
    assert OccursAt(s, p, 0);
    assert IndexOf(s, p) == 0;
  }

  /** Cutting `u + "')"` at `')` gives `u` back when `u` has no `')`. */
  lemma CutCloser(u: string)
    requires !Contains(u, "')")
    ensures Cut(u + "')", "')") == u
  {
    forall j | 0 <= j < |u| ensures !OccursAt(u + "')", "')", j) {
      if j + 2 <= |u| {
        assert (u + "')")[j..j + 2] == u[j..j + 2];
        assert !OccursAt(u, "')", j);
      } else {
        assert (u + "')")[j..j + 2][1] == (u + "')")[j + 1] == '\'';
      }
    }
    CutAtEnd(u, "')");
  }

  /** The markers after the first two are absent from `u`, so their cuts leave it alone. */
  lemma CutRest(u: string)
    requires LacksAll(u, Markers)
    ensures CutAll(u, Markers[2..]) == u
  {
    assert LacksAll(u, Markers[2..]) by {
      forall i | 0 <= i < |Markers[2..]| ensures !Contains(u, Markers[2..][i]) {
        assert Markers[2..][i] == Markers[i + 2];
      }
    }
    CutAllLacking(u, Markers[2..]);
  }

  /**
   * The handler the page writes for an embed URL, `go_to_player('<url>')`,
   * gives the URL back, provided the URL holds no marker.
   */
  lemma WrapThenClean(u: string)
    requires LacksAll(u, Markers)
    ensures CleanOnclick("go_to_player('" + u + "')") == u
  {
    var closed := u + "')";
    assert "go_to_player('" + u + "')" == "go_to_player('" + closed;
    AfterLeading("go_to_player('", closed);
    assert !Contains(u, Markers[0]) && !Contains(u, Markers[1]);
    AppendForeign(u, "')", "?cover_url=");
    BeforeAbsentIsIdentity(closed, Markers[0]);
    CutCloser(u);
    CutRest(u);
    assert Markers[1..][0] == "')" && Markers[1..][1..] == Markers[2..];
    assert CutAll(closed, Markers) == CutAll(closed, Markers[1..]);
  }

  // ---------------------------------------------------------------------------
  // The page script

  /** `data.substringAfter(start, "").substringBefore(end, "")`. */
  function Between(data: string, start: string, end: string): string {
    SubstringBefore(SubstringAfter(data, start, ""), end, "")
  }

  /** The opening of the assignment of server `serverId`'s URL. */
  function ServerMarker(serverId: string): string {
    "video[" + serverId + "] = '"
  }

  /** `video[<id>] = '<url>';` read out of the page script. */
  function ServerUrl(data: string, serverId: string): string {
    Between(data, ServerMarker(serverId), "';")
  }

  /** The URL of the player API: server 1's assignment. */
  function ApiUrl(data: string): string {
    ServerUrl(data, "1")
  }

  /**
   * Without the opening, or without the closing after it, the text read is
   * empty; otherwise it lacks the closing and sits between the two in `data`.
   */
  lemma BetweenShape(data: string, start: string, end: string)
    requires end != []
    ensures !Contains(data, start) ==> Between(data, start, end) == []
    ensures !Contains(SubstringAfter(data, start, ""), end) ==> Between(data, start, end) == []
    ensures Contains(data, start) && Contains(SubstringAfter(data, start, ""), end) ==>
      !Contains(Between(data, start, end), end) && Contains(data, start + Between(data, start, end) + end)
  {
    var after := SubstringAfter(data, start, "");
    if Contains(data, start) && Contains(after, end) {
      BetweenOccurs(SubstringBefore(data, start, ""), start, after, Between(data, start, end), end);
    }
  }

  /** `start + r + end` occurs in `before + start + after` when `r + end` begins `after`. */
  lemma BetweenOccurs(before: string, start: string, after: string, r: string, end: string)
    requires r + end <= after
    ensures Contains(before + start + after, start + r + end)
  {
    var m := start + r + end;
    var tail := after[|r + end|..];
    assert after == r + end + tail;
    assert before + start + after == before + m + tail;
    assert OccursAt(m, m, 0);
    ContainsInside(before, m, tail, m);
  }

  /** A script that assigns server `id` a URL without `';` yields exactly that URL, whatever follows. */
  lemma ServerUrlReads(data: string, serverId: string, url: string, rest: string)
    requires !Contains(url, "';")
    requires data == ServerMarker(serverId) + url + "';" + rest
    ensures ServerUrl(data, serverId) == url
  {
    var m := ServerMarker(serverId);
    assert OccursAt(data, m, 0);
    assert IndexOf(data, m) == 0;
    assert SubstringAfter(data, m, "") == url + ("';" + rest);
    var t := url + ("';" + rest);
    forall j | 0 <= j < |url| ensures !OccursAt(t, "';", j) {
      if j + 2 <= |url| {
        assert t[j..j + 2] == url[j..j + 2];
        assert !OccursAt(url, "';", j);
      } else {
        assert t[j..j + 2][1] == t[j + 1] == '\'';
      }
    }
    assert OccursAt(t, "';", |url|);
    assert IndexOf(t, "';") == |url|;
    assert t[..|url|] == url;
  }

  // ---------------------------------------------------------------------------
  // Links to the retired mycdn host

  const MycdnHost := "api.mycdn.moe"

  /** The templates the rewrite builds, by server name. */
  const SbfastEmbed := "https://sbfull.com/e/"
  const PlustoEmbed := "https://owodeuwu.xyz/v/"
  const DoodEmbed := "https://dood.to/e/"
  const UqloadEmbed := "https://uqload.com/embed-"

  /**
   * A link to `api.mycdn.moe` is rebuilt from its id (the text after `id=`)
   * for the server the tab is named after, lower-cased and matched exactly;
   * any other link, or a tab of another name, is kept.
   */
  function LegacyRewrite(serverUrl: string, serverName: string): (r: string)
    ensures !Contains(serverUrl, MycdnHost) ==> r == serverUrl
    ensures Contains(serverUrl, MycdnHost) && Lowercase(serverName) !in {"sbfast", "plusto", "doodstream", "upload", "uqload"}
      ==> r == serverUrl
  {
    if !Contains(serverUrl, MycdnHost) then serverUrl
    else
      var urlId := SubstringAfter(serverUrl, "id=", serverUrl);
      match Lowercase(serverName)
      case "sbfast" => SbfastEmbed + urlId
      case "plusto" => PlustoEmbed + urlId
      case "doodstream" => DoodEmbed + urlId
      case "upload" => UqloadEmbed + urlId + ".html"
      case "uqload" => UqloadEmbed + urlId + ".html"
      case _ => serverUrl
  }

  /** The id a legacy link carries. */
  function LegacyId(serverUrl: string): string {
    SubstringAfter(serverUrl, "id=", serverUrl)
  }

  /**
   * A legacy link of a known server becomes that server's embed URL around
   * its id, whatever the case of the tab's name; "upload" and "uqload" share
   * one template.
   */
  lemma LegacyRewriteKnown(serverUrl: string, serverName: string)
    requires Contains(serverUrl, MycdnHost)
    ensures Lowercase(serverName) == "sbfast" ==> LegacyRewrite(serverUrl, serverName) == SbfastEmbed + LegacyId(serverUrl)
    ensures Lowercase(serverName) == "plusto" ==> LegacyRewrite(serverUrl, serverName) == PlustoEmbed + LegacyId(serverUrl)
    ensures Lowercase(serverName) == "doodstream" ==> LegacyRewrite(serverUrl, serverName) == DoodEmbed + LegacyId(serverUrl)
    ensures Lowercase(serverName) in {"upload", "uqload"} ==>
      LegacyRewrite(serverUrl, serverName) == UqloadEmbed + LegacyId(serverUrl) + ".html"
  {
  }
}
