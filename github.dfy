/** The GitHub API client: its configuration defaults, the pagination loop of
    `GetStargazers`, the `Link` header parser and the two retry wrappers.
    HTTP is replaced by oracles: the response to each page request, and the
    outcome of each retry attempt, are given as sequences; whether the
    context is cancelled at each point where the code looks at it is a flag. */
module GitHub {
  import opened Wrappers
  import opened Text
  import opened Errors
  import opened Durations

  datatype Stargazer = Stargazer(login: string, id: int, nodeId: string, avatarUrl: string, starredAt: int)

  datatype RateLimit = RateLimit(limit: int, remaining: int, reset: int)

  /** What a caller may configure; empty or zero fields get defaults. */
  datatype ClientConfig = ClientConfig(token: string, baseUrl: string, timeout: int, userAgent: string)

  datatype Client = Client(baseUrl: string, token: string, userAgent: string, timeout: int)

  const DefaultBaseUrl: string := "https://api.github.com"
  const DefaultTimeout: int := 30 * Second
  const DefaultUserAgent: string := "github-stars-notify/1.0"

  /** `NewClientWithConfig`: every unset setting takes its default, every set
      one is kept, and the token is passed through as given. */
  function NewClientWithConfig(cfg: ClientConfig): (c: Client)
    ensures c.token == cfg.token
    ensures c.baseUrl != "" && c.timeout != 0 && c.userAgent != ""
    ensures cfg.baseUrl != "" ==> c.baseUrl == cfg.baseUrl
    ensures cfg.timeout != 0 ==> c.timeout == cfg.timeout
    ensures cfg.userAgent != "" ==> c.userAgent == cfg.userAgent
  {
    Client(
      if cfg.baseUrl == "" then DefaultBaseUrl else cfg.baseUrl,
      cfg.token,
      if cfg.userAgent == "" then DefaultUserAgent else cfg.userAgent,
      if cfg.timeout == 0 then DefaultTimeout else cfg.timeout)
  }

  /** `NewClient`/`NewClientWithToken`: an otherwise empty configuration gives
      the public API address, a 30 second timeout and the service's user agent. */
  lemma DefaultClient(token: string)
    ensures NewClientWithConfig(ClientConfig(token, "", 0, ""))
         == Client("https://api.github.com", token, "github-stars-notify/1.0", 30_000_000_000)
  {
  }

  /** Configuring a client from the settings of an existing client changes nothing. */
  lemma ReconfigureIsIdentity(cfg: ClientConfig)
    ensures var c := NewClientWithConfig(cfg);
      NewClientWithConfig(ClientConfig(c.token, c.baseUrl, c.timeout, c.userAgent)) == c
  {
  }

  // ---------------------------------------------------------------------------
  // parseNextPage

  /** The longest prefix of `s` made of decimal digits. */
  function LeadingDigits(s: string): (d: string)
    ensures AllDigits(d) && |d| <= |s| && d == s[..|d|]
    ensures |d| < |s| ==> !IsDigit(s[|d|])
  {
    if s != [] && IsDigit(s[0]) then [s[0]] + LeadingDigits(s[1..]) else []
  }

  /** A match of the regular expression `page=(\d+)` starts at position 0 of `s`. */
  predicate PageMatchAtStart(s: string) {
    |s| >= 6 && s[0] == 'p' && s[1] == 'a' && s[2] == 'g' && s[3] == 'e' && s[4] == '='
    && IsDigit(s[5])
  }

  /** The group of the leftmost match of `page=(\d+)` in `s`, as
      `FindStringSubmatch` reports it (`\d+` is greedy). */
  function FindPageDigits(s: string): (r: Option<string>)
    ensures r.Some? ==> |r.value| > 0 && AllDigits(r.value)
    decreases |s|
  {
    if PageMatchAtStart(s) then Some(LeadingDigits(s[5..]))
    else if s == [] then None
    else FindPageDigits(s[1..])
  }

  const NextRel: string := "rel=\"next\""

  /** `parseNextPage`: the page number of the first `rel="next"` link of a
      `Link` header, 0 when there is none. */
  function ParseNextPage(header: string): (page: int)
    ensures 0 <= page <= MaxInt64
  {
    if header == "" then 0 else ScanLinks(Split(header, ','))
  }

  /** The loop over the comma-separated links: the page the first link names,
      in header order, or 0 when none does. A link that is not exactly
      `<url>; params`, that is not `rel="next"`, or whose URL yields no page
      number names nothing and is skipped (`LinkNextPage`). */
  function ScanLinks(links: seq<string>): (page: int)
    ensures 0 <= page <= MaxInt64
  {
    FirstNamed(Names(links))
  }

  /** What each link names, in header order. */
  function Names(links: seq<string>): (names: seq<Option<int>>)
    ensures InRange(names)
  {
    seq(|links|, j requires 0 <= j < |links| => LinkNextPage(links[j]))
  }

  /** Every page named is a non-negative `int`. */
  predicate InRange(names: seq<Option<int>>) {
    forall j :: 0 <= j < |names| && names[j].Some? ==> 0 <= names[j].value <= MaxInt64
  }

  /** The first page named, 0 when there is none. */
  function FirstNamed(names: seq<Option<int>>): (page: int)
    requires InRange(names)
    ensures 0 <= page <= MaxInt64
  {
    if names == [] then 0
    else
      match names[0]
      case Some(p) => p
      case None =>
        assert forall j :: 0 <= j < |names| - 1 ==> names[1..][j] == names[j + 1];
        FirstNamed(names[1..])
  }

  /** The page number of the target of one link, `<url>`. */
  function LinkPage(target: string): (r: Option<int>)
    ensures r.Some? ==> 0 <= r.value <= MaxInt64
  {
    UrlPage(Trim(target, {'<', '>'}))
  }

  /** The number after the leftmost `page=` of a URL, when it fits an `int`. */
  function UrlPage(url: string): (r: Option<int>)
    ensures r.Some? ==> 0 <= r.value <= MaxInt64
  {
    match FindPageDigits(url)
    case None => None
    case Some(digits) => Atoi(digits)
  }

  /** No link header, no next page. */
  lemma NoHeaderNoNextPage()
    ensures ParseNextPage("") == 0
  {
  }

  /** Links that never mention `rel="next"` give no next page. */
  lemma NoNextLinkNoNextPage(links: seq<string>)
    requires forall k :: 0 <= k < |links| ==> !Contains(links[k], NextRel)
    ensures ScanLinks(links) == 0
  {
    forall j | 0 <= j < |links| ensures LinkNextPage(links[j]).None? {
      NoNextRelNamesNothing(links[j]);
    }
    ScanLinksNoneNamed(links);
  }

  /** A piece of a split string occurs in it. */
  lemma ContainedInPart(s: string, sep: char, parts: seq<string>, k: nat)
    requires parts == Split(s, sep) && k < |parts|
    ensures forall x :: Contains(parts[k], x) ==> Contains(s, x)
  {
    forall x | Contains(parts[k], x) ensures Contains(s, x) {
      PartOccurs(s, sep, k);
      var i0 :| OccursAt(s, parts[k], i0);
      ContainsInSlice(s, i0, i0 + |parts[k]|, x);
    }
  }

  /** Each piece of `Split(s, sep)` occurs in `s`. */
  lemma {:induction false} PartOccurs(s: string, sep: char, k: nat)
    requires k < |Split(s, sep)|
    ensures exists i :: OccursAt(s, Split(s, sep)[k], i)
    decreases |s|
  {
    var parts := Split(s, sep);
    if k == 0 {
      PrefixPart(s, sep);
      assert OccursAt(s, parts[0], 0);
    } else {
      var j := if s[0] == sep then k - 1 else k;
      LaterPart(s, sep, k);
      var rest := Split(s[1..], sep);
      PartOccurs(s[1..], sep, j);
      var i :| OccursAt(s[1..], rest[j], i);
      ShiftOccurs(s, rest[j], i);
    }
  }

  /** A piece after the first is a piece of the split of the tail. */
  lemma LaterPart(s: string, sep: char, k: nat)
    requires 0 < k < |Split(s, sep)|
    ensures s != []
    ensures var j := if s[0] == sep then k - 1 else k;
      j < |Split(s[1..], sep)| && Split(s, sep)[k] == Split(s[1..], sep)[j]
  {
    var rest := Split(s[1..], sep);
    if s[0] != sep {
      assert Split(s, sep)[k] == rest[1..][k - 1];
    }
  }

  /** An occurrence in the tail of `s` is an occurrence in `s`, one further on. */
  lemma ShiftOccurs(s: string, x: string, i: int)
    requires s != [] && OccursAt(s[1..], x, i)
    ensures OccursAt(s, x, i + 1)
  {
    SliceOfSlice(s, 1, |s|, i, i + |x|);
  }

  /** The first piece of a split string is a prefix of it. */
  lemma {:induction false} PrefixPart(s: string, sep: char)
    ensures var p := Split(s, sep)[0]; |p| <= |s| && s[..|p|] == p
    decreases |s|
  {
    if s != [] && s[0] != sep {
      PrefixPart(s[1..], sep);
    }
  }

  /** Text found in a trimmed string is found in the string. */
  lemma TrimmedContains(s: string, cut: set<char>, x: string)
    requires Contains(Trim(s, cut), x)
    ensures Contains(s, x)
  {
    var l := TrimLeft(s, cut);
    var t := TrimRight(l, cut);
    var off := |s| - |l|;
    assert l == s[off..|s|] && t == l[0..|t|];
    SliceOfSlice(s, off, |s|, 0, |t|);
    assert t == s[off..off + |t|];
    ContainsInSlice(s, off, off + |t|, x);
  }

  /** The text of a `rel="next"` link to `url`, as GitHub writes it. */
  function NextLink(url: string): string {
    "<" + url + ">" + ";" + NextParams
  }

  /** A well-formed `rel="next"` link that starts the header gives the page
      number of its URL, whatever links follow it. */
  lemma NextLinkFirst(url: string, rest: string, p: int)
    requires url != [] && url[0] !in {'<', '>'} && url[|url| - 1] !in {'<', '>'}
    requires ',' !in url && ';' !in url
    requires UrlPage(url) == Some(p)
    ensures ParseNextPage(NextLink(url)) == p
    ensures ParseNextPage(NextLink(url) + "," + rest) == p
  {
    var link := NextLink(url);
    NextLinkPieces(url);
    SplitWithoutSeparator(link, ',');
    ScanNextLinkFirst(url, [], p);
    assert [link] + [] == [link];
    assert link + "," + rest == link + [','] + rest;
    SplitAtFirstSeparator(link, rest, ',');
    ScanNextLinkFirst(url, Split(rest, ','), p);
  }

  /** The scan stops at a leading next link whose URL yields a page. */
  lemma ScanNextLinkFirst(url: string, others: seq<string>, p: int)
    requires url != [] && url[0] !in {'<', '>'} && url[|url| - 1] !in {'<', '>'}
    requires ',' !in url && ';' !in url
    requires UrlPage(url) == Some(p)
    ensures ScanLinks([NextLink(url)] + others) == p
  {
    var links := [NextLink(url)] + others;
    HeadSplit(url);
    HeadPage(url, p);
    NextParamsFacts();
    ScanStopsAtHead(links, "<" + url + ">", p);
  }

  /** The page one link names: its URL's page number when the link is
      exactly `<url>; params` and the parameters hold `rel="next"`. */
  function LinkNextPage(link: string): (r: Option<int>)
    ensures r.Some? ==> 0 <= r.value <= MaxInt64
  {
    var parts := Split(TrimSpace(link), ';');
    if |parts| == 2 && Contains(parts[1], NextRel) then LinkPage(parts[0]) else None
  }

  /** No link before position `k` names a next page. */
  predicate NoneNamedBefore(links: seq<string>, k: nat)
    requires k <= |links|
  {
    forall j :: 0 <= j < k ==> LinkNextPage(links[j]).None?
  }

  /** The scan returns the page of the first link that names one. */
  lemma ScanLinksFirstNamed(links: seq<string>, k: nat, p: int)
    requires k < |links| && LinkNextPage(links[k]) == Some(p)
    requires NoneNamedBefore(links, k)
    ensures ScanLinks(links) == p
  {
    NamedAt(links, k, p);
    FirstNamedAt(Names(links), k, p);
    ScanIsFirstNamed(links);
  }

  lemma NamedAt(links: seq<string>, k: nat, p: int)
    requires k < |links| && LinkNextPage(links[k]) == Some(p)
    requires NoneNamedBefore(links, k)
    ensures Names(links)[k] == Some(p)
    ensures forall j :: 0 <= j < k ==> Names(links)[j].None?
  {
  }

  lemma ScanIsFirstNamed(links: seq<string>)
    ensures ScanLinks(links) == FirstNamed(Names(links))
  {
  }

  /** When no link names a page, the scan gives 0. */
  lemma ScanLinksNoneNamed(links: seq<string>)
    requires NoneNamedBefore(links, |links|)
    ensures ScanLinks(links) == 0
  {
    var names := Names(links);
    assert forall j :: 0 <= j < |links| ==> names[j] == LinkNextPage(links[j]);
    FirstNamedNone(names);
  }

  lemma {:induction false} FirstNamedAt(names: seq<Option<int>>, k: nat, p: int)
    requires InRange(names) && k < |names| && names[k] == Some(p)
    requires forall j :: 0 <= j < k ==> names[j].None?
    ensures FirstNamed(names) == p
  {
    if k > 0 {
      var tail := names[1..];
      assert forall j :: 0 <= j < |tail| ==> tail[j] == names[j + 1];
      FirstNamedAt(tail, k - 1, p);
    }
  }

  lemma {:induction false} FirstNamedNone(names: seq<Option<int>>)
    requires InRange(names)
    requires forall j :: 0 <= j < |names| ==> names[j].None?
    ensures FirstNamed(names) == 0
  {
    if names != [] {
      var tail := names[1..];
      assert forall j :: 0 <= j < |tail| ==> tail[j] == names[j + 1];
      FirstNamedNone(tail);
    }
  }

  /** A link that never mentions `rel="next"` names no page. */
  lemma NoNextRelNamesNothing(link: string)
    requires !Contains(link, NextRel)
    ensures LinkNextPage(link).None?
  {
    var parts := Split(TrimSpace(link), ';');
    if |parts| == 2 && Contains(parts[1], NextRel) {
      ContainedInPart(TrimSpace(link), ';', parts, 1);
      TrimmedContains(link, SpaceChars, NextRel);
      assert false;
    }
  }

  /** A well-formed next link names the page of its URL. */
  lemma NextLinkNames(url: string, p: int)
    requires url != [] && url[0] !in {'<', '>'} && url[|url| - 1] !in {'<', '>'}
    requires ',' !in url && ';' !in url
    requires UrlPage(url) == Some(p)
    ensures LinkNextPage(NextLink(url)) == Some(p)
  {
    HeadSplit(url);
    HeadPage(url, p);
    NextParamsFacts();
  }

  /** Links before the next link that do not mention `rel="next"` (a
      `rel="prev"` or `rel="first"` link, say) do not change the result, and
      neither do the links after it. */
  lemma NextLinkAfterOthers(before: string, url: string, after: string, p: int)
    requires !Contains(before, NextRel)
    requires url != [] && url[0] !in {'<', '>'} && url[|url| - 1] !in {'<', '>'}
    requires ',' !in url && ';' !in url
    requires UrlPage(url) == Some(p)
    ensures ParseNextPage(before + "," + NextLink(url)) == p
    ensures ParseNextPage(before + "," + NextLink(url) + "," + after) == p
  {
    var link := NextLink(url);
    NextLinkPieces(url);
    NextLinkNames(url, p);
    var pre := Split(before, ',');
    SegmentsNameNothing(before);
    SplitAround(before, link, after);
    assert pre + [link] == pre + ([link] + []);
    ScanPastUnnamed(pre, link, [], p);
    ScanPastUnnamed(pre, link, Split(after, ','), p);
  }

  lemma ScanPastUnnamed(pre: seq<string>, link: string, rest: seq<string>, p: int)
    requires forall j :: 0 <= j < |pre| ==> LinkNextPage(pre[j]).None?
    requires LinkNextPage(link) == Some(p)
    ensures ScanLinks(pre + ([link] + rest)) == p
  {
    var all := pre + ([link] + rest);
    forall j | 0 <= j < |pre| ensures LinkNextPage(all[j]).None? {
      assert all[j] == pre[j];
    }
    assert all[|pre|] == link;
    ScanLinksFirstNamed(all, |pre|, p);
  }

  lemma SegmentsNameNothing(before: string)
    requires !Contains(before, NextRel)
    ensures forall j :: 0 <= j < |Split(before, ',')| ==> LinkNextPage(Split(before, ',')[j]).None?
  {
    var pre := Split(before, ',');
    forall j | 0 <= j < |pre| ensures LinkNextPage(pre[j]).None? {
      ContainedInPart(before, ',', pre, j);
      NoNextRelNamesNothing(pre[j]);
    }
  }

  lemma SplitAround(before: string, link: string, after: string)
    requires ',' !in link
    ensures Split(before + "," + link, ',') == Split(before, ',') + [link]
    ensures Split(before + "," + link + "," + after, ',') == Split(before, ',') + ([link] + Split(after, ','))
  {
    SplitWithoutSeparator(link, ',');
    assert before + "," + link == before + [','] + link;
    SplitAppend(before, link, ',');
    assert before + "," + link + "," + after == before + [','] + (link + [','] + after);
    SplitAppend(before, link + [','] + after, ',');
    SplitAtFirstSeparator(link, after, ',');
  }

  /** A next link with a third parameter, `<url>; rel="next"; extra`, splits
      into three pieces and is skipped: on its own it gives no next page. */
  lemma NextLinkWithExtraParameter(url: string, extra: string)
    requires url != [] && ',' !in url && ';' !in url
    requires ';' !in extra && ',' !in extra
    requires extra == [] || extra[|extra| - 1] !in SpaceChars
    ensures ParseNextPage(NextLink(url) + ";" + extra) == 0
  {
    var link := NextLink(url) + ";" + extra;
    ExtraParameterPieces(url, extra);
    assert LinkNextPage(link).None?;
    NextLinkPieces(url);
    assert ',' !in link;
    SplitWithoutSeparator(link, ',');
    ScanLinksNoneNamed([link]);
  }

  lemma ExtraParameterPieces(url: string, extra: string)
    requires url != [] && ',' !in url && ';' !in url
    requires ';' !in extra
    requires extra == [] || extra[|extra| - 1] !in SpaceChars
    ensures |Split(TrimSpace(NextLink(url) + ";" + extra), ';')| == 3
  {
    ExtraParameterUntrimmed(url, extra);
    ExtraParameterSplit(url, extra);
  }

  lemma ExtraParameterSplit(url: string, extra: string)
    requires url != [] && ',' !in url && ';' !in url
    requires ';' !in extra
    ensures |Split(NextLink(url) + ";" + extra, ';')| == 3
  {
    var head := NextLink(url);
    NextLinkPieces(url);
    assert head + ";" + extra == head + [';'] + extra;
    SplitAppend(head, extra, ';');
    SplitWithoutSeparator(extra, ';');
  }

  lemma ExtraParameterUntrimmed(url: string, extra: string)
    requires extra == [] || extra[|extra| - 1] !in SpaceChars
    ensures TrimSpace(NextLink(url) + ";" + extra) == NextLink(url) + ";" + extra
  {
    var link := NextLink(url) + ";" + extra;
    assert link[0] == '<';
    assert link[|link| - 1] == if extra == [] then ';' else extra[|extra| - 1];
    TrimUntouched(link, SpaceChars);
  }

  lemma HeadSplit(url: string)
    requires url != [] && ',' !in url && ';' !in url
    ensures Split(TrimSpace(NextLink(url)), ';') == ["<" + url + ">", NextParams]
  {
    NextLinkPieces(url);
    NextLinkUntrimmed(url);
  }

  lemma HeadPage(url: string, p: int)
    requires url != [] && url[0] !in {'<', '>'} && url[|url| - 1] !in {'<', '>'}
    requires UrlPage(url) == Some(p)
    ensures LinkPage("<" + url + ">") == Some(p)
  {
    TargetTrim(url);
  }

  /** One step of the scan: a leading link `<target>; params` naming the
      next page ends it with that page. */
  lemma ScanStopsAtHead(links: seq<string>, target: string, p: int)
    requires links != []
    requires Split(TrimSpace(links[0]), ';') == [target, NextParams]
    requires Contains(NextParams, NextRel)
    requires LinkPage(target) == Some(p)
    ensures ScanLinks(links) == p
  {
    assert LinkNextPage(links[0]) == Some(p);
    ScanLinksFirstNamed(links, 0, p);
  }

  /** A next link holds no comma, and splits on ';' into its target and its
      parameters. */
  lemma NextLinkPieces(url: string)
    requires url != [] && ',' !in url && ';' !in url
    ensures ',' !in NextLink(url)
    ensures Split(NextLink(url), ';') == ["<" + url + ">", NextParams]
  {
    NextParamsFacts();
    NextLinkShape(url);
    SplitTwo("<" + url + ">", NextParams, ';');
  }

  lemma SplitTwo(a: string, b: string, sep: char)
    requires sep !in a && sep !in b
    ensures Split(a + [sep] + b, sep) == [a, b]
  {
    SplitAtFirstSeparator(a, b, sep);
    SplitWithoutSeparator(b, sep);
  }

  lemma NextLinkShape(url: string)
    requires ',' !in url
    ensures NextLink(url) == ("<" + url + ">") + [';'] + NextParams
    ensures ',' !in "<" + url + ">"
  {
  }

  const NextParams: string := " rel=\"next\""

  lemma NextParamsFacts()
    ensures ';' !in NextParams && ',' !in NextParams
    ensures Contains(NextParams, NextRel)
  {
    assert OccursAt(NextParams, NextRel, 1);
    ContainsIffOccurs(NextParams, NextRel);
  }

  /** A next link starts with '<' and ends with '"', so `TrimSpace` keeps it. */
  lemma NextLinkUntrimmed(url: string)
    ensures TrimSpace(NextLink(url)) == NextLink(url)
  {
    var link := NextLink(url);
    assert link[0] == '<';
    assert link[|link| - 1] == '"';
    assert '<' !in SpaceChars && '"' !in SpaceChars;
    TrimUntouched(link, SpaceChars);
  }

  /** Trimming the angle brackets of `<url>` gives back the URL. */
  lemma TargetTrim(url: string)
    requires url != [] && url[0] !in {'<', '>'} && url[|url| - 1] !in {'<', '>'}
    ensures Trim("<" + url + ">", {'<', '>'}) == url
  {
    var cut: set<char> := {'<', '>'};
    var target := "<" + url + ">";
    var closed := url + ">";
    assert target[0] == '<' && target[1..] == closed;
    TrimLeftDropsOne(target, cut);
    TrimLeftStops(closed, cut);
    assert closed[..|closed| - 1] == url && closed[|closed| - 1] == '>';
    TrimRightDropsOne(closed, cut);
    TrimRightStops(url, cut);
  }

  /** `LeadingDigits` stops exactly at the end of a digit string that is
      followed by nothing or by a non-digit. */
  lemma {:induction false} LeadingDigitsOf(d: string, rest: string)
    requires AllDigits(d)
    requires rest == [] || !IsDigit(rest[0])
    ensures LeadingDigits(d + rest) == d
  {
    if d != [] {
      assert (d + rest)[1..] == d[1..] + rest;
      LeadingDigitsOf(d[1..], rest);
      assert [d[0]] + d[1..] == d;
    }
  }

  /** A prefix without the text "page", followed by a '?', hides no match. */
  lemma {:induction false} FindPageDigitsSkips(prefix: string, tail: string)
    requires !Contains(prefix, "page")
    requires tail != [] && tail[0] == '?'
    ensures FindPageDigits(prefix + tail) == FindPageDigits(tail)
    decreases |prefix|
  {
    if prefix != [] {
      var s := prefix + tail;
      NoMatchBeforeQuestionMark(prefix, tail);
      assert FindPageDigits(s) == FindPageDigits(s[1..]);
      assert s[1..] == prefix[1..] + tail;
      assert !Contains(prefix[1..], "page");
      FindPageDigitsSkips(prefix[1..], tail);
    } else {
      assert prefix + tail == tail;
    }
  }

  lemma NoMatchBeforeQuestionMark(prefix: string, tail: string)
    requires prefix != [] && !Contains(prefix, "page")
    requires tail != [] && tail[0] == '?'
    ensures !PageMatchAtStart(prefix + tail)
  {
    var s := prefix + tail;
    if |prefix| < 4 {
      assert s[|prefix|] == '?';
    }
  }

  /** `page=` followed by a digit string and then nothing or a non-digit
      matches with exactly that digit string. */
  lemma MatchHere(d: string, more: string)
    requires d != [] && AllDigits(d)
    requires more == [] || !IsDigit(more[0])
    ensures FindPageDigits("page=" + (d + more)) == Some(d)
  {
    var w := "page=" + (d + more);
    assert w[..5] == "page=";
    assert w[5] == d[0];
    assert w[5..] == d + more;
    LeadingDigitsOf(d, more);
  }

  /** Requesting `?page=N` first, as this client does, the leftmost `page=`
      match is the page parameter and the URL yields `N`. */
  lemma PageParameterFirst(base: string, n: nat, more: string)
    requires !Contains(base, "page")
    requires n <= MaxInt64
    requires more == [] || more[0] == '&'
    ensures UrlPage(base + ("?" + ("page=" + (NatToString(n) + more)))) == Some(n)
  {
    var d := NatToString(n);
    var w := "page=" + (d + more);
    var tail := "?" + w;
    FindPageDigitsSkips(base, tail);
    assert tail[1..] == w;
    MatchHere(d, more);
    assert FindPageDigits(tail) == FindPageDigits(w);
    AtoiOfIntToString(n);
  }

  /** The leftmost match may sit inside another parameter: with `per_page`
      written first, the URL yields the page size, not the page. */
  lemma PerPageParameterFirst(base: string, m: nat, n: nat)
    requires !Contains(base, "page")
    requires m <= MaxInt64
    ensures UrlPage(base + ("?per_" + ("page=" + (NatToString(m) + ("&page=" + NatToString(n))))))
         == Some(m)
  {
    var dm := NatToString(m);
    var more := "&page=" + NatToString(n);
    var w := "page=" + (dm + more);
    var tail := "?per_" + w;
    FindPageDigitsSkips(base, tail);
    SkipPerUnderscore(w);
    MatchHere(dm, more);
    AtoiOfIntToString(m);
  }

  /** No match starts inside the text `?per_`. */
  lemma SkipPerUnderscore(w: string)
    ensures FindPageDigits("?per_" + w) == FindPageDigits(w)
  {
    var t4 := "_" + w;
    var t3 := "r" + t4;
    var t2 := "e" + t3;
    var t1 := "p" + t2;
    var t0 := "?" + t1;
    assert t0 == "?per_" + w;
    SkipOne(t0, t1);
    assert t1[1] == 'e';
    SkipOne(t1, t2);
    SkipOne(t2, t3);
    SkipOne(t3, t4);
    SkipOne(t4, w);
  }

  /** The search moves past a first character that does not start a match. */
  lemma SkipOne(s: string, rest: string)
    requires s != [] && !PageMatchAtStart(s) && s[1..] == rest
    ensures FindPageDigits(s) == FindPageDigits(rest)
  {
  }


  // ---------------------------------------------------------------------------
  // GetStargazers: the pagination loop

  /** What `getStargazersPage` returns for one page request: the stargazers
      of the page, the next page number (`ParseNextPage` of the response's
      `Link` header, see `PageFromResponse`) and whether the context is found
      cancelled after it; or its error. */
  datatype PageResponse =
    | Page(stargazers: seq<Stargazer>, nextPage: int, cancelledAfter: bool)
    | PageFailed(err: Error)

  /** A successful page request with the given `Link` header. */
  function PageFromResponse(stargazers: seq<Stargazer>, link: string, cancelledAfter: bool): (r: PageResponse)
    ensures r.Page? && 0 <= r.nextPage <= MaxInt64
    ensures link == "" ==> r.nextPage == 0
  {
    Page(stargazers, ParseNextPage(link), cancelledAfter)
  }

  /** The loop ends at this response: an error, no next page, or a
      cancelled context once a next page was found. */
  predicate Stops(r: PageResponse) {
    r.PageFailed? || r.nextPage == 0 || r.cancelledAfter
  }

  /** The responses end the loop at some point: the server does not link
      pages forever. */
  predicate Settles(rs: seq<PageResponse>) {
    exists k :: 0 <= k < |rs| && Stops(rs[k])
  }

  /** A server that names a next page in every response, uncancelled, never
      lets the loop end: `GetStargazers` would request pages for ever. The
      model leaves such servers out by requiring `Settles`. */
  lemma EndlessLinksNeverSettle(n: nat, next: int)
    requires next != 0
    ensures !Settles(seq(n, _ => Page([], next, false)))
  {
  }

  /** The URL `base?per_page=M&page=N`. */
  function PerPageUrl(base: string, m: nat, n: nat): string {
    base + ("?per_" + ("page=" + (NatToString(m) + ("&page=" + NatToString(n)))))
  }

  /** A next link written `?per_page=100&page=N`, with the page size first,
      names page 100 whatever N is: a server that orders its parameters this
      way makes the loop ask for page 100 again and again, skipping the pages
      in between, and never settle. */
  lemma PerPageLinkRepeatsPage(base: string, n: nat, stargazers: seq<Stargazer>)
    requires base != [] && base[0] !in {'<', '>'}
    requires ',' !in base && ';' !in base && !Contains(base, "page")
    ensures PageFromResponse(stargazers, NextLink(PerPageUrl(base, 100, n)), false) == Page(stargazers, 100, false)
  {
    PerPageLinkNames(base, 100, n);
  }

  lemma PerPageLinkNames(base: string, m: nat, n: nat)
    requires m <= MaxInt64
    requires base != [] && base[0] !in {'<', '>'}
    requires ',' !in base && ';' !in base && !Contains(base, "page")
    ensures ParseNextPage(NextLink(PerPageUrl(base, m, n))) == m
  {
    var url := PerPageUrl(base, m, n);
    PerPageParameterFirst(base, m, n);
    PerPageUrlShape(base, m, n);
    NextLinkFirst(url, "", m);
  }

  lemma PerPageUrlShape(base: string, m: nat, n: nat)
    requires base != [] && base[0] !in {'<', '>'}
    requires ',' !in base && ';' !in base
    ensures var url := PerPageUrl(base, m, n);
      url != [] && url[0] !in {'<', '>'} && url[|url| - 1] !in {'<', '>'} && ',' !in url && ';' !in url
  {
    var dm := NatToString(m);
    var dn := NatToString(n);
    var url := PerPageUrl(base, m, n);
    assert url[0] == base[0];
    assert url[|url| - 1] == dn[|dn| - 1];
    assert IsDigit(dn[|dn| - 1]);
    assert forall c :: c in dm ==> IsDigit(c);
    assert forall c :: c in dn ==> IsDigit(c);
  }

  lemma SettlesTail(rs: seq<PageResponse>)
    requires Settles(rs) && !Stops(rs[0])
    ensures Settles(rs[1..])
  {
    var k :| 0 <= k < |rs| && Stops(rs[k]);
    assert rs[1..][k - 1] == rs[k];
  }

  /** The index of the response at which the loop ends. */
  function StopAt(rs: seq<PageResponse>): (k: nat)
    requires Settles(rs)
    ensures k < |rs| && Stops(rs[k])
    ensures forall j :: 0 <= j < k ==> !Stops(rs[j])
    decreases |rs|
  {
    if Stops(rs[0]) then 0
    else
      SettlesTail(rs);
      var k := StopAt(rs[1..]);
      assert forall j :: 1 <= j <= k ==> rs[j] == rs[1..][j - 1];
      k + 1
  }

  /** `acc` in front of a successful result, an error left alone. */
  function Prepend(acc: seq<Stargazer>, r: Result<seq<Stargazer>, Error>): Result<seq<Stargazer>, Error> {
    match r
    case Success(more) => Success(acc + more)
    case Failure(e) => Failure(e)
  }

  lemma PrependNothing(r: Result<seq<Stargazer>, Error>)
    ensures Prepend([], r) == r
  {
    if r.Success? {
      assert [] + r.value == r.value;
    }
  }

  lemma PrependTwice(a: seq<Stargazer>, b: seq<Stargazer>, r: Result<seq<Stargazer>, Error>)
    ensures Prepend(a, Prepend(b, r)) == Prepend(a + b, r)
  {
    if r.Success? {
      assert a + (b + r.value) == (a + b) + r.value;
    }
  }

  /** The result of `GetStargazers` for the given responses. */
  function Fetch(rs: seq<PageResponse>): Result<seq<Stargazer>, Error>
    requires Settles(rs)
    decreases |rs|
  {
    match rs[0]
    case PageFailed(e) => Failure(e)
    case Page(page, nextPage, cancelled) =>
      if nextPage == 0 then Success(page)
      else if cancelled then Failure(Canceled)
      else
        SettlesTail(rs);
        Prepend(page, Fetch(rs[1..]))
  }

  /** The stargazers of the successful pages, in order. */
  function Concat(rs: seq<PageResponse>): seq<Stargazer> {
    if rs == [] then []
    else (if rs[0].Page? then rs[0].stargazers else []) + Concat(rs[1..])
  }

  /** A page that names a next page and is not cancelled is followed by the rest. */
  lemma FetchStep(rs: seq<PageResponse>)
    requires Settles(rs) && rs[0].Page? && rs[0].nextPage != 0 && !rs[0].cancelledAfter
    ensures Settles(rs[1..])
    ensures Fetch(rs) == Prepend(rs[0].stargazers, Fetch(rs[1..]))
  {
    SettlesTail(rs);
  }

  /** `GetStargazers` succeeds exactly when the last page it reads has no
      next page; its result is then every page read, in request order. Any
      page error is returned as it is, with nothing of the earlier pages,
      and a cancellation once a next page is known gives the context error. */
  lemma {:induction false} FetchCharacterized(rs: seq<PageResponse>)
    requires Settles(rs)
    ensures var k := StopAt(rs);
      && (Fetch(rs).Success? <==> rs[k].Page? && rs[k].nextPage == 0)
      && (Fetch(rs).Success? ==> Fetch(rs).value == Concat(rs[..k + 1]))
      && (rs[k].PageFailed? ==> Fetch(rs) == Failure(rs[k].err))
      && (rs[k].Page? && rs[k].nextPage != 0 ==> Fetch(rs) == Failure(Canceled))
    decreases |rs|
  {
    var k := StopAt(rs);
    if !Stops(rs[0]) {
      SettlesTail(rs);
      FetchCharacterized(rs[1..]);
      var k' := StopAt(rs[1..]);
      assert k == k' + 1 by {
        StopAtUnique(rs, k' + 1);
      }
      assert rs[1..][k'] == rs[k];
      assert rs[..k + 1] == [rs[0]] + rs[1..][..k' + 1];
    } else {
      assert k == 0;
      assert rs[..1] == [rs[0]];
    }
  }

  /** The first stopping response is the only one with no stopping response before it. */
  lemma StopAtUnique(rs: seq<PageResponse>, k: nat)
    requires Settles(rs) && k < |rs| && Stops(rs[k])
    requires forall j :: 0 <= j < k ==> !Stops(rs[j])
    ensures StopAt(rs) == k
  {
  }

  /** The page requested in round `i`: 1 first, then the page the previous
      response named. */
  function PageAt(rs: seq<PageResponse>, i: nat): int
    requires Settles(rs) && i <= StopAt(rs)
  {
    if i == 0 then 1 else rs[i - 1].nextPage
  }

  /** The pages requested in the first `n` rounds. */
  function PageNumbers(rs: seq<PageResponse>, n: nat): (pages: seq<int>)
    requires Settles(rs) && n <= StopAt(rs) + 1
    ensures |pages| == n
  {
    seq(n, k requires 0 <= k < n => PageAt(rs, k))
  }

  lemma PageNumbersStep(rs: seq<PageResponse>, i: nat)
    requires Settles(rs) && i <= StopAt(rs)
    ensures PageNumbers(rs, i + 1) == PageNumbers(rs, i) + [PageAt(rs, i)]
  {
  }

  /** What the response that stops the pagination makes of it. */
  function Final(r: PageResponse): Result<seq<Stargazer>, Error>
    requires Stops(r)
  {
    if r.PageFailed? then Failure(r.err)
    else if r.nextPage == 0 then Success(r.stargazers)
    else Failure(Canceled)
  }

  /** The loop of `GetStargazers` ends at the first response that stops it. */
  lemma StopHere(rs: seq<PageResponse>, i: nat, all: seq<Stargazer>, pages: seq<int>)
    requires Settles(rs) && i <= StopAt(rs) && Stops(rs[i])
    requires Settles(rs[i..]) && Fetch(rs) == Prepend(all, Fetch(rs[i..]))
    requires pages == PageNumbers(rs, i + 1)
    ensures i == StopAt(rs) && Fetch(rs) == Prepend(all, Final(rs[i]))
    ensures |pages| == StopAt(rs) + 1 && pages[0] == 1
    ensures forall k :: 0 < k < |pages| ==> pages[k] == rs[k - 1].nextPage
  {
    assert rs[i..][0] == rs[i];
  }

  /** A round whose page names a next page, uncancelled, hands its
      stargazers on and moves to the next response. */
  lemma FetchAdvance(rs: seq<PageResponse>, i: nat, before: seq<Stargazer>)
    requires Settles(rs) && i <= StopAt(rs) && Settles(rs[i..])
    requires rs[i].Page? && rs[i].nextPage != 0 && !rs[i].cancelledAfter
    requires Fetch(rs) == Prepend(before, Fetch(rs[i..]))
    ensures i + 1 <= StopAt(rs) && PageAt(rs, i + 1) == rs[i].nextPage
    ensures Settles(rs[i + 1..]) && Fetch(rs) == Prepend(before + rs[i].stargazers, Fetch(rs[i + 1..]))
  {
    assert rs[i..][0] == rs[i];
    FetchStep(rs[i..]);
    assert rs[i..][1..] == rs[i + 1..];
    PrependTwice(before, rs[i].stargazers, Fetch(rs[i + 1..]));
  }

  /** `GetStargazers`: request page 1, then each next page the `Link` header
      names, appending the stargazers of each page; `pages` are the page
      numbers requested, in order. */
  method GetStargazers(rs: seq<PageResponse>) returns (r: Result<seq<Stargazer>, Error>, pages: seq<int>)
    requires Settles(rs)
    ensures r == Fetch(rs)
    ensures |pages| == StopAt(rs) + 1 && pages[0] == 1
    ensures forall k :: 0 < k < |pages| ==> pages[k] == rs[k - 1].nextPage
  {
    var all: seq<Stargazer> := [];
    var page := 1;
    var i := 0;
    pages := [];
    assert rs[0..] == rs;
    PrependNothing(Fetch(rs));
    while true
      invariant i <= StopAt(rs)
      invariant Settles(rs[i..])
      invariant Fetch(rs) == Prepend(all, Fetch(rs[i..]))
      invariant pages == PageNumbers(rs, i) && page == PageAt(rs, i)
      decreases StopAt(rs) - i
    {
      PageNumbersStep(rs, i);
      pages := pages + [page];
      var response := rs[i];
      if response.PageFailed? {
        StopHere(rs, i, all, pages);
        return Failure(response.err), pages;
      }
      ghost var before := all;
      all := all + response.stargazers;
      var nextPage := response.nextPage;
      if nextPage == 0 {
        StopHere(rs, i, before, pages);
        return Success(all), pages;
      }
      page := nextPage;
      if response.cancelledAfter {
        StopHere(rs, i, before, pages);
        return Failure(Canceled), pages;
      }
      FetchAdvance(rs, i, before);
      i := i + 1;
    }
  }

  // ---------------------------------------------------------------------------
  // The retry wrappers

  /** One attempt of a retry loop: what the wrapped call returned, whether the
      context is found cancelled right after a failure, and whether it is
      cancelled while waiting out the backoff that follows. */
  datatype Attempt<T> = Attempt(outcome: Result<T, Error>, cancelledAfter: bool, cancelledInBackoff: bool)

  /** What a retry wrapper returns: a value, an error, or (when `maxRetries`
      is negative and the loop never runs) neither. */
  datatype Outcome<T> = Got(value: T) | Failed(error: Error) | NoAttempt

  /** The outcome, the number of attempts made and the backoff waits begun. */
  datatype Run<T> = Run(outcome: Outcome<T>, attempts: nat, waits: seq<int>)

  /** The retry loop from iteration `i` on, with the error of the previous
      attempt; `exemptRateLimited` stops at a rate-limited GitHub error. */
  function RetryFrom<T>(tries: seq<Attempt<T>>, i: nat, maxRetries: int, backoff: int,
                        exemptRateLimited: bool, lastErr: Option<Error>): Run<T>
    requires maxRetries < |tries|
    decreases maxRetries + 1 - i
  {
    if i > maxRetries then
      Run(if lastErr.Some? then Failed(lastErr.value) else NoAttempt, 0, [])
    else
      var a := tries[i];
      match a.outcome
      case Success(v) => Run(Got(v), 1, [])
      case Failure(err) =>
        if exemptRateLimited && IsRateLimited(err) then Run(Failed(err), 1, [])
        else if a.cancelledAfter then Run(Failed(Canceled), 1, [])
        else if i < maxRetries && a.cancelledInBackoff then
          Run(Failed(Canceled), 1, [Times(i + 1, backoff)])
        else
          var rest := RetryFrom(tries, i + 1, maxRetries, backoff, exemptRateLimited, Some(err));
          Run(rest.outcome, rest.attempts + 1, (if i < maxRetries then [Times(i + 1, backoff)] else []) + rest.waits)
  }

  function Retry<T>(tries: seq<Attempt<T>>, maxRetries: int, backoff: int, exemptRateLimited: bool): Run<T>
    requires maxRetries < |tries|
  {
    RetryFrom(tries, 0, maxRetries, backoff, exemptRateLimited, None)
  }

  /** At most `maxRetries + 1` attempts, at least one unless `maxRetries` is
      negative; the wait before attempt k+2 is `backoff*(k+1)`, and there is
      no wait after the last attempt. */
  lemma {:induction false} RetryBounds<T>(tries: seq<Attempt<T>>, i: nat, maxRetries: int, backoff: int,
                                          exempt: bool, lastErr: Option<Error>)
    requires maxRetries < |tries|
    requires i <= maxRetries + 1 || i == 0
    ensures var r := RetryFrom(tries, i, maxRetries, backoff, exempt, lastErr);
      && r.attempts <= (if i > maxRetries then 0 else maxRetries + 1 - i)
      && (r.attempts == 0 <==> i > maxRetries)
      && |r.waits| <= r.attempts
      && (r.waits != [] ==> i + |r.waits| <= maxRetries)
      && forall k :: 0 <= k < |r.waits| ==> r.waits[k] == Times(i + k + 1, backoff)
    decreases maxRetries + 1 - i
  {
    if i <= maxRetries && tries[i].outcome.Failure? {
      var err := tries[i].outcome.error;
      if !(exempt && IsRateLimited(err)) && !tries[i].cancelledAfter && !(i < maxRetries && tries[i].cancelledInBackoff) {
        RetryBounds(tries, i + 1, maxRetries, backoff, exempt, Some(err));
      }
    }
  }

  /** The loop runs only when `maxRetries` is not negative. */
  lemma RetryRunsIffRetriesNonNegative<T>(tries: seq<Attempt<T>>, maxRetries: int, backoff: int, exempt: bool)
    requires maxRetries < |tries|
    ensures Retry(tries, maxRetries, backoff, exempt).outcome.NoAttempt? <==> maxRetries < 0
  {
    if maxRetries >= 0 {
      RetryNeverEmpty(tries, 0, maxRetries, backoff, exempt, None);
    }
  }

  lemma {:induction false} RetryNeverEmpty<T>(tries: seq<Attempt<T>>, i: nat, maxRetries: int, backoff: int,
                                              exempt: bool, lastErr: Option<Error>)
    requires maxRetries < |tries|
    requires i <= maxRetries
    ensures !RetryFrom(tries, i, maxRetries, backoff, exempt, lastErr).outcome.NoAttempt?
    decreases maxRetries + 1 - i
  {
    if tries[i].outcome.Failure? && i + 1 <= maxRetries {
      RetryNeverEmpty(tries, i + 1, maxRetries, backoff, exempt, Some(tries[i].outcome.error));
    }
  }

  /** Every attempt but the last failed with no cancellation observed and no
      rate-limit stop; a value returned is the last attempt's. */
  lemma {:induction false} RetryContinuesOnlyPastFailures<T>(tries: seq<Attempt<T>>, i: nat, maxRetries: int,
                                                            backoff: int, exempt: bool, lastErr: Option<Error>)
    requires maxRetries < |tries|
    requires i <= maxRetries + 1 || i == 0
    ensures var r := RetryFrom(tries, i, maxRetries, backoff, exempt, lastErr);
      && i + r.attempts <= |tries|
      && (forall k :: i <= k < i + r.attempts - 1 ==>
            && tries[k].outcome.Failure? && !tries[k].cancelledAfter && !tries[k].cancelledInBackoff
            && !(exempt && IsRateLimited(tries[k].outcome.error)))
      && (r.outcome.Got? ==> r.attempts > 0 && tries[i + r.attempts - 1].outcome == Success(r.outcome.value))
    decreases maxRetries + 1 - i
  {
    if i <= maxRetries && tries[i].outcome.Failure? {
      var err := tries[i].outcome.error;
      if !(exempt && IsRateLimited(err)) && !tries[i].cancelledAfter && !(i < maxRetries && tries[i].cancelledInBackoff) {
        RetryContinuesOnlyPastFailures(tries, i + 1, maxRetries, backoff, exempt, Some(err));
        RetryBounds(tries, i + 1, maxRetries, backoff, exempt, Some(err));
      }
    }
  }

  /** When every allowed attempt fails and nothing stops the loop early, all
      `maxRetries + 1` attempts are made and the last error is returned. */
  lemma {:induction false} RetryExhausted<T>(tries: seq<Attempt<T>>, i: nat, maxRetries: int, backoff: int,
                                             exempt: bool, lastErr: Option<Error>)
    requires maxRetries < |tries|
    requires i <= maxRetries
    requires forall k :: i <= k <= maxRetries ==>
      && tries[k].outcome.Failure? && !tries[k].cancelledAfter
      && (k < maxRetries ==> !tries[k].cancelledInBackoff)
      && !(exempt && IsRateLimited(tries[k].outcome.error))
    ensures RetryFrom(tries, i, maxRetries, backoff, exempt, lastErr).outcome == Failed(tries[maxRetries].outcome.error)
    ensures RetryFrom(tries, i, maxRetries, backoff, exempt, lastErr).attempts == maxRetries + 1 - i
    decreases maxRetries + 1 - i
  {
    if i < maxRetries {
      RetryExhausted(tries, i + 1, maxRetries, backoff, exempt, Some(tries[i].outcome.error));
    }
  }

  /** Attempt k that fails and finds the context cancelled, after attempts
      that failed and went on, ends the loop with the context's error after
      k+1 attempts: no attempt follows a cancellation. */
  lemma {:induction false} RetryCancelled<T>(tries: seq<Attempt<T>>, i: nat, maxRetries: int, backoff: int,
                                             exempt: bool, lastErr: Option<Error>, k: nat)
    requires maxRetries < |tries|
    requires i <= k <= maxRetries
    requires forall j :: i <= j < k ==>
      && tries[j].outcome.Failure? && !tries[j].cancelledAfter && !tries[j].cancelledInBackoff
      && !(exempt && IsRateLimited(tries[j].outcome.error))
    requires tries[k].outcome.Failure? && !(exempt && IsRateLimited(tries[k].outcome.error))
    requires tries[k].cancelledAfter || (k < maxRetries && tries[k].cancelledInBackoff)
    ensures RetryFrom(tries, i, maxRetries, backoff, exempt, lastErr).outcome == Failed(Canceled)
    ensures RetryFrom(tries, i, maxRetries, backoff, exempt, lastErr).attempts == k + 1 - i
    decreases k - i
  {
    if i < k {
      RetryCancelled(tries, i + 1, maxRetries, backoff, exempt, Some(tries[i].outcome.error), k);
    }
  }

  /** A rate-limited GitHub error ends the stargazer retry loop at once. */
  lemma RateLimitedNotRetried<T>(tries: seq<Attempt<T>>, maxRetries: int, backoff: int)
    requires 0 <= maxRetries < |tries|
    requires tries[0].outcome.Failure? && IsRateLimited(tries[0].outcome.error)
    ensures Retry(tries, maxRetries, backoff, true) == Run(Failed(tries[0].outcome.error), 1, [])
  {
  }

  /** `GetStargazersWithRetry` attempts: the page responses one call of
      `GetStargazers` receives, and the two cancellation observations. */
  datatype FetchAttempt = FetchAttempt(pages: seq<PageResponse>, cancelledAfter: bool, cancelledInBackoff: bool)

  predicate AllSettle(attempts: seq<FetchAttempt>) {
    forall k :: 0 <= k < |attempts| ==> Settles(attempts[k].pages)
  }

  /** Each fetch attempt tries the retry loop sees it. */
  function FetchOutcomes(attempts: seq<FetchAttempt>): (tries: seq<Attempt<seq<Stargazer>>>)
    requires AllSettle(attempts)
    ensures |tries| == |attempts|
  {
    seq(|attempts|, k requires 0 <= k < |attempts| =>
      Attempt(Fetch(attempts[k].pages), attempts[k].cancelledAfter, attempts[k].cancelledInBackoff))
  }

  /** The remaining run after `i` attempts placed after the attempts made and
      waits begun so far. */
  function After<T>(i: nat, waits: seq<int>, r: Run<T>): Run<T> {
    Run(r.outcome, i + r.attempts, waits + r.waits)
  }

  /** One failed attempt that neither stops the loop nor is cancelled moves
      the loop on by one iteration and at most one wait. */
  lemma RetryStep<T>(tries: seq<Attempt<T>>, i: nat, maxRetries: int, backoff: int, exempt: bool,
                     prior: Option<Error>, waits: seq<int>)
    requires maxRetries < |tries| && i <= maxRetries
    requires tries[i].outcome.Failure?
    requires !(exempt && IsRateLimited(tries[i].outcome.error)) && !tries[i].cancelledAfter
    requires !(i < maxRetries && tries[i].cancelledInBackoff)
    ensures After(i, waits, RetryFrom(tries, i, maxRetries, backoff, exempt, prior))
         == After(i + 1, waits + (if i < maxRetries then [Times(i + 1, backoff)] else []),
                  RetryFrom(tries, i + 1, maxRetries, backoff, exempt, Some(tries[i].outcome.error)))
  {
    var w: seq<int> := if i < maxRetries then [Times(i + 1, backoff)] else [];
    var rest := RetryFrom(tries, i + 1, maxRetries, backoff, exempt, Some(tries[i].outcome.error));
    assert waits + (w + rest.waits) == (waits + w) + rest.waits;
  }

  /** `GetStargazersWithRetry`: up to `maxRetries + 1` calls of `GetStargazers`
      with a linear backoff between them; a rate-limited error or a
      cancellation ends the loop at once. */
  method GetStargazersWithRetry(attempts: seq<FetchAttempt>, maxRetries: int, backoff: int)
    returns (r: Outcome<seq<Stargazer>>, made: nat, waits: seq<int>)
    requires maxRetries < |attempts|
    requires AllSettle(attempts)
    ensures Run(r, made, waits) == Retry(FetchOutcomes(attempts), maxRetries, backoff, true)
  {
    ghost var tries := FetchOutcomes(attempts);
    var lastErr: Option<Error> := None;
    waits := [];
    var i := 0;
    while i <= maxRetries
      invariant i <= maxRetries + 1 || i == 0
      invariant Retry(tries, maxRetries, backoff, true)
             == After(i, waits, RetryFrom(tries, i, maxRetries, backoff, true, lastErr))
    {
      var result, _ := GetStargazers(attempts[i].pages);
      assert tries[i] == Attempt(result, attempts[i].cancelledAfter, attempts[i].cancelledInBackoff);
      if result.Success? {
        return Got(result.value), i + 1, waits;
      }
      var err := result.error;
      ghost var prior := lastErr;
      lastErr := Some(err);
      if IsRateLimited(err) {
        return Failed(err), i + 1, waits;
      }
      if attempts[i].cancelledAfter {
        return Failed(Canceled), i + 1, waits;
      }
      ghost var w0 := waits;
      if i < maxRetries {
        waits := waits + [Times(i + 1, backoff)];
        if attempts[i].cancelledInBackoff {
          return Failed(Canceled), i + 1, waits;
        }
      }
      RetryStep(tries, i, maxRetries, backoff, true, prior, w0);
      i := i + 1;
    }
    r := if lastErr.Some? then Failed(lastErr.value) else NoAttempt;
    made := i;
  }

  /** `GetRateLimitWithRetry`: the same loop around the rate-limit request,
      without the rate-limit stop. */
  method GetRateLimitWithRetry(tries: seq<Attempt<RateLimit>>, maxRetries: int, backoff: int)
    returns (r: Outcome<RateLimit>, made: nat, waits: seq<int>)
    requires maxRetries < |tries|
    ensures Run(r, made, waits) == Retry(tries, maxRetries, backoff, false)
  {
    var lastErr: Option<Error> := None;
    waits := [];
    var i := 0;
    while i <= maxRetries
      invariant i <= maxRetries + 1 || i == 0
      invariant Retry(tries, maxRetries, backoff, false)
             == After(i, waits, RetryFrom(tries, i, maxRetries, backoff, false, lastErr))
    {
      var attempt := tries[i];
      if attempt.outcome.Success? {
        return Got(attempt.outcome.value), i + 1, waits;
      }
      var err := attempt.outcome.error;
      ghost var prior := lastErr;
      lastErr := Some(err);
      if attempt.cancelledAfter {
        return Failed(Canceled), i + 1, waits;
      }
      ghost var w0 := waits;
      if i < maxRetries {
        waits := waits + [Times(i + 1, backoff)];
        if attempt.cancelledInBackoff {
          return Failed(Canceled), i + 1, waits;
        }
      }
      RetryStep(tries, i, maxRetries, backoff, false, prior, w0);
      i := i + 1;
    }
    r := if lastErr.Some? then Failed(lastErr.value) else NoAttempt;
    made := i;
  }
}
