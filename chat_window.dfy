/** The open chat window of the live chat page: how an outgoing message is
    tidied, when a date tag separates two messages, which footer the
    block status selects, and when scrolling up stops asking for older
    messages. */
module ChatWindow {
  import opened Wrappers
  import Duration
  import LiveChat

  // ---------------------------------------------------------------------
  // Lines of a message
  // ---------------------------------------------------------------------

  predicate NoNewline(line: string) {
    '\n' !in line
  }

  /** `split("\n")`: the lines between the newlines, at least one. */
  function Split(s: string): (lines: seq<string>)
    ensures |lines| >= 1
    ensures forall i :: 0 <= i < |lines| ==> NoNewline(lines[i])
  {
    if s == [] then [""]
    else
      var init := Split(s[..|s| - 1]);
      var c := s[|s| - 1];
      if c == '\n' then init + [""]
      else init[..|init| - 1] + [init[|init| - 1] + [c]]
  }

  /** `join("\n")`. */
  function Join(lines: seq<string>): string
    requires |lines| >= 1
  {
    if |lines| == 1 then lines[0] else Join(lines[..|lines| - 1]) + "\n" + lines[|lines| - 1]
  }

  /** Joining the lines of a text gives the text back. */
  lemma {:induction false} JoinSplit(s: string)
    ensures Join(Split(s)) == s
  {
    if s != [] {
      var p := s[..|s| - 1];
      var c := s[|s| - 1];
      JoinSplit(p);
      var init := Split(p);
      if c == '\n' {
        assert (init + [""])[..|init|] == init;
      } else if |init| > 1 {
        var front := init[..|init| - 1];
        assert (front + [init[|init| - 1] + [c]])[..|front|] == front;
        assert init[..|init| - 1][..|front|] == front;
      }
      assert p + [c] == s;
    }
  }

  /** Appending newline-free text extends the last line. */
  lemma {:induction false} SplitAppend(s: string, t: string)
    requires NoNewline(t)
    ensures var l := Split(s); Split(s + t) == l[..|l| - 1] + [l[|l| - 1] + t]
    decreases |t|
  {
    if t != [] {
      var t' := t[..|t| - 1];
      SplitAppend(s, t');
      var l := Split(s);
      var c := t[|t| - 1];
      assert c in t;
      assert (s + t)[..|s + t| - 1] == s + t';
      assert (s + t)[|s + t| - 1] == c;
      var init := Split(s + t');
      assert init[..|init| - 1] == l[..|l| - 1];
      assert (l[|l| - 1] + t') + [c] == l[|l| - 1] + t;
    } else {
      var l := Split(s);
      assert s + t == s;
      assert l[|l| - 1] + t == l[|l| - 1];
      assert l[..|l| - 1] + [l[|l| - 1]] == l;
    }
  }

  /** Splitting joined newline-free lines gives the lines back. */
  lemma {:induction false} SplitJoin(lines: seq<string>)
    requires |lines| >= 1 && forall i :: 0 <= i < |lines| ==> NoNewline(lines[i])
    ensures Split(Join(lines)) == lines
  {
    if |lines| == 1 {
      SplitAppend([], lines[0]);
      assert [] + lines[0] == lines[0];
      assert Split([]) == [""];
      assert "" + lines[0] == lines[0];
    } else {
      var init := lines[..|lines| - 1];
      var last := lines[|lines| - 1];
      SplitJoin(init);
      var withNewline := Join(init) + "\n";
      assert withNewline[..|withNewline| - 1] == Join(init);
      assert Split(withNewline) == init + [""];
      SplitAppend(withNewline, last);
      assert (init + [""])[..|init|] == init;
      assert "" + last == last;
      assert Join(lines) == withNewline + last;
      assert init + [last] == lines;
    }
  }

  /** A line of white space only, which `trim()` empties (see
      `BlankIffTrimEmpty`). */
  predicate Blank(line: string) {
    forall k :: 0 <= k < |line| ==> Duration.IsWhitespace(line[k])
  }

  /** The lines left after the leading blank ones are shifted off. */
  function DropLeadingBlank(lines: seq<string>): (r: seq<string>)
    ensures |r| <= |lines| && r == lines[|lines| - |r|..]
    ensures r == [] || !Blank(r[0])
    ensures forall i :: 0 <= i < |lines| - |r| ==> Blank(lines[i])
  {
    if lines == [] || !Blank(lines[0]) then lines else DropLeadingBlank(lines[1..])
  }

  /** The lines left after the trailing blank ones are popped off. */
  function DropTrailingBlank(lines: seq<string>): (r: seq<string>)
    ensures |r| <= |lines| && r == lines[..|r|]
    ensures r == [] || !Blank(r[|r| - 1])
    ensures forall i :: |r| <= i < |lines| ==> Blank(lines[i])
  {
    if lines == [] || !Blank(lines[|lines| - 1]) then lines else DropTrailingBlank(lines[..|lines| - 1])
  }

  /** Some character of the text is not white space: the text is sent. */
  predicate HasContent(msg: string) {
    exists i :: 0 <= i < |msg| && !Duration.IsWhitespace(msg[i])
  }

  /** A text with content has a line with content. */
  lemma ContentLine(msg: string)
    requires HasContent(msg)
    ensures exists j :: 0 <= j < |Split(msg)| && !Blank(Split(msg)[j])
  {
    var i :| 0 <= i < |msg| && !Duration.IsWhitespace(msg[i]);
    ContentLineAt(msg, i);
  }

  lemma {:induction false} ContentLineAt(msg: string, i: int)
    requires 0 <= i < |msg| && !Duration.IsWhitespace(msg[i])
    ensures exists j :: 0 <= j < |Split(msg)| && !Blank(Split(msg)[j])
    decreases |msg|
  {
    var p := msg[..|msg| - 1];
    var c := msg[|msg| - 1];
    var init := Split(p);
    if i < |msg| - 1 {
      assert p[i] == msg[i];
      ContentLineAt(p, i);
      var j :| 0 <= j < |init| && !Blank(init[j]);
      if c == '\n' {
        assert Split(msg)[j] == init[j];
      } else if j < |init| - 1 {
        assert Split(msg)[j] == init[j];
      } else {
        LineWithContent(init[j], c);
        assert Split(msg)[j] == init[j] + [c];
      }
    } else {
      assert c != '\n';
      LineWithContent(init[|init| - 1], c);
      assert Split(msg)[|init| - 1] == init[|init| - 1] + [c];
    }
  }

  /** A line stays non-blank when a character is added, and becomes
      non-blank when that character is not white space. */
  lemma LineWithContent(line: string, c: char)
    requires !Blank(line) || !Duration.IsWhitespace(c)
    ensures !Blank(line + [c])
  {
    var l := line + [c];
    if !Duration.IsWhitespace(c) {
      assert l[|line|] == c;
    } else {
      var k :| 0 <= k < |line| && !Duration.IsWhitespace(line[k]);
      assert l[k] == line[k];
    }
  }

  /** A line is blank exactly when its `trim()` is empty. */
  lemma BlankIffTrimEmpty(line: string)
    ensures Blank(line) <==> Duration.Trim(line) == []
  {
    Duration.TrimEmptyIffBlank(line);
  }

  /** The lines between the first and the last line with content. */
  function Kept(msg: string): seq<string> {
    DropTrailingBlank(DropLeadingBlank(Split(msg)))
  }

  /** The first and then the last line trimmed, as `formatMessage` does
      it: a single line is trimmed twice. */
  function TrimmedEnds(kept: seq<string>): (r: seq<string>)
    requires kept != []
    ensures |r| == |kept|
  {
    var first := kept[0 := Duration.Trim(kept[0])];
    first[|first| - 1 := Duration.Trim(first[|first| - 1])]
  }

  /** `formatMessage`'s result: the kept lines with the first and last
      trimmed, joined again. */
  function Formatted(msg: string): string
    requires HasContent(msg)
  {
    KeptNonEmpty(msg);
    Join(TrimmedEnds(Kept(msg)))
  }

  lemma KeptNonEmpty(msg: string)
    requires HasContent(msg)
    ensures Kept(msg) != [] && !Blank(Kept(msg)[0]) && !Blank(Kept(msg)[|Kept(msg)| - 1])
  {
    ContentLine(msg);
    var lines := Split(msg);
    var j :| 0 <= j < |lines| && !Blank(lines[j]);
    var d := DropLeadingBlank(lines);
    assert j >= |lines| - |d|;
    assert d[j - (|lines| - |d|)] == lines[j];
    var k := DropTrailingBlank(d);
    assert j - (|lines| - |d|) < |k|;
  }

  /** The first loop of `formatMessage`: shifts blank lines off the front. */
  method ShiftBlank(lines: seq<string>) returns (rest: seq<string>)
    ensures rest == DropLeadingBlank(lines)
  {
    rest := lines;
    while |rest| > 0 && Blank(rest[0])
      invariant DropLeadingBlank(lines) == DropLeadingBlank(rest)
      decreases |rest|
    {
      rest := rest[1..];
    }
  }

  /** The second loop of `formatMessage`: pops blank lines off the back. */
  method PopBlank(lines: seq<string>) returns (rest: seq<string>)
    ensures rest == DropTrailingBlank(lines)
  {
    rest := lines;
    while |rest| > 0 && Blank(rest[|rest| - 1])
      invariant DropTrailingBlank(lines) == DropTrailingBlank(rest)
      decreases |rest|
    {
      rest := rest[..|rest| - 1];
    }
  }

  /** `formatMessage`: shifts the blank lines off the front, pops them off
      the back, trims the first and last remaining lines, and joins them. */
  method FormatMessage(msg: string) returns (formatted: string)
    requires HasContent(msg)
    ensures formatted == Formatted(msg)
  {
    var lines := ShiftBlank(Split(msg));
    lines := PopBlank(lines);
    KeptNonEmpty(msg);
    lines := lines[0 := Duration.Trim(lines[0])];
    lines := lines[|lines| - 1 := Duration.Trim(lines[|lines| - 1])];
    formatted := Join(lines);
  }

  // ---------------------------------------------------------------------
  // Properties of the formatting
  // ---------------------------------------------------------------------

  /** A line that starts and ends with a character that is not white
      space. */
  predicate Settled(line: string) {
    line != [] && !Duration.IsWhitespace(line[0]) && !Duration.IsWhitespace(line[|line| - 1])
  }

  /** A trimmed text is empty or settled. */
  lemma TrimEdges(s: string)
    ensures var t := Duration.Trim(s); t == [] || Settled(t)
  {
    var e := Duration.TrimEnd(s);
    var t := Duration.TrimStart(e);
    Duration.TrimEndPrefix(s);
    Duration.TrimStartSuffix(e);
    if t != [] {
      assert t[|t| - 1] == e[|e| - 1];
    }
  }

  /** Trimming a settled line changes nothing. */
  lemma SettledTrim(line: string)
    requires Settled(line)
    ensures Duration.Trim(line) == line
  {
    assert Duration.TrimEnd(line) == line;
  }

  /** Trimming twice trims once. */
  lemma TrimTwice(x: string)
    ensures Duration.Trim(Duration.Trim(x)) == Duration.Trim(x)
  {
    var t := Duration.Trim(x);
    TrimEdges(x);
    if t != [] {
      SettledTrim(t);
    }
  }

  /** The text a line joined at the front of others starts with. */
  lemma {:induction false} JoinStarts(lines: seq<string>)
    requires |lines| >= 1
    ensures lines[0] <= Join(lines)
  {
    if |lines| > 1 {
      JoinStarts(lines[..|lines| - 1]);
    }
  }

  /** The text ends with its last line. */
  lemma JoinEnds(lines: seq<string>)
    requires |lines| >= 1
    ensures var j := Join(lines); var l := lines[|lines| - 1];
      |l| <= |j| && j[|j| - |l|..] == l
  {
  }

  /** Trimming the ends trims the first and last line, and only those. */
  lemma TrimmedEndsSpec(kept: seq<string>)
    requires kept != []
    ensures var r := TrimmedEnds(kept);
      r[0] == Duration.Trim(kept[0]) && r[|r| - 1] == Duration.Trim(kept[|kept| - 1])
      && forall i :: 0 < i < |kept| - 1 ==> r[i] == kept[i]
  {
    if |kept| == 1 {
      TrimTwice(kept[0]);
    }
  }

  /** Newline-free lines with their ends trimmed split back from their
      join. */
  lemma SplitJoinTrimmed(kept: seq<string>)
    requires kept != [] && forall i :: 0 <= i < |kept| ==> NoNewline(kept[i])
    ensures Split(Join(TrimmedEnds(kept))) == TrimmedEnds(kept)
  {
    var both := TrimmedEnds(kept);
    TrimmedEndsSpec(kept);
    forall i | 0 <= i < |both|
      ensures NoNewline(both[i])
    {
      if i == 0 || i == |both| - 1 {
        TrimNoNewline(kept[i]);
      }
    }
    SplitJoin(both);
  }

  /** The formatted text splits back into the kept lines with their ends
      trimmed. */
  lemma SplitFormatted(msg: string)
    requires HasContent(msg)
    ensures Kept(msg) != [] && Split(Formatted(msg)) == TrimmedEnds(Kept(msg))
  {
    KeptNonEmpty(msg);
    KeptNoNewline(msg);
    SplitJoinTrimmed(Kept(msg));
  }

  /** The line list `formatMessage` joins: the kept lines, the first and
      the last trimmed, the lines between unchanged. */
  lemma FormattedLines(msg: string)
    requires HasContent(msg)
    ensures var kept := Kept(msg); var out := Split(Formatted(msg));
      |out| == |kept| >= 1
      && out[0] == Duration.Trim(kept[0])
      && out[|out| - 1] == Duration.Trim(kept[|kept| - 1])
      && forall i :: 0 < i < |kept| - 1 ==> out[i] == kept[i]
  {
    SplitFormatted(msg);
    TrimmedEndsSpec(Kept(msg));
  }

  /** Lines whose first and last are not blank have settled ends once
      trimmed. */
  lemma TrimmedEndsSettled(kept: seq<string>)
    requires kept != [] && !Blank(kept[0]) && !Blank(kept[|kept| - 1])
    ensures var r := TrimmedEnds(kept); Settled(r[0]) && Settled(r[|r| - 1])
  {
    TrimmedEndsSpec(kept);
    TrimEdges(kept[0]);
    TrimEdges(kept[|kept| - 1]);
    BlankIffTrimEmpty(kept[0]);
    BlankIffTrimEmpty(kept[|kept| - 1]);
  }

  /** Joined lines whose ends were trimmed start and end with a character
      that is not white space. */
  lemma JoinedEdges(kept: seq<string>)
    requires kept != [] && !Blank(kept[0]) && !Blank(kept[|kept| - 1])
    ensures Settled(Join(TrimmedEnds(kept)))
  {
    var r := TrimmedEnds(kept);
    TrimmedEndsSettled(kept);
    JoinStarts(r);
    JoinEnds(r);
    var f := Join(r);
    assert f[0] == r[0][0];
    var l := r[|r| - 1];
    assert f[|f| - |l|..][|l| - 1] == l[|l| - 1];
  }

  /** A formatted message starts and ends with a character that is not
      white space. */
  lemma FormattedEdges(msg: string)
    requires HasContent(msg)
    ensures Settled(Formatted(msg))
  {
    var kept := Kept(msg);
    KeptNonEmpty(msg);
    var f := Join(TrimmedEnds(kept));
    assert Formatted(msg) == f;
    JoinedEdges(kept);
  }

  /** Lines whose ends are settled are kept whole and trimmed to
      themselves. */
  lemma SettledLines(r: seq<string>)
    requires r != [] && Settled(r[0]) && Settled(r[|r| - 1])
    ensures DropTrailingBlank(DropLeadingBlank(r)) == r && TrimmedEnds(r) == r
  {
    assert !Blank(r[0]);
    assert !Blank(r[|r| - 1]);
    SettledTrim(r[0]);
    SettledTrim(r[|r| - 1]);
    assert r[0 := Duration.Trim(r[0])] == r;
  }

  /** Formatting a formatted message changes nothing. */
  lemma FormattedIdempotent(msg: string)
    requires HasContent(msg)
    ensures HasContent(Formatted(msg)) && Formatted(Formatted(msg)) == Formatted(msg)
  {
    var kept := Kept(msg);
    KeptNonEmpty(msg);
    var r := TrimmedEnds(kept);
    var f := Join(r);
    assert Formatted(msg) == f;
    JoinedEdges(kept);
    assert !Duration.IsWhitespace(f[0]);
    SplitFormatted(msg);
    TrimmedEndsSettled(kept);
    SettledLines(r);
    assert Kept(f) == r;
    assert Formatted(f) == Join(TrimmedEnds(r));
  }

  /** Kept lines hold no newline, and neither do they once trimmed. */
  lemma KeptNoNewline(msg: string)
    ensures forall i :: 0 <= i < |Kept(msg)| ==> NoNewline(Kept(msg)[i])
  {
    var lines := Split(msg);
    var d := DropLeadingBlank(lines);
    forall i | 0 <= i < |d|
      ensures NoNewline(d[i])
    {
      assert d[i] == lines[|lines| - |d| + i];
    }
    var k := DropTrailingBlank(d);
    assert Kept(msg) == k;
    forall i | 0 <= i < |k|
      ensures NoNewline(k[i])
    {
      assert k[i] == d[i];
    }
  }

  lemma TrimNoNewline(line: string)
    requires NoNewline(line)
    ensures NoNewline(Duration.Trim(line))
  {
    var e := Duration.TrimEnd(line);
    Duration.TrimEndPrefix(line);
    var t := Duration.TrimStart(e);
    Duration.TrimStartSuffix(e);
  }

  // ---------------------------------------------------------------------
  // Date tags
  // ---------------------------------------------------------------------

  /** `split("T")[0]`: the text before the first 'T', all of it without one. */
  function DatePart(s: string): (d: string)
    ensures d <= s && 'T' !in d
    ensures |d| < |s| ==> s[|d|] == 'T'
  {
    if s == [] || s[0] == 'T' then [] else [s[0]] + DatePart(s[1..])
  }

  /** `displayDateTag`: the date a new tag carries, or none when the two
      times fall on the same date and the message is neither the first
      nor the last loaded. A prepended tag carries the first time, an
      appended one the second. */
  function DateTag(time1: string, time2: string, method_: string, afterLoadOrFirst: bool): Option<string> {
    if DatePart(time1) == DatePart(time2) && !afterLoadOrFirst then None
    else if method_ == "prepend" then Some(time1)
    else Some(time2)
  }

  /** The date part of an ISO time is the text before its 'T'. */
  lemma {:induction false} DatePartIso(day: string, rest: string)
    requires 'T' !in day
    ensures DatePart(day + "T" + rest) == day
  {
    if day != [] {
      assert (day + "T" + rest)[1..] == day[1..] + "T" + rest;
      DatePartIso(day[1..], rest);
    }
  }

  /** Between two ISO times a tag is added exactly when their days differ,
      unless the message opens or closes what was loaded, which always
      gets one. */
  lemma DateTagSpec(day1: string, rest1: string, day2: string, rest2: string, method_: string, afterLoadOrFirst: bool)
    requires 'T' !in day1 && 'T' !in day2
    ensures var tag := DateTag(day1 + "T" + rest1, day2 + "T" + rest2, method_, afterLoadOrFirst);
      (tag.None? <==> day1 == day2 && !afterLoadOrFirst)
      && (tag.Some? ==> tag.value == if method_ == "prepend" then day1 + "T" + rest1 else day2 + "T" + rest2)
  {
    DatePartIso(day1, rest1);
    DatePartIso(day2, rest2);
  }

  // ---------------------------------------------------------------------
  // Footer and options for the block status
  // ---------------------------------------------------------------------

  const YOU_BLOCKED := "You have blocked this user"
  const BLOCKED_BY_USER := "You have been blocked by this user"

  /** What `manageChatFooter` shows: nothing for the tournament chat, an
      alert and no change for an error or a missing friendship, the input
      when nobody blocks, else a notice. */
  datatype Footer = BothHidden | Unchanged | InputFooter | BlockedFooter(notice: string)

  function ChatFooter(target: LiveChat.UserId, status: string): Footer {
    if target == LiveChat.TOURNAMENT_ID then BothHidden
    else if status == LiveChat.ERROR || status == LiveChat.NOT_FRIENDS then Unchanged
    else if status == LiveChat.NO_BLOCKS then InputFooter
    else if status == LiveChat.MUTUAL_BLOCK || status == LiveChat.TARGET_BLOCKED then BlockedFooter(YOU_BLOCKED)
    else BlockedFooter(BLOCKED_BY_USER)
  }

  /** The options window `checkBlocksForOptionsBtn` opens, `None` for the
      alert. */
  datatype OptionsMenu = ChatsMenu | ChatsMenuBlocked | ChatsMenuBlockedBy

  function OptionsFor(status: string): Option<OptionsMenu> {
    if status == LiveChat.ERROR || status == LiveChat.NOT_FRIENDS then None
    else if status == LiveChat.NO_BLOCKS then Some(ChatsMenu)
    else if status == LiveChat.MUTUAL_BLOCK || status == LiveChat.TARGET_BLOCKED then Some(ChatsMenuBlocked)
    else Some(ChatsMenuBlockedBy)
  }

  /** The footer follows who blocked whom, as the chat server answers it:
      the input exactly when nobody blocks, "You have blocked" exactly when
      the caller blocks the target, and "You have been blocked" exactly
      when only the target blocks the caller. */
  lemma FooterMeaning(c: LiveChat.Chat, u: LiveChat.UserId, t: LiveChat.UserId)
    requires u != t && t != LiveChat.TOURNAMENT_ID
    ensures var footer := ChatFooter(t, LiveChat.CheckBlocks(c, u, t));
      (footer == Unchanged <==> LiveChat.Key(u, t) !in c.friendships)
      && (LiveChat.Key(u, t) in c.friendships ==>
          (footer == InputFooter <==> !LiveChat.IsBlocked(c, u, t) && !LiveChat.IsBlocked(c, t, u))
          && (footer == BlockedFooter(YOU_BLOCKED) <==> LiveChat.IsBlocked(c, t, u))
          && (footer == BlockedFooter(BLOCKED_BY_USER) <==> LiveChat.IsBlocked(c, u, t) && !LiveChat.IsBlocked(c, t, u)))
  {
    if LiveChat.Key(u, t) in c.friendships {
      LiveChat.CheckBlocksMeaning(c, u, t);
    }
  }

  /** The options window agrees with the footer: the plain menu with the
      input, the blocked menus with the matching notices. */
  lemma OptionsMatchFooter(t: LiveChat.UserId, status: string)
    requires t != LiveChat.TOURNAMENT_ID
    ensures OptionsFor(status) == None <==> ChatFooter(t, status) == Unchanged
    ensures OptionsFor(status) == Some(ChatsMenu) <==> ChatFooter(t, status) == InputFooter
    ensures OptionsFor(status) == Some(ChatsMenuBlocked) <==> ChatFooter(t, status) == BlockedFooter(YOU_BLOCKED)
    ensures OptionsFor(status) == Some(ChatsMenuBlockedBy) <==> ChatFooter(t, status) == BlockedFooter(BLOCKED_BY_USER)
  {
  }

  // ---------------------------------------------------------------------
  // Loading older messages
  // ---------------------------------------------------------------------

  /** The module variables `nothingMoreToLoad` and `lastLoadedMsgTime`. */
  datatype Pager = Pager(nothingMoreToLoad: bool, lastLoadedMsgTime: string)

  /** `openChat`: loading may resume; the oldest message of the first page
      (given as the creation times the server returned) is the new cursor. */
  function Opened(p: Pager, page: seq<string>): (r: Pager)
    ensures !r.nothingMoreToLoad
  {
    Pager(false, if page == [] then p.lastLoadedMsgTime else page[|page| - 1])
  }

  /** Whether `onChatScroll` asks the server for older messages. */
  predicate Loads(p: Pager, scrollTop: int) {
    !(scrollTop > 200 || p.nothingMoreToLoad)
  }

  /** `onChatScroll`: near the top, and unless loading has stopped, an
      empty page stops it and a non-empty one moves the cursor. */
  function Scrolled(p: Pager, scrollTop: int, page: seq<string>): Pager {
    if !Loads(p, scrollTop) then p
    else if page == [] then p.(nothingMoreToLoad := true)
    else p.(lastLoadedMsgTime := page[|page| - 1])
  }

  datatype PagerEvent = OpenChat(firstPage: seq<string>) | Scroll(scrollTop: int, page: seq<string>)

  function Run(p: Pager, events: seq<PagerEvent>): Pager
    decreases |events|
  {
    if events == [] then p
    else
      var e := events[0];
      var next := match e
        case OpenChat(page) => Opened(p, page)
        case Scroll(top, page) => Scrolled(p, top, page);
      Run(next, events[1..])
  }

  predicate NoOpen(events: seq<PagerEvent>) {
    forall i :: 0 <= i < |events| ==> events[i].Scroll?
  }

  /** An empty page near the top stops loading. */
  lemma EmptyPageStops(p: Pager, scrollTop: int)
    requires Loads(p, scrollTop)
    ensures Scrolled(p, scrollTop, []).nothingMoreToLoad
  {
  }

  /** Once loading has stopped, no scroll asks again or changes anything
      until a chat is opened. */
  lemma {:induction false} StoppedUntilOpen(p: Pager, events: seq<PagerEvent>)
    requires p.nothingMoreToLoad && NoOpen(events)
    ensures Run(p, events) == p
    ensures forall i :: 0 <= i < |events| ==> !Loads(Run(p, events[..i]), events[i].scrollTop)
  {
    if events != [] {
      assert Scrolled(p, events[0].scrollTop, events[0].page) == p;
      StoppedUntilOpen(p, events[1..]);
      forall i | 0 <= i < |events|
        ensures !Loads(Run(p, events[..i]), events[i].scrollTop)
      {
        if i > 0 {
          assert events[..i][1..] == events[1..][..i - 1];
          assert events[1..][i - 1] == events[i];
        }
      }
    }
  }

  /** The loader as the page keeps it. */
  class ChatPager {
    var nothingMoreToLoad: bool
    var lastLoadedMsgTime: string

    function State(): Pager
      reads this
    {
      Pager(nothingMoreToLoad, lastLoadedMsgTime)
    }

    constructor ()
      ensures State() == Pager(false, "")
    {
      nothingMoreToLoad := false;
      lastLoadedMsgTime := "";
    }

    /** `openChat`'s share: reset the flag, then take the first page's
        cursor. */
    method OpenChat(page: seq<string>)
      modifies this
      ensures State() == Opened(old(State()), page)
    {
      nothingMoreToLoad := false;
      if |page| == 0 {
        return;
      }
      lastLoadedMsgTime := page[|page| - 1];
    }

    /** `onChatScroll`'s share; answers the cursor it asked with. */
    method OnChatScroll(scrollTop: int, page: seq<string>) returns (asked: Option<string>)
      modifies this
      ensures State() == Scrolled(old(State()), scrollTop, page)
      ensures asked == if Loads(old(State()), scrollTop) then Some(old(lastLoadedMsgTime)) else None
    {
      if scrollTop > 200 || nothingMoreToLoad {
        return None;
      }
      asked := Some(lastLoadedMsgTime);
      if |page| == 0 {
        nothingMoreToLoad := true;
        return;
      }
      lastLoadedMsgTime := page[|page| - 1];
    }
  }
}
