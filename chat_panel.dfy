/** The live-chat panel's own pieces: the avatar URL of a user, the header
    name cut to fit, the unread badges, the counter of messages that came
    in while the reader had scrolled up, and the panel's module state
    (`activeMenu`, `activeExMenu`, `activeHeaderMenu`, `currentTargetID`,
    `msgsOnScrollCount`). The page's DOM is not modelled: what a handler
    writes into an element is its result. */
module ChatPanel {
  import Digits
  import Duration

  // ---------------------------------------------------------------------
  // Avatar URLs
  // ---------------------------------------------------------------------

  const DEFAULT_AVATAR := "default"
  const SECOND_DEFAULT_AVATAR := "default1"
  /** Where the built-in avatars are served from. */
  const BUILT_IN_DIR := "/imgs/avatars/"
  /** Where uploaded avatars are served from. */
  const UPLOAD_DIR := "/uploads/avatars/"
  /** Uploaded avatars are stored under names with this prefix. */
  const CUSTOM_PREFIX := "custom_"
  /** Query parameter that defeats the browser's cache. */
  const CACHE_BUSTER := "?t="

  /** `s` ends with `suffix`, letters compared without case; `suffix` is
      written in lower case. A regular expression with the `i` flag and no
      `u` flag folds ASCII letters only. */
  predicate EndsWithNoCase(s: string, suffix: string) {
    |suffix| <= |s| && forall i :: 0 <= i < |suffix| ==> Duration.ToLowerAscii(s[|s| - |suffix| + i]) == suffix[i]
  }

  /** `/\.(jpg|png|gif|webp)$/i`. */
  predicate HasImageExtension(name: string) {
    EndsWithNoCase(name, ".jpg") || EndsWithNoCase(name, ".png")
    || EndsWithNoCase(name, ".gif") || EndsWithNoCase(name, ".webp")
  }

  /** The URL before the cache buster: an empty name and the two default
      names are built-in files, a `custom_` name is an upload (given the
      `.jpg` extension when it has no image extension), any other name is
      a built-in file. */
  function AvatarPath(avatar: string): string {
    if avatar == [] || avatar == DEFAULT_AVATAR || avatar == SECOND_DEFAULT_AVATAR then
      BUILT_IN_DIR + (if avatar == [] then DEFAULT_AVATAR else avatar) + ".png"
    else if CUSTOM_PREFIX <= avatar then
      if HasImageExtension(avatar) then UPLOAD_DIR + avatar else UPLOAD_DIR + avatar + ".jpg"
    else
      BUILT_IN_DIR + avatar + ".png"
  }

  /** `getAvatarUrl`: the path followed by the clock reading in
      milliseconds. */
  function AvatarUrl(avatar: string, timestamp: nat): string {
    AvatarPath(avatar) + CACHE_BUSTER + Digits.Decimal(timestamp)
  }

  /** The name an avatar is stored under: an empty name stands for the
      default avatar. */
  function StoredName(avatar: string): string {
    if avatar == [] then DEFAULT_AVATAR else avatar
  }

  lemma EndsWithAppended(s: string, e: string)
    requires forall i :: 0 <= i < |e| ==> 'a' <= e[i] <= 'z' || e[i] == '.'
    ensures EndsWithNoCase(s + e, e)
  {
    forall i | 0 <= i < |e|
      ensures Duration.ToLowerAscii((s + e)[|s + e| - |e| + i]) == e[i]
    {
      assert (s + e)[|s| + i] == e[i];
    }
  }

  lemma EndsWithPrefixed(p: string, s: string, e: string)
    requires EndsWithNoCase(s, e)
    ensures EndsWithNoCase(p + s, e)
  {
    forall i | 0 <= i < |e|
      ensures Duration.ToLowerAscii((p + s)[|p + s| - |e| + i]) == e[i]
    {
      assert (p + s)[|p| + |s| - |e| + i] == s[|s| - |e| + i];
    }
  }

  /** Every avatar path names an image file; it lies in the upload
      directory exactly when the name is a `custom_` name and in the
      built-in directory otherwise; the stored name follows the directory
      unchanged, and at most an extension follows it. */
  lemma AvatarPathSpec(avatar: string)
    ensures var path := AvatarPath(avatar); var name := StoredName(avatar);
      HasImageExtension(path)
      && (UPLOAD_DIR <= path <==> CUSTOM_PREFIX <= avatar)
      && (BUILT_IN_DIR <= path <==> !(CUSTOM_PREFIX <= avatar))
      && (UPLOAD_DIR + name <= path || BUILT_IN_DIR + name <= path)
      && |path| <= |UPLOAD_DIR| + |name| + 4
  {
    var path := AvatarPath(avatar);
    var name := StoredName(avatar);
    if avatar == [] || avatar == DEFAULT_AVATAR || avatar == SECOND_DEFAULT_AVATAR {
      assert !(CUSTOM_PREFIX <= avatar) by {
        if avatar != [] { assert avatar[0] == 'd'; }
      }
      EndsWithAppended(BUILT_IN_DIR + name, ".png");
    } else if CUSTOM_PREFIX <= avatar {
      if HasImageExtension(avatar) {
        if EndsWithNoCase(avatar, ".jpg") {
          EndsWithPrefixed(UPLOAD_DIR, avatar, ".jpg");
        } else if EndsWithNoCase(avatar, ".png") {
          EndsWithPrefixed(UPLOAD_DIR, avatar, ".png");
        } else if EndsWithNoCase(avatar, ".gif") {
          EndsWithPrefixed(UPLOAD_DIR, avatar, ".gif");
        } else {
          EndsWithPrefixed(UPLOAD_DIR, avatar, ".webp");
        }
      } else {
        EndsWithAppended(UPLOAD_DIR + avatar, ".jpg");
      }
      assert (UPLOAD_DIR + name) <= path;
    } else {
      EndsWithAppended(BUILT_IN_DIR + name, ".png");
    }
    assert UPLOAD_DIR <= path ==> path[1] == 'u';
    assert BUILT_IN_DIR <= path ==> path[1] == 'i';
  }

  /** The URL is the path, the cache buster and the clock reading, which
      reads back from the URL's tail. */
  lemma AvatarUrlSpec(avatar: string, timestamp: nat)
    ensures var url := AvatarUrl(avatar, timestamp); var k := |AvatarPath(avatar)|;
      k + 3 <= |url| && url[..k] == AvatarPath(avatar) && url[k..k + 3] == CACHE_BUSTER
      && Digits.AllDigits(url[k + 3..]) && Digits.DigitsValue(url[k + 3..]) == timestamp
  {
    var url := AvatarUrl(avatar, timestamp);
    var k := |AvatarPath(avatar)|;
    assert url[k + 3..] == Digits.Decimal(timestamp);
    assert url[..k] == AvatarPath(avatar);
    Digits.DecimalValue(timestamp);
  }

  /** Two readings of the clock give two URLs for the same avatar, so the
      browser fetches the image again. */
  lemma AvatarUrlBustsCache(avatar: string, t1: nat, t2: nat)
    requires t1 != t2
    ensures AvatarUrl(avatar, t1) != AvatarUrl(avatar, t2)
  {
    var k := |AvatarPath(avatar)| + 3;
    if AvatarUrl(avatar, t1) == AvatarUrl(avatar, t2) {
      assert AvatarUrl(avatar, t1)[k..] == Digits.Decimal(t1);
      assert AvatarUrl(avatar, t2)[k..] == Digits.Decimal(t2);
      Digits.DecimalInjective(t1, t2);
    }
  }

  // ---------------------------------------------------------------------
  // The chat header's name
  // ---------------------------------------------------------------------

  /** The longest name shown whole. */
  const HEADER_MAX := 24
  /** How much of a longer name is kept before the ellipsis. */
  const HEADER_KEEP := 21
  const ELLIPSIS := "..."

  /** The characters stripped from the end of a cut name. */
  predicate Stripped(c: char) {
    c == ' ' || c == '\n' || c == '\t'
  }

  /** `s` without its trailing spaces, newlines and tabs. */
  function StripTrailing(s: string): (r: string)
    ensures r <= s && (r == [] || !Stripped(r[|r| - 1]))
    ensures forall i :: |r| <= i < |s| ==> Stripped(s[i])
  {
    if s == [] || !Stripped(s[|s| - 1]) then s else StripTrailing(s[..|s| - 1])
  }

  /** The name `updateHeaderInfo` shows. */
  function HeaderName(name: string): string {
    if |name| > HEADER_MAX then StripTrailing(name[..HEADER_KEEP]) + ELLIPSIS else name
  }

  /** `updateHeaderInfo`'s cut: the first 21 characters, stripped one
      character at a time from the end, then the ellipsis. */
  method ShowHeaderName(name: string) returns (shown: string)
    ensures shown == HeaderName(name)
  {
    shown := name;
    if |name| > HEADER_MAX {
      var extracted := name[..HEADER_KEEP];
      while extracted != [] && Stripped(extracted[|extracted| - 1])
        invariant StripTrailing(extracted) == StripTrailing(name[..HEADER_KEEP])
        decreases |extracted|
      {
        extracted := extracted[..|extracted| - 1];
      }
      shown := extracted + ELLIPSIS;
    }
  }

  /** A shown name fits in 24 characters and is shown as it is; a name
      that fits is shown whole; a longer one is shown as a prefix of its
      first 21 characters that does not end in white space, every dropped
      character of those 21 being a space, newline or tab, followed by the
      ellipsis. */
  lemma HeaderNameSpec(name: string)
    ensures var shown := HeaderName(name);
      |shown| <= HEADER_MAX && HeaderName(shown) == shown
      && (|name| <= HEADER_MAX ==> shown == name)
      && (|name| > HEADER_MAX ==>
            var kept := shown[..|shown| - 3];
            shown == kept + ELLIPSIS && kept <= name && |kept| <= HEADER_KEEP
            && (kept == [] || !Stripped(kept[|kept| - 1]))
            && forall i :: |kept| <= i < HEADER_KEEP ==> Stripped(name[i]))
  {
    if |name| > HEADER_MAX {
      var shown := HeaderName(name);
      var kept := StripTrailing(name[..HEADER_KEEP]);
      assert shown[..|shown| - 3] == kept;
      forall i | |kept| <= i < HEADER_KEEP
        ensures Stripped(name[i])
      {
        assert name[..HEADER_KEEP][i] == name[i];
      }
    }
  }

  // ---------------------------------------------------------------------
  // Unread badges and the new-message counter
  // ---------------------------------------------------------------------

  const MANY := "99+"

  /** A red dot with a number in it. */
  datatype Badge = Badge(hidden: bool, text: string)

  /** The count as the badges write it. */
  function BadgeText(unread: nat): string {
    if unread > 99 then MANY else Digits.Decimal(unread)
  }

  /** The dot of a chat in the chat list. */
  function ChatListBadge(unread: nat): Badge {
    Badge(unread == 0, BadgeText(unread))
  }

  /** The dot of a chat that a notification updates: shown whatever the
      count. */
  function NotificationBadge(unread: nat): Badge {
    Badge(false, BadgeText(unread))
  }

  /** A badge's text has at most three characters; it is "99+" exactly
      when the count exceeds 99 and the count in decimal otherwise; the
      chat-list dot is hidden exactly when nothing is unread, the updated
      dot never. */
  lemma BadgeSpec(unread: nat)
    ensures var text := BadgeText(unread);
      |text| <= 3
      && (text == MANY <==> unread > 99)
      && (unread <= 99 ==> Digits.AllDigits(text) && Digits.DigitsValue(text) == unread)
      && ChatListBadge(unread) == Badge(unread == 0, text)
      && (ChatListBadge(unread).hidden <==> unread == 0)
      && !NotificationBadge(unread).hidden && NotificationBadge(unread).text == text
  {
    if unread <= 99 {
      Digits.DecimalValue(unread);
      assert !Digits.IsDigit(MANY[2]);
      assert |Digits.Decimal(unread)| <= 2 by {
        if unread >= 10 {
          assert Digits.Decimal(unread) == Digits.Decimal(unread / 10) + [Digits.DigitChar(unread % 10)];
        }
      }
    }
  }

  /** The largest count the counter reaches. */
  const COUNTER_MAX := 99

  /** The count after one more message arrived while scrolled away. */
  function NextCount(count: nat): nat {
    if count == COUNTER_MAX then count else count + 1
  }

  /** What the counter shows for that message. */
  function CountText(count: nat): string {
    if count == COUNTER_MAX then MANY else Digits.Decimal(count + 1)
  }

  /** The count after `k` such messages, from zero. */
  function CountAfter(k: nat): nat {
    if k == 0 then 0 else NextCount(CountAfter(k - 1))
  }

  /** The counter counts messages up to 99 and then stays: the `k`-th
      message shows `k` up to 99 and "99+" from the 100th on. */
  lemma {:induction false} CounterSaturates(k: nat)
    ensures CountAfter(k) == if k <= COUNTER_MAX then k else COUNTER_MAX
    ensures k >= 1 ==> CountText(CountAfter(k - 1)) == if k <= COUNTER_MAX then Digits.Decimal(k) else MANY
  {
    if k >= 1 {
      CounterSaturates(k - 1);
    }
  }

  /** The panel's module state. */
  class ChatPanelState {
    var activeMenu: string
    var activeExMenu: string
    var activeHeaderMenu: string
    var currentTargetID: int
    var msgsOnScrollCount: nat

    /** The counter never passes its cap. */
    predicate Valid()
      reads this
    {
      msgsOnScrollCount <= COUNTER_MAX
    }

    /** The values the module starts with. */
    constructor ()
      ensures activeMenu == "Chats" && activeExMenu == "All" && activeHeaderMenu == "Other"
      ensures currentTargetID == -2 && msgsOnScrollCount == 0
      ensures Valid()
    {
      activeMenu := "Chats";
      activeExMenu := "All";
      activeHeaderMenu := "Other";
      currentTargetID := -2;
      msgsOnScrollCount := 0;
    }

    /** `resetLiveChatState`: back to the chat list with no chat open. */
    method Reset()
      modifies this
      ensures activeMenu == "Chats" && activeExMenu == "All" && activeHeaderMenu == "Other"
      ensures currentTargetID == -2 && msgsOnScrollCount == 0
      ensures Valid()
    {
      activeMenu := "Chats";
      activeExMenu := "All";
      activeHeaderMenu := "Other";
      currentTargetID := -2;
      msgsOnScrollCount := 0;
    }

    /** `resetGoToBottomMsgCount`. */
    method ResetCount()
      modifies this
      ensures msgsOnScrollCount == 0 && Valid()
      ensures activeMenu == old(activeMenu) && activeExMenu == old(activeExMenu)
      ensures activeHeaderMenu == old(activeHeaderMenu) && currentTargetID == old(currentTargetID)
    {
      msgsOnScrollCount := 0;
    }

    /** A message for the open chat: when the reader has scrolled up, the
        counter moves on and its text is returned; otherwise nothing
        changes. */
    method OnOpenChatMessage(scrolledAway: bool) returns (shown: string)
      modifies this
      ensures scrolledAway ==> msgsOnScrollCount == NextCount(old(msgsOnScrollCount)) && shown == CountText(old(msgsOnScrollCount))
      ensures !scrolledAway ==> msgsOnScrollCount == old(msgsOnScrollCount) && shown == []
      ensures old(Valid()) ==> Valid()
      ensures activeMenu == old(activeMenu) && activeExMenu == old(activeExMenu)
      ensures activeHeaderMenu == old(activeHeaderMenu) && currentTargetID == old(currentTargetID)
    {
      shown := [];
      if scrolledAway {
        if msgsOnScrollCount == COUNTER_MAX {
          shown := MANY;
        } else {
          msgsOnScrollCount := msgsOnScrollCount + 1;
          shown := Digits.Decimal(msgsOnScrollCount);
        }
      }
    }
  }
}
