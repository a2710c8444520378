/**
 * Message records (models/message.py): sender display name, media size and
 * extension, the button grid with its lookups, and the event identity used
 * by the deduplication cache.
 */
module Message {
  import opened Wrappers
  import opened PyStr

  /** Python truthiness of an optional string: present and non-empty. */
  predicate Truthy(s: Option<string>)
  {
    s.Some? && s.value != ""
  }

  datatype MessageSender = MessageSender(
    id: int,
    username: Option<string>,
    firstName: Option<string>,
    lastName: Option<string>,
    isBot: bool,
    isChannel: bool,
    title: Option<string>)

  const UnknownUser: string := "未知用户"

  /** `full_name`: the title, else the non-empty name parts joined by a space, else a placeholder. */
  function FullName(s: MessageSender): (r: string)
    ensures r != ""
    ensures Truthy(s.title) ==> r == s.title.value
    ensures !Truthy(s.title) && !Truthy(s.firstName) && !Truthy(s.lastName) ==> r == UnknownUser
    ensures !Truthy(s.title) && Truthy(s.firstName) && Truthy(s.lastName) ==>
      r == s.firstName.value + " " + s.lastName.value
    ensures !Truthy(s.title) && Truthy(s.firstName) != Truthy(s.lastName) ==>
      r == (if Truthy(s.firstName) then s.firstName.value else s.lastName.value)
  {
    if Truthy(s.title) then s.title.value
    else
      var parts := (if Truthy(s.firstName) then [s.firstName.value] else [])
        + (if Truthy(s.lastName) then [s.lastName.value] else []);
      if parts == [] then UnknownUser
      else if |parts| == 1 then parts[0]
      else parts[0] + " " + parts[1]
  }

  datatype MessageMedia = MessageMedia(
    hasMedia: bool,
    mediaType: Option<string>,
    fileName: Option<string>,
    fileSize: Option<int>,
    fileExtension: Option<string>,
    mimeType: Option<string>)

  const BytesPerMb: int := 1024 * 1024

  /** `file_size_mb`: None when the size is missing or zero, otherwise the size in MiB. */
  function FileSizeMb(m: MessageMedia): (r: Option<real>)
    ensures r.None? <==> m.fileSize.None? || m.fileSize.value == 0
    ensures r.Some? ==> r.value * BytesPerMb as real == m.fileSize.value as real
  {
    if m.fileSize.Some? && m.fileSize.value != 0 then Some(m.fileSize.value as real / BytesPerMb as real)
    else None
  }

  datatype MessageButton = MessageButton(text: string, row: int, col: int, data: Option<string>)

  datatype TelegramMessage = TelegramMessage(
    messageId: int,
    chatId: int,
    sender: MessageSender,
    text: string,
    media: Option<MessageMedia>,
    buttons: seq<seq<MessageButton>>,
    isForwarded: bool,
    forwardFromChannelId: Option<int>,
    replyToMessageId: Option<int>)

  /** `text_lower`: lowercased, then stripped. */
  function TextLower(m: TelegramMessage): string
  {
    Strip(Lower(m.text))
  }

  /** `has_buttons`: at least one row, even an empty one. */
  predicate HasButtons(m: TelegramMessage)
  {
    |m.buttons| > 0
  }

  /** The buttons of a grid in row-major order. */
  function Flatten<T>(rows: seq<seq<T>>): (r: seq<T>)
  {
    if rows == [] then [] else Flatten(rows[..|rows| - 1]) + rows[|rows| - 1]
  }

  function StrippedTexts(bs: seq<MessageButton>): (r: seq<string>)
    ensures |r| == |bs|
    ensures forall k :: 0 <= k < |bs| ==> r[k] == Strip(bs[k].text)
  {
    seq(|bs|, k requires 0 <= k < |bs| => Strip(bs[k].text))
  }

  lemma StrippedTextsSnoc(bs: seq<MessageButton>, b: MessageButton)
    ensures StrippedTexts(bs + [b]) == StrippedTexts(bs) + [Strip(b.text)]
  {
    var l := StrippedTexts(bs + [b]);
    var r := StrippedTexts(bs) + [Strip(b.text)];
    assert |l| == |r|;
    forall k | 0 <= k < |l| ensures l[k] == r[k] {
      if k < |bs| { assert (bs + [b])[k] == bs[k]; }
    }
  }

  function TotalButtons<T>(rows: seq<seq<T>>): nat
  {
    if rows == [] then 0 else TotalButtons(rows[..|rows| - 1]) + |rows[|rows| - 1]|
  }

  /** Flattening keeps every button: its length is the sum of the row lengths. */
  lemma {:induction false} FlattenLength<T>(rows: seq<seq<T>>)
    ensures |Flatten(rows)| == TotalButtons(rows)
  {
    if rows != [] {
      FlattenLength(rows[..|rows| - 1]);
    }
  }

  /** Button (row, col) sits at offset (buttons before row `row`) + col of the flattening. */
  lemma {:induction false} FlattenAt<T>(rows: seq<seq<T>>, row: nat, col: nat)
    requires row < |rows| && col < |rows[row]|
    ensures TotalButtons(rows[..row]) + col < |Flatten(rows)|
    ensures Flatten(rows)[TotalButtons(rows[..row]) + col] == rows[row][col]
  {
    var n := |rows|;
    FlattenLength(rows[..n - 1]);
    assert rows[..n - 1][..row] == rows[..row] by {
      if row < n - 1 {
        assert rows[..n - 1][..row] == rows[..row];
      }
    }
    if row < n - 1 {
      FlattenAt(rows[..n - 1], row, col);
    } else {
      assert rows[..row] == rows[..n - 1];
    }
  }

  lemma FlattenSnoc<T>(rows: seq<seq<T>>, i: nat)
    requires i < |rows|
    ensures Flatten(rows[..i + 1]) == Flatten(rows[..i]) + rows[i]
  {
    assert rows[..i + 1][..i] == rows[..i];
  }

  /** `button_texts`: the stripped texts in row-major order, one per button. */
  method ButtonTexts(m: TelegramMessage) returns (texts: seq<string>)
    ensures texts == StrippedTexts(Flatten(m.buttons))
    ensures |texts| == TotalButtons(m.buttons)
  {
    texts := [];
    var i := 0;
    while i < |m.buttons|
      invariant 0 <= i <= |m.buttons|
      invariant texts == StrippedTexts(Flatten(m.buttons[..i]))
    {
      var row := m.buttons[i];
      ghost var done := Flatten(m.buttons[..i]);
      var j := 0;
      assert done + row[..0] == done;
      while j < |row|
        invariant 0 <= j <= |row|
        invariant texts == StrippedTexts(done + row[..j])
      {
        assert done + row[..j + 1] == (done + row[..j]) + [row[j]];
        StrippedTextsSnoc(done + row[..j], row[j]);
        texts := texts + [Strip(row[j].text)];
        j := j + 1;
      }
      FlattenSnoc(m.buttons, i);
      assert row[..j] == row;
      i := i + 1;
    }
    assert m.buttons[..i] == m.buttons;
    FlattenLength(m.buttons);
  }

  /** Whether a button answers a `get_button_by_text` query (both sides lowercased). */
  predicate ButtonHit(b: MessageButton, query: string, exactMatch: bool)
  {
    if exactMatch then Lower(b.text) == Lower(query) else Contains(Lower(b.text), Lower(query))
  }

  /** Reference definition: the first button of the list that answers the query. */
  function FirstHit(bs: seq<MessageButton>, query: string, exactMatch: bool): Option<MessageButton>
  {
    if bs == [] then None
    else if ButtonHit(bs[0], query, exactMatch) then Some(bs[0])
    else FirstHit(bs[1..], query, exactMatch)
  }

  /** `FirstHit` returns exactly the earliest answering button, and None when none answers. */
  lemma {:induction false} FirstHitIsEarliest(bs: seq<MessageButton>, query: string, exactMatch: bool)
    ensures FirstHit(bs, query, exactMatch).None? <==>
      forall k :: 0 <= k < |bs| ==> !ButtonHit(bs[k], query, exactMatch)
    ensures FirstHit(bs, query, exactMatch).Some? ==>
      exists k :: 0 <= k < |bs| && bs[k] == FirstHit(bs, query, exactMatch).value
        && ButtonHit(bs[k], query, exactMatch)
        && forall j :: 0 <= j < k ==> !ButtonHit(bs[j], query, exactMatch)
  {
    if bs != [] && !ButtonHit(bs[0], query, exactMatch) {
      FirstHitIsEarliest(bs[1..], query, exactMatch);
      if FirstHit(bs[1..], query, exactMatch).Some? {
        var k :| 0 <= k < |bs[1..]| && bs[1..][k] == FirstHit(bs[1..], query, exactMatch).value
          && ButtonHit(bs[1..][k], query, exactMatch)
          && forall j :: 0 <= j < k ==> !ButtonHit(bs[1..][j], query, exactMatch);
        assert bs[k + 1] == bs[1..][k];
        forall j | 0 <= j < k + 1 ensures !ButtonHit(bs[j], query, exactMatch) {
          if j > 0 { assert bs[j] == bs[1..][j - 1]; }
        }
      } else {
        forall k | 0 <= k < |bs| ensures !ButtonHit(bs[k], query, exactMatch) {
          if k > 0 { assert bs[k] == bs[1..][k - 1]; }
        }
      }
    } else if bs != [] {
      assert bs[0] == FirstHit(bs, query, exactMatch).value;
    }
  }

  lemma {:induction false} FirstHitAppend(xs: seq<MessageButton>, ys: seq<MessageButton>, query: string, exactMatch: bool)
    ensures FirstHit(xs + ys, query, exactMatch) ==
      if FirstHit(xs, query, exactMatch).Some? then FirstHit(xs, query, exactMatch) else FirstHit(ys, query, exactMatch)
  {
    if xs == [] {
      assert xs + ys == ys;
    } else {
      assert (xs + ys)[0] == xs[0];
      assert (xs + ys)[1..] == xs[1..] + ys;
      FirstHitAppend(xs[1..], ys, query, exactMatch);
    }
  }

  /** `get_button_by_text`: scans the grid row by row and returns the first answering button. */
  method GetButtonByText(m: TelegramMessage, text: string, exactMatch: bool) returns (r: Option<MessageButton>)
    ensures r == FirstHit(Flatten(m.buttons), text, exactMatch)
  {
    var searchText := Lower(text);
    var i := 0;
    while i < |m.buttons|
      invariant 0 <= i <= |m.buttons|
      invariant FirstHit(Flatten(m.buttons[..i]), text, exactMatch).None?
    {
      var row := m.buttons[i];
      var j := 0;
      assert Flatten(m.buttons[..i]) + row[..0] == Flatten(m.buttons[..i]);
      while j < |row|
        invariant 0 <= j <= |row|
        invariant FirstHit(Flatten(m.buttons[..i]) + row[..j], text, exactMatch).None?
      {
        var buttonText := Lower(row[j].text);
        var hit := if exactMatch then buttonText == searchText else Contains(buttonText, searchText);
        FirstHitAppend(Flatten(m.buttons[..i]) + row[..j], [row[j]], text, exactMatch);
        assert Flatten(m.buttons[..i]) + row[..j + 1] == (Flatten(m.buttons[..i]) + row[..j]) + [row[j]];
        if hit {
          r := Some(row[j]);
          FlattenSnoc(m.buttons, i);
          assert row == row[..j + 1] + row[j + 1..];
          assert Flatten(m.buttons[..i + 1]) == (Flatten(m.buttons[..i]) + row[..j + 1]) + row[j + 1..];
          FirstHitAppend(Flatten(m.buttons[..i]) + row[..j + 1], row[j + 1..], text, exactMatch);
          PrefixHit(m.buttons, i + 1, text, exactMatch);
          return;
        }
        j := j + 1;
      }
      FlattenSnoc(m.buttons, i);
      assert row[..j] == row;
      i := i + 1;
    }
    assert m.buttons[..i] == m.buttons;
    r := None;
  }

  /** A hit among the first `i` rows is the hit of the whole grid. */
  lemma PrefixHit(rows: seq<seq<MessageButton>>, i: nat, query: string, exactMatch: bool)
    requires i <= |rows|
    requires FirstHit(Flatten(rows[..i]), query, exactMatch).Some?
    ensures FirstHit(Flatten(rows), query, exactMatch) == FirstHit(Flatten(rows[..i]), query, exactMatch)
  {
    FlattenSplit(rows, i);
    FirstHitAppend(Flatten(rows[..i]), Flatten(rows[i..]), query, exactMatch);
  }

  lemma {:induction false} FlattenSplit<T>(rows: seq<seq<T>>, i: nat)
    requires i <= |rows|
    ensures Flatten(rows) == Flatten(rows[..i]) + Flatten(rows[i..])
    decreases |rows|
  {
    if i < |rows| {
      var n := |rows|;
      FlattenSplit(rows[..n - 1], i);
      assert rows[..n - 1][..i] == rows[..i];
      assert rows[..n - 1][i..] == rows[i..][..|rows[i..]| - 1];
    } else {
      assert rows[..i] == rows;
      assert rows[i..] == [];
    }
  }

  /**
   * The extension derived from a document's file name: '.' plus the
   * lowercased text after the last dot, and only when the name contains a dot.
   */
  function ExtensionOfFileName(fileName: string): (r: Option<string>)
    ensures r.Some? <==> '.' in fileName
    ensures r.Some? ==> |r.value| >= 1 && r.value[0] == '.' && '.' !in r.value[1..]
    ensures r.Some? ==> Lower(r.value) == r.value
    ensures r.Some? ==> EndsWith(Lower(fileName), r.value)
  {
    if '.' in fileName then
      ExtensionFacts(fileName);
      Some("." + Lower(LastSegment(fileName, '.')))
    else None
  }

  lemma ExtensionFacts(fileName: string)
    requires '.' in fileName
    ensures var r := "." + Lower(LastSegment(fileName, '.'));
      r[0] == '.' && '.' !in r[1..] && Lower(r) == r && EndsWith(Lower(fileName), r)
  {
    var seg := LastSegment(fileName, '.');
    var r := "." + Lower(seg);
    assert r[1..] == Lower(seg);
    forall k | 0 <= k < |seg| ensures Lower(seg)[k] != '.' {
      assert seg[k] != '.';
    }
    LowerDotPrefix(Lower(seg));
    LowerIdempotent(seg);
    ExtensionIsSuffix(fileName);
  }

  lemma ExtensionIsSuffix(fileName: string)
    requires '.' in fileName
    ensures EndsWith(Lower(fileName), "." + Lower(LastSegment(fileName, '.')))
  {
    var seg := LastSegment(fileName, '.');
    var n := |fileName|;
    LastSegmentWithSeparator(fileName, '.');
    assert fileName[n - |seg| - 1..] == "." + seg;
    LowerSlice(fileName, n - |seg| - 1, n);
    assert fileName[n - |seg| - 1..n] == fileName[n - |seg| - 1..];
    LowerDotPrefix(seg);
  }

  /** Media category from the MIME type prefix. */
  function MediaTypeOfMime(mime: string): (r: string)
    ensures r in {"image", "video", "audio", "document"}
    ensures StartsWith(mime, "image/") <==> r == "image"
  {
    if StartsWith(mime, "image/") then "image"
    else if StartsWith(mime, "video/") then "video"
    else if StartsWith(mime, "audio/") then "audio"
    else "document"
  }

  /** What Telethon reports for a message's media; attributes give their `file_name` if they have one. */
  datatype RawMedia =
    | Document(size: int, mimeType: Option<string>, attributeFileNames: seq<Option<string>>)
    | Photo
    | OtherMedia

  function FirstFileName(attrs: seq<Option<string>>): (r: Option<string>)
    ensures r.Some? ==> exists k :: 0 <= k < |attrs| && attrs[k] == r
    ensures r.None? <==> forall k :: 0 <= k < |attrs| ==> attrs[k].None?
  {
    if attrs == [] then None
    else if attrs[0].Some? then attrs[0]
    else
      var r := FirstFileName(attrs[1..]);
      assert forall k :: 1 <= k < |attrs| ==> attrs[k] == attrs[1..][k - 1];
      r
  }

  /** The media part of `from_telethon_event`. */
  function MediaFromTelethon(raw: Option<RawMedia>): (r: Option<MessageMedia>)
    ensures r.Some? <==> raw.Some?
    ensures r.Some? ==> r.value.hasMedia
    ensures r.Some? && r.value.fileExtension.Some? ==>
      r.value.fileName.Some? && r.value.fileExtension == ExtensionOfFileName(r.value.fileName.value)
  {
    match raw
    case None => None
    case Some(Document(size, mime, attrs)) =>
      var name := FirstFileName(attrs);
      var ext := if name.Some? then ExtensionOfFileName(name.value) else None;
      var mediaType := if Truthy(mime) then Some(MediaTypeOfMime(mime.value)) else None;
      Some(MessageMedia(true, mediaType, name, Some(size), ext, mime))
    case Some(Photo) => Some(MessageMedia(true, Some("photo"), None, None, None, None))
    case Some(OtherMedia) => Some(MessageMedia(true, None, None, None, None, None))
  }

  /** The button grid of `from_telethon_event`: each button records its own row and column. */
  function ButtonsFromTelethon(raw: seq<seq<(string, Option<string>)>>): (r: seq<seq<MessageButton>>)
    ensures |r| == |raw|
    ensures forall i :: 0 <= i < |r| ==> |r[i]| == |raw[i]|
    ensures forall i, j :: 0 <= i < |r| && 0 <= j < |r[i]| ==>
      r[i][j] == MessageButton(raw[i][j].0, i, j, raw[i][j].1)
  {
    seq(|raw|, i requires 0 <= i < |raw| =>
      seq(|raw[i]|, j requires 0 <= j < |raw[i]| => MessageButton(raw[i][j].0, i, j, raw[i][j].1)))
  }

  /** The forwarding header: `from_chat` id, else the `channel_id` of `from_id` when it has one. */
  datatype ForwardHeader = ForwardHeader(fromChatId: Option<int>, fromIdChannelId: Option<int>)

  function ForwardFromChannelId(fwd: Option<ForwardHeader>): (r: Option<int>)
    ensures fwd.None? ==> r.None?
    ensures fwd.Some? && fwd.value.fromChatId.Some? ==> r == fwd.value.fromChatId
  {
    match fwd
    case None => None
    case Some(h) => if h.fromChatId.Some? then h.fromChatId else h.fromIdChannelId
  }

  datatype MessageEvent = MessageEvent(accountId: string, message: TelegramMessage)

  /** `unique_id`: "account_chat_message". */
  function UniqueIdOf(accountId: string, chatId: int, messageId: int): string
  {
    accountId + "_" + IntToString(chatId) + "_" + IntToString(messageId)
  }

  /** The id of an event; two events share it only when they are the same message of the same account. */
  function UniqueId(e: MessageEvent): (r: string)
    ensures StartsWith(r, e.accountId + "_")
  {
    var id := UniqueIdOf(e.accountId, e.message.chatId, e.message.messageId);
    assert id == (e.accountId + "_") + (IntToString(e.message.chatId) + "_" + IntToString(e.message.messageId));
    assert id[..|e.accountId| + 1] == e.accountId + "_";
    id
  }

  lemma NoUnderscoreInInt(i: int)
    ensures '_' !in IntToString(i)
  {
    var s := IntToString(i);
    forall k | 0 <= k < |s| ensures s[k] != '_' { assert IsDigit(s[k]) || s[k] == '-'; }
  }

  /** Splitting "x_y" at its last '_' gives back x and y when y has no '_'. */
  lemma SplitAtLastUnderscore(x1: string, y1: string, x2: string, y2: string)
    requires '_' !in y1 && '_' !in y2
    requires x1 + "_" + y1 == x2 + "_" + y2
    ensures x1 == x2 && y1 == y2
  {
    LastSegmentAfterSeparator(x1, '_', y1);
    LastSegmentAfterSeparator(x2, '_', y2);
    assert x1 + "_" + y1 == x1 + ['_'] + y1;
    assert x2 + "_" + y2 == x2 + ['_'] + y2;
    var s := x1 + "_" + y1;
    assert x1 == s[..|x1|];
    assert x2 == s[..|x2|];
  }

  /**
   * `unique_id` is injective: two events share an id only when account,
   * chat and message ids all agree, even when the account id itself
   * contains underscores.
   */
  lemma UniqueIdInjective(a1: string, c1: int, m1: int, a2: string, c2: int, m2: int)
    requires UniqueIdOf(a1, c1, m1) == UniqueIdOf(a2, c2, m2)
    ensures a1 == a2 && c1 == c2 && m1 == m2
  {
    NoUnderscoreInInt(c1);
    NoUnderscoreInInt(c2);
    NoUnderscoreInInt(m1);
    NoUnderscoreInInt(m2);
    SplitAtLastUnderscore(a1 + "_" + IntToString(c1), IntToString(m1), a2 + "_" + IntToString(c2), IntToString(m2));
    SplitAtLastUnderscore(a1, IntToString(c1), a2, IntToString(c2));
    IntToStringInjective(c1, c2);
    IntToStringInjective(m1, m2);
  }

  /** Two events with the same id are the same message of the same chat and account. */
  lemma SameUniqueIdSameMessage(e1: MessageEvent, e2: MessageEvent)
    requires UniqueId(e1) == UniqueId(e2)
    ensures e1.accountId == e2.accountId
    ensures e1.message.chatId == e2.message.chatId && e1.message.messageId == e2.message.messageId
  {
    UniqueIdInjective(e1.accountId, e1.message.chatId, e1.message.messageId,
                      e2.accountId, e2.message.chatId, e2.message.messageId);
  }
}
