/**
 * The legacy command-line monitor (monitor.py): how `message_handler`
 * decides what to do with one incoming message of one account.
 *
 * The handler works through fixed phases: de-duplication on
 * (chat id, message id), the blocked-bot and own-message guards, then either
 * the all-messages rule of the chat or the keyword rules followed by the
 * file-extension rules, then the button-keyword rules and finally the
 * AI-assisted image-button rule. What it does to the outside world (mail,
 * forwards, log lines, sends, clicks) is returned as a list of `Action`s in
 * the order the handler performs them. The regular-expression engine and
 * the AI model are parameters.
 */
module LegacyMonitor {
  import opened Wrappers
  import opened PyStr
  import FileMonitor

  // ---------------------------------------------------------------- users

  /** An entry of a rule's user list: a numeric id or a name. */
  datatype UserKey = UserId(id: int) | UserName(name: string)

  /**
   * A message sender; a missing username or name part is "". A channel
   * (`channel`) has a username but no first-name attribute at all.
   */
  datatype Sender = Sender(id: int, username: string, firstName: string, lastName: string, bot: bool, channel: bool)

  /** `f"{first} {last}".strip()` */
  function FullName(s: Sender): string
  {
    Strip(s.firstName + " " + s.lastName)
  }

  /**
   * `match_user`: an empty user list admits everyone; otherwise a missing
   * sender is refused, option "1" compares the id, "2" the lowercased
   * username, "3" the stripped full name, and any other option admits
   * everyone.
   */
  function MatchUser(sender: Option<Sender>, users: set<UserKey>, option: Option<string>): (r: bool)
    ensures users == {} ==> r
    ensures users != {} && sender.None? ==> !r
    ensures r && users != {} && option == Some("1") ==> UserId(sender.value.id) in users
    ensures r && users != {} && option == Some("2") ==>
      sender.value.username != "" && UserName(Lower(sender.value.username)) in users
    ensures r && users != {} && option == Some("3") ==> UserName(FullName(sender.value)) in users
  {
    if users == {} then true
    else if sender.None? then false
    else
      var s := sender.value;
      if option == Some("1") then UserId(s.id) in users
      else if option == Some("2") then s.username != "" && UserName(Lower(s.username)) in users
      else if option == Some("3") then UserName(FullName(s)) in users
      else true
  }

  /**
   * Usernames in a rule are kept as typed while the sender's is lowercased,
   * so a rule whose only username has an upper-case letter admits nobody
   * under option "2".
   */
  lemma CapitalisedUsernameNeverMatches(sender: Option<Sender>, name: string)
    requires Lower(name) != name
    ensures !MatchUser(sender, {UserName(name)}, Some("2"))
  {
    if sender.Some? && sender.value.username != "" {
      LowerIdempotent(sender.value.username);
    }
  }

  /** Listing more users never refuses a sender that a non-empty list admitted. */
  lemma MatchUserWidens(sender: Option<Sender>, fewer: set<UserKey>, more: set<UserKey>, option: Option<string>)
    requires fewer != {} && fewer <= more
    ensures MatchUser(sender, fewer, option) ==> MatchUser(sender, more, option)
  {
  }

  /** Under option "1" only the sender's id matters. */
  lemma IdOptionIgnoresNames(a: Sender, b: Sender, users: set<UserKey>)
    requires a.id == b.id
    ensures MatchUser(Some(a), users, Some("1")) == MatchUser(Some(b), users, Some("1"))
  {
  }

  /** A sender with only a first name is matched under option "3" by that name. */
  lemma {:induction false} FullNameOfFirstNameOnly(s: Sender)
    requires s.lastName == "" && s.firstName != ""
    requires !IsSpace(s.firstName[0]) && !IsSpace(s.firstName[|s.firstName| - 1])
    ensures FullName(s) == s.firstName
    ensures MatchUser(Some(s), {UserName(s.firstName)}, Some("3"))
  {
    assert s.firstName + " " + s.lastName == s.firstName + " ";
    StripTrailingSpace(s.firstName);
  }

  lemma StripTrailingSpace(f: string)
    requires f != "" && !IsSpace(f[0]) && !IsSpace(f[|f| - 1])
    ensures Strip(f + " ") == f
  {
    var joined := f + " ";
    assert StripLeft(joined) == joined;
    assert joined[..|joined| - 1] == f;
    StripNoEdgeSpace(f);
  }

  // ---------------------------------------------------------------- rules

  /** A keyword rule; `matchType` is "exact", "partial" or "regex" (other values never match). */
  datatype KeywordRule = KeywordRule(
    keyword: string,
    chats: seq<int>,
    users: set<UserKey>,
    option: Option<string>,
    matchType: string,
    emailNotify: bool,
    autoForward: bool,
    forwardTargets: seq<int>,
    logFile: string,
    regexSendTarget: Option<int>)

  /** A file-extension rule, keyed by its extension. */
  datatype FileRule = FileRule(
    chats: seq<int>,
    users: set<UserKey>,
    option: Option<string>,
    emailNotify: bool,
    autoForward: bool,
    forwardTargets: seq<int>)

  /** The all-messages rule of one chat. */
  datatype AllRule = AllRule(
    users: set<UserKey>,
    option: Option<string>,
    emailNotify: bool,
    autoForward: bool,
    forwardTargets: seq<int>)

  /** A button-keyword rule. */
  datatype ButtonRule = ButtonRule(keyword: string, chats: seq<int>, users: set<UserKey>, option: Option<string>)

  /** One account's configuration; rule lists keep the insertion order of the dictionaries. */
  datatype AccountConfig = AccountConfig(
    ownUserId: int,
    keywords: seq<KeywordRule>,
    files: map<string, FileRule>,
    allMessages: map<int, AllRule>,
    buttons: seq<ButtonRule>,
    imageButtonChats: set<int>)

  /**
   * An incoming message: `fileName` is the first document attribute's file
   * name ("" when there is none), `buttons` the inline keyboard by rows and
   * `hasImage` whether it carries a photo or an image document.
   */
  datatype Event = Event(
    chatId: int,
    messageId: int,
    text: string,
    sender: Option<Sender>,
    fileName: string,
    buttons: seq<seq<string>>,
    hasImage: bool)

  /** What the handler does to the outside world, in order. */
  datatype Action =
    | Email
    | Forward(target: int)
    | WriteLog(file: string)
    | SendMatched(target: int, text: string)
    | Click(row: nat, col: nat)

  /** `pattern.search(text)`: the matched text, if any. */
  type RegexSearch = (string, string) -> Option<string>

  // ---------------------------------------------------------------- forwarding

  /**
   * `auto_forward_message` / `auto_forward_file_message` when no forward
   * fails: every target in order, skipping the source chat.
   */
  function ForwardActions(targets: seq<int>, source: int): (r: seq<Action>)
    ensures |r| <= |targets|
    ensures forall k :: 0 <= k < |r| ==> r[k].Forward? && r[k].target in targets && r[k].target != source
    ensures forall t :: t in targets && t != source ==> Forward(t) in r
  {
    if targets == [] then []
    else
      var last := targets[|targets| - 1];
      var rest := ForwardActions(targets[..|targets| - 1], source);
      rest + (if last == source then [] else [Forward(last)])
  }

  /**
   * The same loops as they run: the whole loop sits in one `try`, so the
   * first forward that raises skips every later target and its error is
   * swallowed. The flag says that a forward raised.
   */
  function ForwardsTried(targets: seq<int>, source: int, fails: int -> bool): (r: (seq<Action>, bool))
    ensures r.0 <= ForwardActions(targets, source)
    ensures r.1 <==> exists t :: t in targets && t != source && fails(t)
    ensures !r.1 ==> r.0 == ForwardActions(targets, source)
    ensures r.1 ==> |r.0| < |ForwardActions(targets, source)| && fails(ForwardActions(targets, source)[|r.0|].target)
    ensures forall k :: 0 <= k < |r.0| ==> !fails(r.0[k].target)
  {
    if targets == [] then ([], false)
    else
      var init := targets[..|targets| - 1];
      var last := targets[|targets| - 1];
      assert targets == init + [last];
      var rest := ForwardsTried(init, source, fails);
      var whole := ForwardActions(targets, source);
      assert whole == ForwardActions(init, source) + (if last == source then [] else [Forward(last)]);
      if rest.1 then
        assert whole[|rest.0|] == ForwardActions(init, source)[|rest.0|];
        rest
      else if last == source then rest
      else if fails(last) then (rest.0, true)
      else (rest.0 + [Forward(last)], false)
  }

  /** Once a forward has raised, the later targets change nothing. */
  lemma {:induction false} RaisedForwardIsFinal(targets: seq<int>, source: int, fails: int -> bool, i: nat)
    requires i <= |targets| && ForwardsTried(targets[..i], source, fails).1
    ensures ForwardsTried(targets, source, fails) == ForwardsTried(targets[..i], source, fails)
    decreases |targets|
  {
    if i < |targets| {
      var init := targets[..|targets| - 1];
      assert init[..i] == targets[..i];
      RaisedForwardIsFinal(init, source, fails, i);
    } else {
      assert targets[..i] == targets;
    }
  }

  /** The forwarding loop inside its `try`, proved against `ForwardsTried`. */
  method AutoForward(targets: seq<int>, source: int, fails: int -> bool) returns (acts: seq<Action>)
    ensures acts == ForwardsTried(targets, source, fails).0
    ensures Forward(source) !in acts
  {
    acts := [];
    var i := 0;
    while i < |targets|
      invariant 0 <= i <= |targets|
      invariant ForwardsTried(targets[..i], source, fails) == (acts, false)
    {
      assert targets[..i + 1][..i] == targets[..i];
      if targets[i] != source {
        if fails(targets[i]) {
          RaisedForwardIsFinal(targets, source, fails, i + 1);
          break;
        }
        acts := acts + [Forward(targets[i])];
      }
      i := i + 1;
    }
    if i == |targets| {
      assert targets[..i] == targets;
    }
    assert Forward(source) !in ForwardActions(targets, source);
  }

  /** The all-messages forward: every target, the source chat included. */
  function ForwardAll(targets: seq<int>): (r: seq<Action>)
    ensures |r| == |targets|
    ensures forall k :: 0 <= k < |r| ==> r[k] == Forward(targets[k])
  {
    seq(|targets|, k requires 0 <= k < |targets| => Forward(targets[k]))
  }

  // ---------------------------------------------------------------- keyword phase

  /**
   * Whether a keyword rule's pattern hits, with the matched text: exact and
   * partial rules compare with the lowercased, stripped text, regular
   * expressions search the original text.
   */
  function Hit(rule: KeywordRule, text: string, regex: RegexSearch): (r: Option<string>)
    ensures rule.matchType == "exact" ==> (r.Some? <==> Strip(Lower(text)) == rule.keyword)
    ensures rule.matchType == "partial" ==> (r.Some? <==> Contains(Strip(Lower(text)), rule.keyword))
    ensures r.Some? && rule.matchType != "regex" ==> r.value == rule.keyword
    ensures rule.matchType == "regex" ==> r == regex(rule.keyword, text)
    ensures rule.matchType != "exact" && rule.matchType != "partial" && rule.matchType != "regex" ==> r.None?
  {
    var lowered := Strip(Lower(text));
    if rule.matchType == "exact" then
      if lowered == rule.keyword then Some(rule.keyword) else None
    else if rule.matchType == "partial" then
      if Contains(lowered, rule.keyword) then Some(rule.keyword) else None
    else if rule.matchType == "regex" then
      regex(rule.keyword, text)
    else
      None
  }

  /** A message that hits an exact rule also hits the same keyword as a partial rule. */
  lemma ExactHitIsPartialHit(rule: KeywordRule, text: string, regex: RegexSearch)
    requires rule.matchType == "exact" && Hit(rule, text, regex).Some?
    ensures Hit(rule.(matchType := "partial"), text, regex) == Hit(rule, text, regex)
  {
    ContainsSelf(rule.keyword);
  }

  /** A keyword rule handles the event: its chat, its users and its pattern. */
  predicate Handles(rule: KeywordRule, ev: Event, regex: RegexSearch)
  {
    ev.chatId in rule.chats && MatchUser(ev.sender, rule.users, rule.option) && Hit(rule, ev.text, regex).Some?
  }

  /** The first keyword rule at or after `from` that handles the event. */
  function FirstHandling(rules: seq<KeywordRule>, ev: Event, regex: RegexSearch, from: nat): (r: Option<nat>)
    requires from <= |rules|
    ensures r.Some? ==> from <= r.value < |rules| && Handles(rules[r.value], ev, regex)
    ensures r.Some? ==> forall j :: from <= j < r.value ==> !Handles(rules[j], ev, regex)
    ensures r.None? <==> forall j :: from <= j < |rules| ==> !Handles(rules[j], ev, regex)
    decreases |rules| - from
  {
    if from == |rules| then None
    else if Handles(rules[from], ev, regex) then Some(from)
    else FirstHandling(rules, ev, regex, from + 1)
  }

  /** What a handling keyword rule does: mail, forward, log line, then the regex send. */
  function KeywordActions(rule: KeywordRule, ev: Event, regex: RegexSearch): (r: seq<Action>)
    requires Handles(rule, ev, regex)
    ensures Forward(ev.chatId) !in r
    ensures forall a :: a in r && a.SendMatched? ==> rule.matchType == "regex" && rule.regexSendTarget == Some(a.target)
  {
    var mail: seq<Action> := if rule.emailNotify then [Email] else [];
    var forwards: seq<Action> := if rule.autoForward then ForwardActions(rule.forwardTargets, ev.chatId) else [];
    var tail := KeywordTail(rule, ev, regex);
    assert Forward(ev.chatId) !in forwards;
    var r := mail + forwards + tail;
    assert forall a :: a in r ==> a in mail || a in forwards || a in tail;
    r
  }

  /** What follows a keyword rule's forwards: the log line, then the regex send. */
  function KeywordTail(rule: KeywordRule, ev: Event, regex: RegexSearch): (r: seq<Action>)
    requires Handles(rule, ev, regex)
    ensures forall a :: a in r ==> a.WriteLog? || a.SendMatched?
    ensures forall a :: a in r && a.SendMatched? ==> rule.matchType == "regex" && rule.regexSendTarget == Some(a.target)
    ensures rule.logFile != "" <==> r != [] && r[0] == WriteLog(rule.logFile)
    ensures rule.matchType == "regex" && rule.regexSendTarget.Some? ==>
      SendMatched(rule.regexSendTarget.value, Hit(rule, ev.text, regex).value) in r
  {
    var log: seq<Action> := if rule.logFile != "" then [WriteLog(rule.logFile)] else [];
    var matched := Hit(rule, ev.text, regex);
    var send: seq<Action> :=
      if rule.matchType == "regex" && rule.regexSendTarget.Some?
      then [SendMatched(rule.regexSendTarget.value, matched.value)]
      else [];
    log + send
  }

  /**
   * What a handling keyword rule does as it runs: a forward that raises
   * skips the later targets only, and the log line and the regex send
   * still follow.
   */
  function KeywordActionsRun(rule: KeywordRule, ev: Event, regex: RegexSearch, fails: int -> bool): (r: seq<Action>)
    requires Handles(rule, ev, regex)
    ensures Subsequence(r, KeywordActions(rule, ev, regex))
    ensures (forall t :: t in rule.forwardTargets ==> !fails(t)) ==> r == KeywordActions(rule, ev, regex)
    ensures Forward(ev.chatId) !in r
    ensures rule.logFile != "" ==> WriteLog(rule.logFile) in r
    ensures rule.matchType == "regex" && rule.regexSendTarget.Some? ==>
      SendMatched(rule.regexSendTarget.value, Hit(rule, ev.text, regex).value) in r
  {
    var mail: seq<Action> := if rule.emailNotify then [Email] else [];
    var all: seq<Action> := if rule.autoForward then ForwardActions(rule.forwardTargets, ev.chatId) else [];
    var tried: seq<Action> := if rule.autoForward then ForwardsTried(rule.forwardTargets, ev.chatId, fails).0 else [];
    var tail := KeywordTail(rule, ev, regex);
    assert tried <= all;
    CutMiddle(mail, tried, all, tail);
    assert Forward(ev.chatId) !in tried by {
      assert Forward(ev.chatId) !in all;
    }
    var r := mail + tried + tail;
    assert forall a :: a in tail ==> a in r;
    assert forall a :: a in r ==> a in mail || a in tried || a in tail;
    r
  }

  /** Cutting the middle part short leaves a subsequence. */
  lemma CutMiddle<T>(x: seq<T>, t: seq<T>, y: seq<T>, z: seq<T>)
    requires t <= y
    ensures Subsequence(x + t + z, x + y + z)
  {
    PrefixIsSubsequence(x, x);
    PrefixIsSubsequence(t, y);
    PrefixIsSubsequence(z, z);
    SubsequenceConcat(x, x, t, y);
    SubsequenceConcat(x + t, x + y, z, z);
  }

  // ---------------------------------------------------------------- file phase

  /** The extension a file rule is looked up by: `os.path.splitext(name)[1].lower()`. */
  function FileExtension(name: string): string
  {
    Lower(FileMonitor.SplitExt(name))
  }

  /**
   * The file-extension rule: the actions, and whether the handler returns
   * (a rule for this chat whose user list refuses the sender ends the
   * handler, skipping the button phases).
   */
  function FilePhase(cfg: AccountConfig, ev: Event): (r: (seq<Action>, bool))
    ensures r.1 ==> r.0 == []
    ensures Forward(ev.chatId) !in r.0
    ensures r.0 != [] ==> ev.fileName != "" && FileExtension(ev.fileName) in cfg.files
  {
    if ev.fileName == "" then ([], false)
    else
      var ext := FileExtension(ev.fileName);
      if ext !in cfg.files || ev.chatId !in cfg.files[ext].chats then ([], false)
      else
        var rule := cfg.files[ext];
        if !MatchUser(ev.sender, rule.users, rule.option) then ([], true)
        else
          ((if rule.emailNotify then [Email] else [])
           + (if rule.autoForward then ForwardActions(rule.forwardTargets, ev.chatId) else []),
           false)
  }

  // ---------------------------------------------------------------- first phase

  /** The all-messages rule of the chat: mail, then a forward to every target. */
  function AllMessagesActions(rule: AllRule, ev: Event): (r: seq<Action>)
    ensures !MatchUser(ev.sender, rule.users, rule.option) ==> r == []
    ensures |r| <= 1 + |rule.forwardTargets|
    ensures forall a :: a in r ==> a == Email || (a.Forward? && a.target in rule.forwardTargets)
    ensures rule.emailNotify == (Email in r) || r == []
  {
    if !MatchUser(ev.sender, rule.users, rule.option) then []
    else
      (if rule.emailNotify then [Email] else [])
      + (if rule.autoForward then ForwardAll(rule.forwardTargets) else [])
  }

  /** Keyword rules, and the file rule only when no keyword rule handled the message. */
  function KeywordOrFile(cfg: AccountConfig, ev: Event, regex: RegexSearch): (r: (seq<Action>, bool))
    ensures Forward(ev.chatId) !in r.0
    ensures r.1 ==> r.0 == []
    ensures r.0 != [] && FirstHandling(cfg.keywords, ev, regex, 0).None? ==> ev.fileName != ""
  {
    match FirstHandling(cfg.keywords, ev, regex, 0)
    case Some(k) => (KeywordActions(cfg.keywords[k], ev, regex), false)
    case None => FilePhase(cfg, ev)
  }

  /** The text-and-file phase: the chat's all-messages rule if it has one, else keywords then files. */
  function FirstPhase(cfg: AccountConfig, ev: Event, regex: RegexSearch): (r: (seq<Action>, bool))
    ensures r.1 ==> r.0 == [] && ev.chatId !in cfg.allMessages && ev.fileName != ""
    ensures ev.chatId !in cfg.allMessages ==> Forward(ev.chatId) !in r.0
  {
    if ev.chatId in cfg.allMessages then (AllMessagesActions(cfg.allMessages[ev.chatId], ev), false)
    else KeywordOrFile(cfg, ev, regex)
  }

  // ---------------------------------------------------------------- buttons

  predicate LabelHas(caption: string, keyword: string)
  {
    Contains(Lower(caption), keyword)
  }

  /** The first button of one row, from column `c`, whose lowercased label contains `keyword`. */
  function FirstInRow(row: seq<string>, keyword: string, c: nat): (r: Option<nat>)
    requires c <= |row|
    ensures r.Some? ==> c <= r.value < |row| && LabelHas(row[r.value], keyword)
    ensures r.Some? ==> forall j :: c <= j < r.value ==> !LabelHas(row[j], keyword)
    ensures r.None? ==> forall j :: c <= j < |row| ==> !LabelHas(row[j], keyword)
    decreases |row| - c
  {
    if c == |row| then None
    else if LabelHas(row[c], keyword) then Some(c)
    else FirstInRow(row, keyword, c + 1)
  }

  /** The first matching button in row-major order, from row `r`. */
  function FirstButton(rows: seq<seq<string>>, keyword: string, r: nat): (res: Option<(nat, nat)>)
    requires r <= |rows|
    ensures res.Some? ==>
      r <= res.value.0 < |rows| && res.value.1 < |rows[res.value.0]|
      && LabelHas(rows[res.value.0][res.value.1], keyword)
      && (forall j :: 0 <= j < res.value.1 ==> !LabelHas(rows[res.value.0][j], keyword))
      && (forall i, j :: r <= i < res.value.0 && 0 <= j < |rows[i]| ==> !LabelHas(rows[i][j], keyword))
    ensures res.None? ==> forall i, j :: r <= i < |rows| && 0 <= j < |rows[i]| ==> !LabelHas(rows[i][j], keyword)
    decreases |rows| - r
  {
    if r == |rows| then None
    else
      match FirstInRow(rows[r], keyword, 0)
      case Some(c) => Some((r, c))
      case None => FirstButton(rows, keyword, r + 1)
  }

  /** A button rule applies to the event: its chat and its users. */
  predicate ButtonRuleApplies(rule: ButtonRule, ev: Event)
  {
    ev.chatId in rule.chats && MatchUser(ev.sender, rule.users, rule.option)
  }

  /**
   * The button rules in order from `from`: the first applying rule with a
   * matching button gives the click; an applying rule without one passes
   * on to the next rule.
   */
  function ButtonClick(rules: seq<ButtonRule>, ev: Event, from: nat): (res: Option<(nat, nat)>)
    requires from <= |rules|
    ensures res.Some? ==> res.value.0 < |ev.buttons| && res.value.1 < |ev.buttons[res.value.0]|
    ensures res.Some? ==>
      exists k :: from <= k < |rules| && ButtonRuleApplies(rules[k], ev)
                  && LabelHas(ev.buttons[res.value.0][res.value.1], rules[k].keyword)
    ensures res.None? ==>
      forall k, i, j ::
        from <= k < |rules| && ButtonRuleApplies(rules[k], ev) && 0 <= i < |ev.buttons| && 0 <= j < |ev.buttons[i]|
        ==> !LabelHas(ev.buttons[i][j], rules[k].keyword)
    decreases |rules| - from
  {
    if from == |rules| then None
    else if ButtonRuleApplies(rules[from], ev) && FirstButton(ev.buttons, rules[from].keyword, 0).Some? then
      FirstButton(ev.buttons, rules[from].keyword, 0)
    else
      ButtonClick(rules, ev, from + 1)
  }

  // ---------------------------------------------------------------- image buttons

  /** Every label stripped, as the image-button rule compares them with the answer. */
  function StrippedRows(rows: seq<seq<string>>): (r: seq<seq<string>>)
    ensures |r| == |rows|
    ensures forall i :: 0 <= i < |rows| ==> |r[i]| == |rows[i]|
    ensures forall i, j :: 0 <= i < |rows| && 0 <= j < |rows[i]| ==> r[i][j] == Strip(rows[i][j])
  {
    seq(|rows|, i requires 0 <= i < |rows| => seq(|rows[i]|, j requires 0 <= j < |rows[i]| => Strip(rows[i][j])))
  }

  /** The first column of a row, from `c`, whose stripped label equals `answer`. */
  function FirstEqualInRow(labels: seq<string>, answer: string, c: nat): (r: Option<nat>)
    requires c <= |labels|
    ensures r.Some? ==> c <= r.value < |labels| && labels[r.value] == answer
    ensures r.Some? ==> forall j :: c <= j < r.value ==> labels[j] != answer
    ensures r.None? ==> forall j :: c <= j < |labels| ==> labels[j] != answer
    decreases |labels| - c
  {
    if c == |labels| then None
    else if labels[c] == answer then Some(c)
    else FirstEqualInRow(labels, answer, c + 1)
  }

  /**
   * The AI-answer clicks from row `r` on, over the stripped labels: the
   * inner loop breaks after a click but the outer loop goes on, so each row
   * gets at most one click, on its first button showing the answer.
   */
  function ImageClicks(labels: seq<seq<string>>, answer: string, r: nat): (res: seq<Action>)
    requires r <= |labels|
    ensures forall k :: 0 <= k < |res| ==>
      res[k].Click? && r <= res[k].row < |labels| && res[k].col < |labels[res[k].row]|
      && labels[res[k].row][res[k].col] == answer
    ensures forall k, m :: 0 <= k < m < |res| ==> res[k].row < res[m].row
    decreases |labels| - r
  {
    if r == |labels| then []
    else
      match FirstEqualInRow(labels[r], answer, 0)
      case Some(c) => [Click(r, c)] + ImageClicks(labels, answer, r + 1)
      case None => ImageClicks(labels, answer, r + 1)
  }

  /** Every row showing the answer gets a click, on its first button that does. */
  lemma {:induction false} ImageClicksCoverRows(labels: seq<seq<string>>, answer: string, r: nat, i: nat, j: nat)
    requires r <= i < |labels| && j < |labels[i]| && labels[i][j] == answer
    ensures exists c: nat :: c <= j && Click(i, c) in ImageClicks(labels, answer, r)
    decreases |labels| - r
  {
    var first := FirstEqualInRow(labels[r], answer, 0);
    if i == r {
      assert first.Some? && first.value <= j;
      assert ImageClicks(labels, answer, r)[0] == Click(i, first.value);
    } else {
      ImageClicksCoverRows(labels, answer, r + 1, i, j);
      var c: nat :| c <= j && Click(i, c) in ImageClicks(labels, answer, r + 1);
      if first.Some? {
        assert ImageClicks(labels, answer, r) == [Click(r, first.value)] + ImageClicks(labels, answer, r + 1);
      }
    }
  }

  /**
   * The button phases: a keyword button click ends the handler, else the
   * image-button rule, which compares the stripped labels with the AI's
   * stripped answer.
   */
  function ButtonPhases(cfg: AccountConfig, ev: Event, aiAnswer: Option<string>): (r: seq<Action>)
    ensures ev.buttons == [] ==> r == []
    ensures forall k :: 0 <= k < |r| ==> r[k].Click? && r[k].row < |ev.buttons| && r[k].col < |ev.buttons[r[k].row]|
    ensures |r| > 1 ==> ev.chatId in cfg.imageButtonChats && ev.hasImage && ButtonClick(cfg.buttons, ev, 0).None?
  {
    if ev.buttons == [] then []
    else
      match ButtonClick(cfg.buttons, ev, 0)
      case Some(rc) => [Click(rc.0, rc.1)]
      case None => ImagePhase(cfg, ev, aiAnswer)
  }

  /** The image-button rule: one click per row showing the AI's stripped answer. */
  function ImagePhase(cfg: AccountConfig, ev: Event, aiAnswer: Option<string>): (r: seq<Action>)
    ensures forall k :: 0 <= k < |r| ==>
      r[k].Click? && r[k].row < |ev.buttons| && r[k].col < |ev.buttons[r[k].row]|
      && aiAnswer.Some? && Strip(ev.buttons[r[k].row][r[k].col]) == Strip(aiAnswer.value)
    ensures r != [] ==> ev.chatId in cfg.imageButtonChats && ev.hasImage
  {
    if ev.chatId in cfg.imageButtonChats && ev.hasImage && aiAnswer.Some?
    then ImageClicks(StrippedRows(ev.buttons), Strip(aiAnswer.value), 0)
    else []
  }

  // ---------------------------------------------------------------- the handler

  /** Messages from a blocked bot or from the account itself are ignored. */
  predicate Ignored(cfg: AccountConfig, blocked: set<int>, ev: Event)
    ensures ev.sender.None? ==> !Ignored(cfg, blocked, ev)
    ensures ev.sender.Some? && ev.sender.value.id == cfg.ownUserId ==> Ignored(cfg, blocked, ev)
    ensures ev.sender.Some? && !ev.sender.value.bot && ev.sender.value.id != cfg.ownUserId ==> !Ignored(cfg, blocked, ev)
  {
    ev.sender.Some?
    && ((ev.sender.value.bot && ev.sender.value.id in blocked) || ev.sender.value.id == cfg.ownUserId)
  }

  /**
   * Everything the handler does for a message seen for the first time when
   * nothing raises; `Outcome` below is this list cut short by exceptions.
   */
  function Respond(cfg: AccountConfig, blocked: set<int>, ev: Event, regex: RegexSearch, aiAnswer: Option<string>): (r: seq<Action>)
    ensures Ignored(cfg, blocked, ev) ==> r == []
    ensures ev.sender.Some? && ev.sender.value.id == cfg.ownUserId ==> r == []
    ensures ev.sender.Some? && ev.sender.value.bot && ev.sender.value.id in blocked ==> r == []
    ensures ev.chatId !in cfg.allMessages ==> Forward(ev.chatId) !in r
  {
    if Ignored(cfg, blocked, ev) then []
    else
      var (first, stop) := FirstPhase(cfg, ev, regex);
      if stop then first else first + ButtonPhases(cfg, ev, aiAnswer)
  }

  // ---------------------------------------------------------------- exceptions

  /**
   * What can raise: `re.compile` of a keyword that is not a valid pattern,
   * and a forward to a target. A forward of the all-messages loop raises
   * into the handler's `try` and ends the handler; the keyword and file
   * forwards sit in their own `try`, which ends only their loop. Mail, log
   * lines and the regex send catch their own errors.
   */
  datatype Faults = Faults(invalidPattern: string -> bool, forwardFails: int -> bool)

  /** `match_user` raises: a non-empty user list read against a channel, which has no first name. */
  predicate MatchUserRaises(sender: Option<Sender>, users: set<UserKey>)
  {
    users != {} && sender.Some? && sender.value.channel
  }

  /** The forwards of the all-messages loop up to the first that fails, and whether one did. */
  function ForwardUntilFailure(targets: seq<int>, fails: int -> bool): (r: (seq<Action>, bool))
    ensures r.1 <==> exists k :: 0 <= k < |targets| && fails(targets[k])
    ensures |r.0| <= |targets| && r.0 <= ForwardAll(targets)
    ensures forall k :: 0 <= k < |r.0| ==> !fails(targets[k])
    ensures r.1 ==> |r.0| < |targets| && fails(targets[|r.0|])
    ensures !r.1 ==> r.0 == ForwardAll(targets)
  {
    if targets == [] then ([], false)
    else if fails(targets[0]) then ([], true)
    else
      var rest := ForwardUntilFailure(targets[1..], fails);
      assert forall k :: 1 <= k < |targets| ==> targets[k] == targets[1..][k - 1];
      assert ForwardAll(targets) == [Forward(targets[0])] + ForwardAll(targets[1..]);
      assert rest.1 ==> fails(targets[|rest.0| + 1]);
      ([Forward(targets[0])] + rest.0, rest.1)
  }

  /** The all-messages loop, proved against `ForwardUntilFailure`. */
  method ForwardEach(targets: seq<int>, fails: int -> bool) returns (acts: seq<Action>, failed: bool)
    ensures (acts, failed) == ForwardUntilFailure(targets, fails)
  {
    acts, failed := [], false;
    var i := 0;
    while i < |targets|
      invariant 0 <= i <= |targets|
      invariant forall k :: 0 <= k < i ==> !fails(targets[k])
      invariant acts == ForwardAll(targets)[..i]
    {
      if fails(targets[i]) {
        var r := ForwardUntilFailure(targets, fails);
        assert |r.0| == i;
        assert r.1 by { assert 0 <= i < |targets| && fails(targets[i]); }
        assert r.0 == ForwardAll(targets)[..i] by { assert r.0 <= ForwardAll(targets); }
        return acts, true;
      }
      acts := acts + [Forward(targets[i])];
      i := i + 1;
    }
    assert ForwardAll(targets)[..i] == ForwardAll(targets);
  }

  /**
   * The all-messages rule as it runs: `match_user` may raise, and a failed
   * forward ends the handler after the forwards before it.
   */
  function AllMessagesRun(rule: AllRule, ev: Event, faults: Faults): (r: (seq<Action>, bool))
    ensures r == (AllMessagesActions(rule, ev), false) || (r.1 && r.0 <= AllMessagesActions(rule, ev))
    ensures !MatchUserRaises(ev.sender, rule.users) && (forall t :: t in rule.forwardTargets ==> !faults.forwardFails(t))
            ==> r == (AllMessagesActions(rule, ev), false)
  {
    if MatchUserRaises(ev.sender, rule.users) then ([], true)
    else if !MatchUser(ev.sender, rule.users, rule.option) then ([], false)
    else
      var mail := if rule.emailNotify then [Email] else [];
      if !rule.autoForward then
        assert mail + [] == mail;
        (mail, false)
      else
        var sent := ForwardUntilFailure(rule.forwardTargets, faults.forwardFails);
        (mail + sent.0, sent.1)
  }

  /** Keyword rule `rule` raises: it is for this chat and `match_user` or `re.compile` raises. */
  predicate KeywordRaises(rule: KeywordRule, ev: Event, faults: Faults)
  {
    ev.chatId in rule.chats
    && (MatchUserRaises(ev.sender, rule.users)
        || (MatchUser(ev.sender, rule.users, rule.option) && rule.matchType == "regex" && faults.invalidPattern(rule.keyword)))
  }

  /** The keyword loop stops at a rule: it raises or it handles the message. */
  predicate Stops(rule: KeywordRule, ev: Event, regex: RegexSearch, faults: Faults)
  {
    KeywordRaises(rule, ev, faults) || Handles(rule, ev, regex)
  }

  /**
   * The first keyword rule at or after `from` where the loop stops. When it
   * stops without raising, it stops where `FirstHandling` does.
   */
  function FirstStop(rules: seq<KeywordRule>, ev: Event, regex: RegexSearch, faults: Faults, from: nat): (r: Option<nat>)
    requires from <= |rules|
    ensures r.Some? ==> from <= r.value < |rules| && Stops(rules[r.value], ev, regex, faults)
    ensures r.Some? ==> forall j :: from <= j < r.value ==> !Stops(rules[j], ev, regex, faults)
    ensures r.None? <==> forall j :: from <= j < |rules| ==> !Stops(rules[j], ev, regex, faults)
    ensures r.None? ==> FirstHandling(rules, ev, regex, from).None?
    ensures r.Some? && !KeywordRaises(rules[r.value], ev, faults) ==> FirstHandling(rules, ev, regex, from) == r
    decreases |rules| - from
  {
    if from == |rules| then None
    else if Stops(rules[from], ev, regex, faults) then Some(from)
    else FirstStop(rules, ev, regex, faults, from + 1)
  }

  /** The keyword loop with its `break` and its exceptions, proved against `FirstStop`. */
  method ScanKeywordRules(rules: seq<KeywordRule>, ev: Event, regex: RegexSearch, faults: Faults) returns (k: Option<nat>)
    ensures k == FirstStop(rules, ev, regex, faults, 0)
  {
    var i := 0;
    while i < |rules|
      invariant 0 <= i <= |rules|
      invariant FirstStop(rules, ev, regex, faults, 0) == FirstStop(rules, ev, regex, faults, i)
    {
      if KeywordRaises(rules[i], ev, faults) || Handles(rules[i], ev, regex) {
        return Some(i);
      }
      i := i + 1;
    }
    return None;
  }

  /**
   * The file-extension rule as it runs: `match_user` on a rule for this chat
   * may raise, and a forward that raises skips the later targets only.
   */
  function FilePhaseRun(cfg: AccountConfig, ev: Event, fails: int -> bool): (r: (seq<Action>, bool))
    ensures r == ([], true) || (!r.1 && !FilePhase(cfg, ev).1 && r.0 <= FilePhase(cfg, ev).0)
    ensures ev.sender.None? || !ev.sender.value.channel ==> r.1 == FilePhase(cfg, ev).1
    ensures (ev.sender.None? || !ev.sender.value.channel) && (forall t :: !fails(t)) ==> r == FilePhase(cfg, ev)
  {
    if ev.fileName == "" then ([], false)
    else
      var ext := FileExtension(ev.fileName);
      if ext !in cfg.files || ev.chatId !in cfg.files[ext].chats then ([], false)
      else
        var rule := cfg.files[ext];
        if MatchUserRaises(ev.sender, rule.users) || !MatchUser(ev.sender, rule.users, rule.option) then ([], true)
        else
          var mail: seq<Action> := if rule.emailNotify then [Email] else [];
          var all: seq<Action> := if rule.autoForward then ForwardActions(rule.forwardTargets, ev.chatId) else [];
          var tried: seq<Action> := if rule.autoForward then ForwardsTried(rule.forwardTargets, ev.chatId, fails).0 else [];
          assert FilePhase(cfg, ev).0 == mail + all;
          (mail + tried, false)
  }

  /** Keyword rules, then the file rule, as they run; the flag says the handler ends here. */
  function KeywordOrFileRun(cfg: AccountConfig, ev: Event, regex: RegexSearch, faults: Faults): (r: (seq<Action>, bool))
    ensures r == ([], true)
            || (!r.1 && !KeywordOrFile(cfg, ev, regex).1 && Subsequence(r.0, KeywordOrFile(cfg, ev, regex).0))
    ensures (forall t :: !faults.forwardFails(t)) ==> r == KeywordOrFile(cfg, ev, regex) || r == ([], true)
  {
    match FirstStop(cfg.keywords, ev, regex, faults, 0)
    case Some(k) =>
      if KeywordRaises(cfg.keywords[k], ev, faults) then ([], true)
      else
        var rule := cfg.keywords[k];
        assert FirstHandling(cfg.keywords, ev, regex, 0) == Some(k);
        assert KeywordOrFile(cfg, ev, regex) == (KeywordActions(rule, ev, regex), false);
        (KeywordActionsRun(rule, ev, regex, faults.forwardFails), false)
    case None =>
      var r := FilePhaseRun(cfg, ev, faults.forwardFails);
      PrefixIsSubsequence(r.0, FilePhase(cfg, ev).0);
      r
  }

  /**
   * The text-and-file phase as it runs: a subsequence of its actions, cut
   * short where something raises into the handler's `try`.
   */
  function FirstPhaseRun(cfg: AccountConfig, ev: Event, regex: RegexSearch, faults: Faults): (r: (seq<Action>, bool))
    ensures Subsequence(r.0, FirstPhase(cfg, ev, regex).0)
    ensures !r.1 ==> !FirstPhase(cfg, ev, regex).1
    ensures ev.chatId in cfg.allMessages || (forall t :: !faults.forwardFails(t)) ==>
      r == FirstPhase(cfg, ev, regex) || (r.1 && r.0 <= FirstPhase(cfg, ev, regex).0)
  {
    if ev.chatId in cfg.allMessages then
      var r := AllMessagesRun(cfg.allMessages[ev.chatId], ev, faults);
      PrefixIsSubsequence(r.0, FirstPhase(cfg, ev, regex).0);
      r
    else KeywordOrFileRun(cfg, ev, regex, faults)
  }

  /** A button rule for this chat whose `match_user` raises. */
  predicate ButtonRuleRaises(rule: ButtonRule, ev: Event)
  {
    ev.chatId in rule.chats && MatchUserRaises(ev.sender, rule.users)
  }

  /** The button-keyword rules as they run: the flag says a rule's `match_user` raised first. */
  function ButtonClickRun(rules: seq<ButtonRule>, ev: Event, from: nat): (r: (Option<(nat, nat)>, bool))
    requires from <= |rules|
    ensures r == (ButtonClick(rules, ev, from), false) || r == (None, true)
    ensures r.1 <==> exists k :: from <= k < |rules| && ButtonRuleRaises(rules[k], ev)
                              && (forall j :: from <= j < k ==>
                                    !ButtonRuleApplies(rules[j], ev) || FirstButton(ev.buttons, rules[j].keyword, 0).None?)
    decreases |rules| - from
  {
    if from == |rules| then (None, false)
    else if ButtonRuleRaises(rules[from], ev) then (None, true)
    else if ButtonRuleApplies(rules[from], ev) && FirstButton(ev.buttons, rules[from].keyword, 0).Some? then
      (FirstButton(ev.buttons, rules[from].keyword, 0), false)
    else
      var rest := ButtonClickRun(rules, ev, from + 1);
      assert rest.1 ==> exists k :: from <= k < |rules| && ButtonRuleRaises(rules[k], ev)
                              && (forall j :: from <= j < k ==>
                                    !ButtonRuleApplies(rules[j], ev) || FirstButton(ev.buttons, rules[j].keyword, 0).None?);
      rest
  }

  /** The button phases as they run: a raising button rule ends the handler with no click. */
  function ButtonPhasesRun(cfg: AccountConfig, ev: Event, aiAnswer: Option<string>): (r: seq<Action>)
    ensures r == ButtonPhases(cfg, ev, aiAnswer) || r == []
    ensures ev.sender.None? || !ev.sender.value.channel ==> r == ButtonPhases(cfg, ev, aiAnswer)
  {
    if ev.buttons == [] then []
    else
      match ButtonClickRun(cfg.buttons, ev, 0)
      case (_, true) => []
      case (Some(rc), false) => [Click(rc.0, rc.1)]
      case (None, false) => ImagePhase(cfg, ev, aiAnswer)
  }

  /**
   * What the handler does for a message seen for the first time, with its
   * exceptions: whatever raises into the catch-all ends the handler, and a
   * keyword or file forward that raises skips the later targets of its
   * loop, so the actions are a subsequence of those `Respond` lists, and a
   * prefix of them while no keyword or file forward fails.
   */
  function Outcome(cfg: AccountConfig, blocked: set<int>, ev: Event, regex: RegexSearch, aiAnswer: Option<string>,
                   faults: Faults): (r: seq<Action>)
    ensures Subsequence(r, Respond(cfg, blocked, ev, regex, aiAnswer))
    ensures ev.chatId in cfg.allMessages || (forall t :: !faults.forwardFails(t)) ==>
      r <= Respond(cfg, blocked, ev, regex, aiAnswer)
  {
    if Ignored(cfg, blocked, ev) then []
    else
      var (first, ends) := FirstPhaseRun(cfg, ev, regex, faults);
      var spec := FirstPhase(cfg, ev, regex);
      if ends then
        PrefixIsSubsequence([], if spec.1 then [] else ButtonPhases(cfg, ev, aiAnswer));
        SubsequenceConcat(first, spec.0, [], if spec.1 then [] else ButtonPhases(cfg, ev, aiAnswer));
        assert first + [] == first;
        first
      else
        var buttons := ButtonPhasesRun(cfg, ev, aiAnswer);
        PrefixIsSubsequence(buttons, if buttons == [] then [] else ButtonPhases(cfg, ev, aiAnswer));
        SubsequenceInLonger(buttons, [], ButtonPhases(cfg, ev, aiAnswer));
        SubsequenceConcat(first, spec.0, buttons, ButtonPhases(cfg, ev, aiAnswer));
        first + buttons
  }

  /** `a` is `b` with some of its elements left out. */
  predicate Subsequence<T(==)>(a: seq<T>, b: seq<T>)
    decreases |b|
  {
    a == [] || (b != [] && ((a[0] == b[0] && Subsequence(a[1..], b[1..])) || Subsequence(a, b[1..])))
  }

  /** A prefix is a subsequence. */
  lemma {:induction false} PrefixIsSubsequence<T>(a: seq<T>, b: seq<T>)
    requires a <= b
    ensures Subsequence(a, b)
    decreases |a|
  {
    if a != [] {
      assert a[1..] <= b[1..];
      PrefixIsSubsequence(a[1..], b[1..]);
    }
  }

  /** A subsequence of `b` is one of any `c + b`. */
  lemma {:induction false} SubsequenceInLonger<T>(a: seq<T>, c: seq<T>, b: seq<T>)
    requires Subsequence(a, b)
    ensures Subsequence(a, c + b)
    decreases |c|
  {
    if c != [] && a != [] {
      assert (c + b)[1..] == c[1..] + b;
      SubsequenceInLonger(a, c[1..], b);
    } else if c == [] {
      assert c + b == b;
    }
  }

  /** Subsequences of two parts give a subsequence of the whole. */
  lemma {:induction false} SubsequenceConcat<T>(a1: seq<T>, b1: seq<T>, a2: seq<T>, b2: seq<T>)
    requires Subsequence(a1, b1) && Subsequence(a2, b2)
    ensures Subsequence(a1 + a2, b1 + b2)
    decreases |b1|
  {
    if a1 == [] {
      assert a1 + a2 == a2;
      SubsequenceInLonger(a2, b1, b2);
    } else {
      assert (b1 + b2)[1..] == b1[1..] + b2;
      assert (a1 + a2)[1..] == a1[1..] + a2;
      if a1[0] == b1[0] && Subsequence(a1[1..], b1[1..]) {
        SubsequenceConcat(a1[1..], b1[1..], a2, b2);
      } else {
        SubsequenceConcat(a1, b1[1..], a2, b2);
      }
    }
  }

  /** Nothing in the handler can raise: no channel sender, no invalid pattern, no failing forward. */
  ghost predicate FaultFree(ev: Event, faults: Faults)
  {
    (ev.sender.None? || !ev.sender.value.channel)
    && (forall p :: !faults.invalidPattern(p))
    && (forall t :: !faults.forwardFails(t))
  }

  /** When nothing raises, the handler does everything `Respond` lists. */
  lemma FaultFreeOutcome(cfg: AccountConfig, blocked: set<int>, ev: Event, regex: RegexSearch, ai: Option<string>, faults: Faults)
    requires FaultFree(ev, faults)
    ensures Outcome(cfg, blocked, ev, regex, ai, faults) == Respond(cfg, blocked, ev, regex, ai)
  {
    if !Ignored(cfg, blocked, ev) && ev.chatId !in cfg.allMessages {
      var k := FirstStop(cfg.keywords, ev, regex, faults, 0);
      assert k.Some? ==> !KeywordRaises(cfg.keywords[k.value], ev, faults);
    }
  }

  /**
   * A keyword rule for this chat whose pattern does not compile silences the
   * message: the exception ends the handler before any later rule, even one
   * that matches, is tried.
   */
  lemma InvalidPatternSilences(cfg: AccountConfig, blocked: set<int>, ev: Event, regex: RegexSearch, ai: Option<string>, faults: Faults)
    requires ev.chatId !in cfg.allMessages && |cfg.keywords| >= 1
    requires var rule := cfg.keywords[0];
      ev.chatId in rule.chats && rule.users == {} && rule.matchType == "regex" && faults.invalidPattern(rule.keyword)
    ensures Outcome(cfg, blocked, ev, regex, ai, faults) == []
  {
    assert Stops(cfg.keywords[0], ev, regex, faults);
  }

  /**
   * A failing forward in the all-messages loop ends the handler: no later
   * target gets the message and no button is clicked.
   */
  lemma FailedForwardEndsHandler(cfg: AccountConfig, blocked: set<int>, ev: Event, regex: RegexSearch, ai: Option<string>, faults: Faults, k: nat)
    requires !Ignored(cfg, blocked, ev) && ev.chatId in cfg.allMessages
    requires var rule := cfg.allMessages[ev.chatId];
      rule.users == {} && rule.autoForward && k < |rule.forwardTargets| && faults.forwardFails(rule.forwardTargets[k])
    ensures var rule := cfg.allMessages[ev.chatId];
      Outcome(cfg, blocked, ev, regex, ai, faults) <= AllMessagesActions(rule, ev)
      && |Outcome(cfg, blocked, ev, regex, ai, faults)| <= (if rule.emailNotify then 1 else 0) + k
    ensures forall a :: a in Outcome(cfg, blocked, ev, regex, ai, faults) ==> !a.Click?
  {
    var rule := cfg.allMessages[ev.chatId];
    AllMessagesRunFails(rule, ev, faults, k);
    assert FirstPhaseRun(cfg, ev, regex, faults) == AllMessagesRun(rule, ev, faults);
    EndingFirstPhaseIsOutcome(cfg, blocked, ev, regex, ai, faults);
  }

  /** The all-messages loop with a failing target: it ends the handler after at most the mail and the earlier forwards. */
  lemma AllMessagesRunFails(rule: AllRule, ev: Event, faults: Faults, k: nat)
    requires rule.users == {} && rule.autoForward && k < |rule.forwardTargets| && faults.forwardFails(rule.forwardTargets[k])
    ensures var r := AllMessagesRun(rule, ev, faults);
      r.1 && r.0 <= AllMessagesActions(rule, ev) && |r.0| <= (if rule.emailNotify then 1 else 0) + k
      && forall a :: a in r.0 ==> !a.Click?
  {
    var sent := ForwardUntilFailure(rule.forwardTargets, faults.forwardFails);
    assert sent.1;
    var mail: seq<Action> := if rule.emailNotify then [Email] else [];
    var r := AllMessagesRun(rule, ev, faults);
    assert r == (mail + sent.0, true);
    forall a | a in r.0 ensures !a.Click? {
      if a in sent.0 {
        var j :| 0 <= j < |sent.0| && sent.0[j] == a;
        assert sent.0[j] == ForwardAll(rule.forwardTargets)[j];
      }
    }
  }

  /** A first phase that raises is all the handler does. */
  lemma EndingFirstPhaseIsOutcome(cfg: AccountConfig, blocked: set<int>, ev: Event, regex: RegexSearch, ai: Option<string>, faults: Faults)
    requires !Ignored(cfg, blocked, ev) && FirstPhaseRun(cfg, ev, regex, faults).1
    ensures Outcome(cfg, blocked, ev, regex, ai, faults) == FirstPhaseRun(cfg, ev, regex, faults).0
  {
  }

  /**
   * A keyword rule whose first forward target fails: the error stays inside
   * the forwarding loop, so the second target is skipped while the log line
   * still follows, and the handler's actions are no prefix of `Respond`.
   */
  lemma FailedKeywordForwardSkipsLaterTargets(cfg: AccountConfig, blocked: set<int>, ev: Event, regex: RegexSearch,
                                              ai: Option<string>, faults: Faults, t1: int, t2: int)
    requires !Ignored(cfg, blocked, ev) && ev.chatId !in cfg.allMessages && |cfg.keywords| >= 1
    requires var rule := cfg.keywords[0];
      ev.chatId in rule.chats && rule.users == {} && rule.matchType == "partial"
      && Contains(Strip(Lower(ev.text)), rule.keyword)
      && rule.autoForward && rule.forwardTargets == [t1, t2] && t1 != ev.chatId && t2 != ev.chatId
      && faults.forwardFails(t1)
    ensures var out := Outcome(cfg, blocked, ev, regex, ai, faults);
      Forward(t1) !in out && Forward(t2) !in out && Forward(t2) in Respond(cfg, blocked, ev, regex, ai)
    ensures cfg.keywords[0].logFile != "" ==>
      var out := Outcome(cfg, blocked, ev, regex, ai, faults);
      WriteLog(cfg.keywords[0].logFile) in out && !(out <= Respond(cfg, blocked, ev, regex, ai))
  {
    var rule := cfg.keywords[0];
    FirstPartialRuleStops(cfg.keywords, ev, regex, faults);
    KeywordRuleOutcome(cfg, blocked, ev, regex, ai, faults, 0);
    var run := KeywordActionsRun(rule, ev, regex, faults.forwardFails);
    var n := if rule.emailNotify then 1 else 0;
    KeywordRunSkipsBoth(rule, ev, regex, faults.forwardFails, t1, t2);
    var buttons := ButtonPhasesRun(cfg, ev, ai);
    assert forall a :: a in buttons ==> a.Click?;
    SkipTwo(run, n, Forward(t1), Forward(t2), buttons, ButtonPhases(cfg, ev, ai));
  }

  /** A first partial rule of the chat with no user list, whose keyword the text contains, stops the loop without raising. */
  lemma FirstPartialRuleStops(rules: seq<KeywordRule>, ev: Event, regex: RegexSearch, faults: Faults)
    requires |rules| >= 1 && ev.chatId in rules[0].chats && rules[0].users == {} && rules[0].matchType == "partial"
    requires Contains(Strip(Lower(ev.text)), rules[0].keyword)
    ensures FirstStop(rules, ev, regex, faults, 0) == Some(0) && !KeywordRaises(rules[0], ev, faults)
  {
    assert Stops(rules[0], ev, regex, faults);
  }

  /** Two elements put back into a list that lacks them: the shortened list is no prefix of the whole. */
  lemma SkipTwo<T>(run: seq<T>, n: nat, f1: T, f2: T, buttons: seq<T>, shown: seq<T>)
    requires n <= |run| && f1 !in run && f2 !in run && f1 !in buttons && f2 !in buttons
    ensures var out := run + buttons;
      var whole := run[..n] + [f1, f2] + run[n..] + shown;
      f1 !in out && f2 !in out && f2 in whole && (n < |run| ==> out[n] == run[n] && !(out <= whole))
  {
    var whole := run[..n] + [f1, f2] + run[n..] + shown;
    assert whole[n] == f1 && whole[n + 1] == f2;
  }

  /** When the keyword loop stops at rule `k` without raising, the handler runs that rule, then the button phases. */
  lemma KeywordRuleOutcome(cfg: AccountConfig, blocked: set<int>, ev: Event, regex: RegexSearch, ai: Option<string>,
                           faults: Faults, k: nat)
    requires !Ignored(cfg, blocked, ev) && ev.chatId !in cfg.allMessages
    requires FirstStop(cfg.keywords, ev, regex, faults, 0) == Some(k) && !KeywordRaises(cfg.keywords[k], ev, faults)
    ensures Handles(cfg.keywords[k], ev, regex)
    ensures Outcome(cfg, blocked, ev, regex, ai, faults)
      == KeywordActionsRun(cfg.keywords[k], ev, regex, faults.forwardFails) + ButtonPhasesRun(cfg, ev, ai)
    ensures Respond(cfg, blocked, ev, regex, ai) == KeywordActions(cfg.keywords[k], ev, regex) + ButtonPhases(cfg, ev, ai)
  {
    assert FirstHandling(cfg.keywords, ev, regex, 0) == Some(k);
    assert KeywordOrFileRun(cfg, ev, regex, faults) == (KeywordActionsRun(cfg.keywords[k], ev, regex, faults.forwardFails), false);
  }

  /** The keyword rule's run when its first of two targets fails: both forwards are left out, nothing else. */
  lemma KeywordRunSkipsBoth(rule: KeywordRule, ev: Event, regex: RegexSearch, fails: int -> bool, t1: int, t2: int)
    requires Handles(rule, ev, regex) && rule.autoForward && rule.forwardTargets == [t1, t2]
    requires t1 != ev.chatId && t2 != ev.chatId && fails(t1)
    ensures var run := KeywordActionsRun(rule, ev, regex, fails);
      var n := if rule.emailNotify then 1 else 0;
      n <= |run| && KeywordActions(rule, ev, regex) == run[..n] + [Forward(t1), Forward(t2)] + run[n..]
      && Forward(t1) !in run && Forward(t2) !in run
      && (rule.logFile != "" ==> run[n] == WriteLog(rule.logFile))
  {
    TwoTargetsFirstFails(rule.forwardTargets, ev.chatId, fails, t1, t2);
    var mail: seq<Action> := if rule.emailNotify then [Email] else [];
    var tail := KeywordTail(rule, ev, regex);
    var run := KeywordActionsRun(rule, ev, regex, fails);
    assert run == mail + [] + tail;
    assert KeywordActions(rule, ev, regex) == mail + [Forward(t1), Forward(t2)] + tail;
    Reinsert(mail, [Forward(t1), Forward(t2)], tail);
    assert forall a :: a in run ==> a in mail || a in tail;
  }

  /** Putting a part back between the front and the rest. */
  lemma Reinsert<T>(m: seq<T>, f: seq<T>, t: seq<T>)
    ensures var run := m + [] + t;
      |m| <= |run| && m + f + t == run[..|m|] + f + run[|m|..] && (t != [] ==> run[|m|] == t[0])
  {
    var run := m + [] + t;
    assert run[..|m|] == m && run[|m|..] == t;
  }

  /** Two targets, the first of which fails: neither is forwarded. */
  lemma TwoTargetsFirstFails(targets: seq<int>, source: int, fails: int -> bool, t1: int, t2: int)
    requires targets == [t1, t2] && t1 != source && t2 != source && fails(t1)
    ensures ForwardActions(targets, source) == [Forward(t1), Forward(t2)]
    ensures ForwardsTried(targets, source, fails).0 == []
  {
    assert targets[..1] == [t1];
    assert ForwardActions([t1], source) == [Forward(t1)] by {
      assert [t1][..0] == [];
    }
    var tried := ForwardsTried(targets, source, fails);
    assert tried.1 by { assert t1 in targets; }
  }

  /** A channel posting where a keyword rule of the chat lists users: the handler raises at that rule. */
  lemma ChannelSenderRaisesAtUserList(cfg: AccountConfig, blocked: set<int>, ev: Event, regex: RegexSearch, ai: Option<string>, faults: Faults)
    requires !Ignored(cfg, blocked, ev) && ev.chatId !in cfg.allMessages && |cfg.keywords| >= 1
    requires ev.sender.Some? && ev.sender.value.channel
    requires ev.chatId in cfg.keywords[0].chats && cfg.keywords[0].users != {}
    ensures Outcome(cfg, blocked, ev, regex, ai, faults) == []
  {
    assert Stops(cfg.keywords[0], ev, regex, faults);
  }

  /** The handler's process-wide state: the de-duplication set and the blocked bots. */
  class Handler {
    var processed: set<(int, int)>
    var blockedBots: set<int>

    constructor()
      ensures processed == {} && blockedBots == {}
    {
      processed := {};
      blockedBots := {};
    }

    /** `blockbot`: a stripped all-digit id is added; anything else changes nothing. */
    method BlockBot(input: string)
      modifies this
      ensures processed == old(processed)
      ensures var s := Strip(input);
        blockedBots == if s != "" && AllDigits(s) then old(blockedBots) + {DecimalValue(s)} else old(blockedBots)
    {
      var s := Strip(input);
      if s != "" && AllDigits(s) {
        blockedBots := blockedBots + {DecimalValue(s)};
      }
    }

    /** `unblockbot`: a stripped all-digit id is removed. */
    method UnblockBot(input: string)
      modifies this
      ensures processed == old(processed)
      ensures var s := Strip(input);
        blockedBots == if s != "" && AllDigits(s) then old(blockedBots) - {DecimalValue(s)} else old(blockedBots)
    {
      var s := Strip(input);
      if s != "" && AllDigits(s) {
        var id := DecimalValue(s);
        if id in blockedBots {
          blockedBots := blockedBots - {id};
        }
      }
    }

    /**
     * `message_handler`: with monitoring stopped, or for an account that is
     * not registered (`account` is None), it returns before recording
     * anything; a (chat, message) pair already seen does nothing; otherwise
     * it is recorded first, then the phases run until one ends the handler or
     * raises into its catch-all.
     */
    method HandleMessage(monitorActive: bool, account: Option<AccountConfig>, ev: Event, regex: RegexSearch,
                         aiAnswer: Option<string>, faults: Faults)
      returns (acts: seq<Action>)
      modifies this
      ensures blockedBots == old(blockedBots)
      ensures !monitorActive || account.None? ==> processed == old(processed) && acts == []
      ensures monitorActive && account.Some? ==> processed == old(processed) + {(ev.chatId, ev.messageId)}
      ensures monitorActive && account.Some? && (ev.chatId, ev.messageId) in old(processed) ==> acts == []
      ensures monitorActive && account.Some? && (ev.chatId, ev.messageId) !in old(processed) ==>
        acts == Outcome(account.value, old(blockedBots), ev, regex, aiAnswer, faults)
    {
      if !monitorActive || account.None? {
        return [];
      }
      var cfg := account.value;
      var key := (ev.chatId, ev.messageId);
      if key in processed {
        return [];
      }
      processed := processed + {key};
      if Ignored(cfg, blockedBots, ev) {
        return [];
      }
      var first: seq<Action>;
      var ends := false;
      if ev.chatId in cfg.allMessages {
        var rule := cfg.allMessages[ev.chatId];
        if MatchUserRaises(ev.sender, rule.users) {
          return [];
        }
        first := [];
        if MatchUser(ev.sender, rule.users, rule.option) {
          first := if rule.emailNotify then [Email] else [];
          if rule.autoForward {
            var sent;
            sent, ends := ForwardEach(rule.forwardTargets, faults.forwardFails);
            first := first + sent;
          }
        }
      } else {
        var k := ScanKeywordRules(cfg.keywords, ev, regex, faults);
        if k.Some? {
          var rule := cfg.keywords[k.value];
          if KeywordRaises(rule, ev, faults) {
            return [];
          }
          var forwards: seq<Action> := [];
          if rule.autoForward {
            forwards := AutoForward(rule.forwardTargets, ev.chatId, faults.forwardFails);
          }
          first := (if rule.emailNotify then [Email] else []) + forwards + KeywordTail(rule, ev, regex);
          assert first == KeywordActionsRun(rule, ev, regex, faults.forwardFails);
        } else {
          first, ends := FilePhaseRun(cfg, ev, faults.forwardFails).0, FilePhaseRun(cfg, ev, faults.forwardFails).1;
        }
      }
      assert (first, ends) == FirstPhaseRun(cfg, ev, regex, faults);
      if ends {
        return first;
      }
      acts := first + ButtonPhasesRun(cfg, ev, aiAnswer);
    }
  }

  // ---------------------------------------------------------------- properties

  /** A chat with an all-messages rule is handled by it alone: no keyword or file action follows. */
  lemma AllMessagesTakesPrecedence(cfg: AccountConfig, blocked: set<int>, ev: Event, regex: RegexSearch, ai: Option<string>)
    requires !Ignored(cfg, blocked, ev) && ev.chatId in cfg.allMessages
    ensures var rule := cfg.allMessages[ev.chatId];
      Respond(cfg, blocked, ev, regex, ai) == AllMessagesActions(rule, ev) + ButtonPhases(cfg, ev, ai)
    ensures forall a :: a in Respond(cfg, blocked, ev, regex, ai) ==> !a.WriteLog? && !a.SendMatched?
  {
    var rule := cfg.allMessages[ev.chatId];
    var r := Respond(cfg, blocked, ev, regex, ai);
    forall a | a in r ensures !a.WriteLog? && !a.SendMatched? {
      if a !in AllMessagesActions(rule, ev) {
        var bp := ButtonPhases(cfg, ev, ai);
        var k :| 0 <= k < |bp| && bp[k] == a;
      }
    }
  }

  /**
   * The keyword rules stop at the first that handles the message, and the
   * file rules run only when none does.
   */
  lemma FirstKeywordWins(cfg: AccountConfig, ev: Event, regex: RegexSearch, j: nat)
    requires j < |cfg.keywords| && Handles(cfg.keywords[j], ev, regex)
    ensures
      exists k :: 0 <= k <= j && Handles(cfg.keywords[k], ev, regex)
                  && (forall i :: 0 <= i < k ==> !Handles(cfg.keywords[i], ev, regex))
                  && KeywordOrFile(cfg, ev, regex) == (KeywordActions(cfg.keywords[k], ev, regex), false)
  {
    var first := FirstHandling(cfg.keywords, ev, regex, 0);
    assert first.Some?;
  }

  lemma FilesOnlyWhenUnhandled(cfg: AccountConfig, ev: Event, regex: RegexSearch)
    requires forall i :: 0 <= i < |cfg.keywords| ==> !Handles(cfg.keywords[i], ev, regex)
    ensures KeywordOrFile(cfg, ev, regex) == FilePhase(cfg, ev)
  {
    assert FirstHandling(cfg.keywords, ev, regex, 0).None?;
  }

  /** Outside all-messages chats the handler never forwards a message back to its own chat. */
  lemma {:induction false} NoForwardToSourceOutsideAllMessages(cfg: AccountConfig, blocked: set<int>, ev: Event, regex: RegexSearch, ai: Option<string>)
    requires ev.chatId !in cfg.allMessages
    ensures Forward(ev.chatId) !in Respond(cfg, blocked, ev, regex, ai)
  {
    if !Ignored(cfg, blocked, ev) {
      var (first, stop) := KeywordOrFile(cfg, ev, regex);
      assert Forward(ev.chatId) !in first;
      if !stop {
        var rest := ButtonPhases(cfg, ev, ai);
        assert Forward(ev.chatId) !in rest;
      }
    }
  }

  /** The all-messages rule forwards to every target, the source chat included. */
  lemma AllMessagesForwardsToSource(rule: AllRule, ev: Event)
    requires MatchUser(ev.sender, rule.users, rule.option) && rule.autoForward
    requires ev.chatId in rule.forwardTargets
    ensures Forward(ev.chatId) in AllMessagesActions(rule, ev)
  {
    var k :| 0 <= k < |rule.forwardTargets| && rule.forwardTargets[k] == ev.chatId;
    assert ForwardAll(rule.forwardTargets)[k] == Forward(ev.chatId);
  }

  /** A file rule for this chat that refuses the sender ends the handler: no button is clicked. */
  lemma FileRefusalSkipsButtons(cfg: AccountConfig, blocked: set<int>, ev: Event, regex: RegexSearch, ai: Option<string>)
    requires !Ignored(cfg, blocked, ev) && ev.chatId !in cfg.allMessages
    requires forall i :: 0 <= i < |cfg.keywords| ==> !Handles(cfg.keywords[i], ev, regex)
    requires ev.fileName != "" && FileExtension(ev.fileName) in cfg.files
    requires var rule := cfg.files[FileExtension(ev.fileName)];
      ev.chatId in rule.chats && !MatchUser(ev.sender, rule.users, rule.option)
    ensures Respond(cfg, blocked, ev, regex, ai) == []
  {
    FilesOnlyWhenUnhandled(cfg, ev, regex);
  }

  /** A button-keyword click is the handler's last action and the only click. */
  lemma ButtonClickEndsHandler(cfg: AccountConfig, blocked: set<int>, ev: Event, regex: RegexSearch, ai: Option<string>)
    requires !Ignored(cfg, blocked, ev) && !FirstPhase(cfg, ev, regex).1
    requires ev.buttons != [] && ButtonClick(cfg.buttons, ev, 0).Some?
    ensures var rc := ButtonClick(cfg.buttons, ev, 0).value;
      Respond(cfg, blocked, ev, regex, ai) == FirstPhase(cfg, ev, regex).0 + [Click(rc.0, rc.1)]
  {
  }

  /** A second delivery of the same message does nothing. */
  method DeliveredTwice(h: Handler, active: bool, account: Option<AccountConfig>, ev: Event, regex: RegexSearch,
                        ai: Option<string>, faults: Faults)
    returns (second: seq<Action>)
    modifies h
    ensures second == []
  {
    var _ := h.HandleMessage(active, account, ev, regex, ai, faults);
    second := h.HandleMessage(active, account, ev, regex, ai, faults);
  }

  // ---------------------------------------------------------------- addext

  /**
   * One entry of the `addext` command as written: the leading-dot test is
   * made on the unstripped entry, so an entry written with a space before
   * its dot gets a second dot.
   */
  function AddExtAsWritten(entry: string): (r: string)
    ensures |r| >= 1 && r[0] == '.'
    ensures StartsWith(entry, ".") ==> r == Strip(entry)
    ensures !StartsWith(entry, ".") ==> r == "." + Strip(entry)
  {
    if StartsWith(entry, ".") then
      assert entry[0] == '.' && StripLeft(entry) == entry;
      StripRightKeepsHead(entry);
      Strip(entry)
    else "." + Strip(entry)
  }

  /** One entry of `addext`, stripped before the leading-dot test. */
  function AddExt(entry: string): (r: string)
    ensures |r| >= 1 && r[0] == '.'
    ensures StartsWith(Strip(entry), ".") ==> r == Strip(entry)
    ensures !StartsWith(Strip(entry), ".") ==> r == "." + Strip(entry)
  {
    var e := Strip(entry);
    if StartsWith(e, ".") then e else "." + e
  }

  /**
   * `addext`: the input is stripped and lowercased, split on commas, and each
   * entry normalised as written. Every entry is lowercase and starts with a
   * dot, though an entry typed with a space before its dot gets two.
   */
  function AddExtensionsAsWritten(input: string): (r: seq<string>)
    ensures |r| >= 1
    ensures forall k :: 0 <= k < |r| ==> |r[k]| >= 1 && r[k][0] == '.' && Lower(r[k]) == r[k]
  {
    var parts := SplitOn(Lower(Strip(input)), ',');
    LowerIdempotent(Strip(input));
    SplitOnKeepsLower(Lower(Strip(input)), ',');
    forall k | 0 <= k < |parts|
      ensures var e := AddExtAsWritten(parts[k]); |e| >= 1 && e[0] == '.' && Lower(e) == e
    {
      LowerEntryAsWritten(parts[k]);
    }
    seq(|parts|, k requires 0 <= k < |parts| => AddExtAsWritten(parts[k]))
  }

  /** Stripping the right end of a string never removes its non-space first character. */
  lemma {:induction false} StripRightKeepsHead(s: string)
    requires s != [] && !IsSpace(s[0])
    ensures StripRight(s) != [] && StripRight(s)[0] == s[0]
    decreases |s|
  {
    if IsSpace(s[|s| - 1]) {
      StripRightKeepsHead(s[..|s| - 1]);
    }
  }

  /** As written, a lowercase entry becomes a lowercase string starting with a dot. */
  lemma LowerEntryAsWritten(part: string)
    requires Lower(part) == part
    ensures var e := AddExtAsWritten(part); |e| >= 1 && e[0] == '.' && Lower(e) == e
  {
    StripKeepsLower(part);
    if StartsWith(part, ".") {
      assert StripLeft(part) == part;
      StripRightKeepsHead(part);
    } else {
      LowerDotPrefix(Strip(part));
    }
  }

  /**
   * `addext` corrected: each entry is stripped before the leading-dot test,
   * so every entry is a lowercase extension with exactly the dot typed.
   */
  function AddExtensions(input: string): (r: seq<string>)
    ensures |r| >= 1
    ensures forall k :: 0 <= k < |r| ==> |r[k]| >= 1 && r[k][0] == '.' && Lower(r[k]) == r[k]
  {
    var parts := SplitOn(Lower(Strip(input)), ',');
    LowerIdempotent(Strip(input));
    SplitOnKeepsLower(Lower(Strip(input)), ',');
    forall k | 0 <= k < |parts| ensures Lower(AddExt(parts[k])) == AddExt(parts[k]) {
      LowerEntry(parts[k]);
    }
    seq(|parts|, k requires 0 <= k < |parts| => AddExt(parts[k]))
  }

  /**
   * The command as written and the corrected one store the same number of
   * extensions, and each written extension is the corrected one, or the
   * corrected one with one dot too many.
   */
  lemma AddExtensionsDifferByOneDot(input: string)
    ensures |AddExtensionsAsWritten(input)| == |AddExtensions(input)|
    ensures forall k :: 0 <= k < |AddExtensions(input)| ==>
      AddExtensionsAsWritten(input)[k] == AddExtensions(input)[k]
      || AddExtensionsAsWritten(input)[k] == "." + AddExtensions(input)[k]
  {
    var parts := SplitOn(Lower(Strip(input)), ',');
    forall k | 0 <= k < |parts|
      ensures AddExtAsWritten(parts[k]) == AddExt(parts[k]) || AddExtAsWritten(parts[k]) == "." + AddExt(parts[k])
    {
      var p := parts[k];
      if StartsWith(p, ".") {
        assert AddExtAsWritten(p) == Strip(p);
        assert StartsWith(Strip(p), ".");
      }
    }
  }

  /** The pieces of a lowercase string are lowercase. */
  lemma {:induction false} SplitOnKeepsLower(s: string, c: char)
    requires Lower(s) == s
    ensures forall k :: 0 <= k < |SplitOn(s, c)| ==> Lower(SplitOn(s, c)[k]) == SplitOn(s, c)[k]
    decreases |s|
  {
    if c in s {
      var i := IndexOf(s, c);
      assert forall j :: 0 <= j < |s| ==> LowerChar(s[j]) == s[j] by {
        forall j | 0 <= j < |s| ensures LowerChar(s[j]) == s[j] {
          assert Lower(s)[j] == LowerChar(s[j]);
        }
      }
      var tail := s[i + 1..];
      assert Lower(tail) == tail;
      SplitOnKeepsLower(tail, c);
      assert Lower(s[..i]) == s[..i];
    }
  }

  /** A lowercase entry normalises to a lowercase extension. */
  lemma LowerEntry(part: string)
    requires Lower(part) == part
    ensures Lower(AddExt(part)) == AddExt(part)
  {
    StripKeepsLower(part);
    var e := Strip(part);
    if !StartsWith(e, ".") {
      LowerDotPrefix(e);
    }
  }

  /** The corrected normalisation is idempotent. */
  lemma AddExtIdempotent(entry: string)
    ensures AddExt(AddExt(entry)) == AddExt(entry)
  {
    var r := AddExt(entry);
    var e := Strip(entry);
    StripIdempotent(entry);
    if !StartsWith(e, ".") {
      var d := "." + e;
      assert d[1..] == e;
      if e != [] {
        StripEndsWithNonSpace(entry);
        assert d[|d| - 1] == e[|e| - 1];
      }
      StripNoEdgeSpace(d);
    }
  }

  /**
   * An entry written with a space before its dot: the code as written adds
   * a second dot (" .docx" becomes "..docx") where the corrected form keeps
   * the extension as typed.
   */
  lemma {:induction false} SpacedDotEntryGetsTwoDots(x: string)
    requires |x| >= 2 && x[0] == '.' && !IsSpace(x[|x| - 1])
    ensures AddExtAsWritten(" " + x) == "." + x
    ensures AddExt(" " + x) == x
  {
    var s := " " + x;
    StripSpaceThenWord(' ', x);
    assert !StartsWith(s, ".") by {
      assert s[0] == ' ';
    }
    assert StartsWith(x, ".") by {
      assert x[..1] == [x[0]];
    }
    AddExtsOfPadded(s, x);
  }

  /** An entry that does not start with a dot but strips to one that does. */
  lemma AddExtsOfPadded(s: string, x: string)
    requires Strip(s) == x && !StartsWith(s, ".") && StartsWith(x, ".")
    ensures AddExtAsWritten(s) == "." + x
    ensures AddExt(s) == x
  {
  }

  /** A leading space before an unpadded string is all that stripping removes. */
  lemma StripSpaceThenWord(c: char, x: string)
    requires IsSpace(c) && x != [] && !IsSpace(x[0]) && !IsSpace(x[|x| - 1])
    ensures Strip([c] + x) == x
  {
    assert ([c] + x)[1..] == x;
    StripNoEdgeSpace(x);
  }

  /** `addext` stores one copy of the rule under each normalised extension. */
  function WithExtensions(files: map<string, FileRule>, exts: seq<string>, rule: FileRule): (r: map<string, FileRule>)
    ensures r.Keys == files.Keys + set k | 0 <= k < |exts| :: exts[k]
    ensures forall k :: 0 <= k < |exts| ==> r[exts[k]] == rule
    ensures forall e :: e in files && e !in exts ==> r[e] == files[e]
    decreases |exts|
  {
    if exts == [] then files
    else WithExtensions(files[exts[0] := rule], exts[1..], rule)
  }
}
