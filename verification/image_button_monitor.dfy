/**
 * Image-and-button monitor (monitors/image_button_monitor.py): the
 * keyword pre-filter on button texts, the button listings with their grid
 * positions, and the fuzzy scoring that turns the AI's answer into the
 * button to click.
 */
module ImageButtonMonitor {
  import opened Wrappers
  import opened PyStr
  import opened Config
  import opened Message
  import opened Effects

  /** The raw (unstripped) texts of a row-major button list. */
  function Texts(bs: seq<MessageButton>): (r: seq<string>)
    ensures |r| == |bs| && forall k :: 0 <= k < |bs| ==> r[k] == bs[k].text
  {
    seq(|bs|, k requires 0 <= k < |bs| => bs[k].text)
  }

  lemma TextsSnoc(bs: seq<MessageButton>, b: MessageButton)
    ensures Texts(bs + [b]) == Texts(bs) + [b.text]
  {
    var l := Texts(bs + [b]);
    var r := Texts(bs) + [b.text];
    forall k | 0 <= k < |l| ensures l[k] == r[k] {
      if k < |bs| { assert (bs + [b])[k] == bs[k]; }
    }
  }

  /** `_extract_button_texts`: every button's text, row by row. */
  method ExtractButtonTexts(rows: seq<seq<MessageButton>>) returns (texts: seq<string>)
    ensures texts == Texts(Flatten(rows))
  {
    texts := [];
    var i := 0;
    while i < |rows|
      invariant 0 <= i <= |rows|
      invariant texts == Texts(Flatten(rows[..i]))
    {
      ghost var done := Flatten(rows[..i]);
      var j := 0;
      assert done + rows[i][..0] == done;
      while j < |rows[i]|
        invariant 0 <= j <= |rows[i]|
        invariant texts == Texts(done + rows[i][..j])
      {
        assert done + rows[i][..j + 1] == (done + rows[i][..j]) + [rows[i][j]];
        TextsSnoc(done + rows[i][..j], rows[i][j]);
        texts := texts + [rows[i][j].text];
        j := j + 1;
      }
      FlattenSnoc(rows, i);
      assert rows[i][..j] == rows[i];
      i := i + 1;
    }
    assert rows[..i] == rows;
  }

  /** Some keyword occurs, case-insensitively, in some button text. */
  predicate KeywordInTexts(keywords: seq<string>, texts: seq<string>)
  {
    exists k, t :: 0 <= k < |keywords| && 0 <= t < |texts| && Contains(Lower(texts[t]), Lower(keywords[k]))
  }

  /**
   * `_match_condition`: a message with neither an image nor buttons never
   * matches; with keywords configured and buttons present some keyword
   * must occur in some button text; an image alone always passes.
   */
  function MatchCondition(c: ImageButtonConfig, msg: TelegramMessage, hasImage: bool): (r: bool)
    ensures !hasImage && !HasButtons(msg) ==> !r
    ensures hasImage && !HasButtons(msg) ==> r
    ensures HasButtons(msg) && c.buttonKeywords != [] ==> (r <==> KeywordInTexts(c.buttonKeywords, Texts(Flatten(msg.buttons))))
    ensures HasButtons(msg) && c.buttonKeywords == [] ==> r
  {
    if !hasImage && !HasButtons(msg) then false
    else if c.buttonKeywords != [] && HasButtons(msg) then KeywordInTexts(c.buttonKeywords, Texts(Flatten(msg.buttons)))
    else true
  }

  /** A button together with its grid position, as `enumerate` produces it. */
  datatype Placed = Placed(button: MessageButton, row: nat, col: nat)

  function PlaceRow(row: seq<MessageButton>, r: nat): (ps: seq<Placed>)
    ensures |ps| == |row|
    ensures forall j :: 0 <= j < |row| ==> ps[j] == Placed(row[j], r, j)
  {
    seq(|row|, j requires 0 <= j < |row| => Placed(row[j], r, j))
  }

  /** Every button of the grid with its (row, col), row-major. */
  function Positioned(rows: seq<seq<MessageButton>>): (ps: seq<Placed>)
  {
    if rows == [] then []
    else Positioned(rows[..|rows| - 1]) + PlaceRow(rows[|rows| - 1], |rows| - 1)
  }

  /** Each entry of the listing names the button that sits at its (row, col). */
  lemma {:induction false} PositionedInGrid(rows: seq<seq<MessageButton>>)
    ensures forall k :: 0 <= k < |Positioned(rows)| ==>
      var p := Positioned(rows)[k];
      p.row < |rows| && p.col < |rows[p.row]| && rows[p.row][p.col] == p.button
  {
    if rows != [] {
      var n := |rows| - 1;
      PositionedInGrid(rows[..n]);
      var prev := Positioned(rows[..n]);
      forall k | 0 <= k < |prev| ensures prev[k].row < n && rows[prev[k].row] == rows[..n][prev[k].row] {
      }
    }
  }

  /** The listing keeps row-major order: earlier entries sit in earlier rows or further left. */
  lemma {:induction false} PositionedRowMajor(rows: seq<seq<MessageButton>>)
    ensures forall k1, k2 :: 0 <= k1 < k2 < |Positioned(rows)| ==>
      var a := Positioned(rows)[k1]; var b := Positioned(rows)[k2];
      a.row < b.row || (a.row == b.row && a.col < b.col)
  {
    if rows != [] {
      var n := |rows| - 1;
      PositionedRowMajor(rows[..n]);
      PositionedInGrid(rows[..n]);
    }
  }

  /** The position listing carries exactly the flattened buttons. */
  lemma {:induction false} PositionedButtons(rows: seq<seq<MessageButton>>)
    ensures |Positioned(rows)| == |Flatten(rows)|
    ensures forall k :: 0 <= k < |Flatten(rows)| ==> Positioned(rows)[k].button == Flatten(rows)[k]
  {
    if rows != [] {
      var n := |rows| - 1;
      PositionedButtons(rows[..n]);
    }
  }

  datatype ButtonKind = Inline | Keyboard

  /** One entry of `_extract_button_info`. */
  datatype ButtonInfo = ButtonInfo(text: string, row: nat, col: nat, kind: ButtonKind)

  /**
   * The kind as the source computes it: `hasattr(button, 'data')`, which
   * every `MessageButton` satisfies because `data` is a dataclass field.
   */
  function KindAsWritten(b: MessageButton): ButtonKind
  {
    Inline
  }

  /** The kind the listing evidently means: inline buttons carry callback data. */
  function Kind(b: MessageButton): (r: ButtonKind)
    ensures r == Keyboard <==> b.data.None?
  {
    if b.data.Some? then Inline else Keyboard
  }

  /** A button without callback data is listed as inline by the code as written. */
  lemma KeyboardButtonListedInline(b: MessageButton)
    requires b.data.None?
    ensures KindAsWritten(b) == Inline && Kind(b) == Keyboard
  {
  }

  /** One entry as `_extract_button_info` builds it, with the kind as written. */
  function InfoOf(p: Placed): ButtonInfo
  {
    ButtonInfo(p.button.text, p.row, p.col, KindAsWritten(p.button))
  }

  function Infos(ps: seq<Placed>): (r: seq<ButtonInfo>)
    ensures |r| == |ps| && forall k :: 0 <= k < |ps| ==> r[k] == InfoOf(ps[k])
  {
    seq(|ps|, k requires 0 <= k < |ps| => InfoOf(ps[k]))
  }

  lemma InfosSnoc(ps: seq<Placed>, p: Placed)
    ensures Infos(ps + [p]) == Infos(ps) + [InfoOf(p)]
  {
    var l := Infos(ps + [p]);
    var r := Infos(ps) + [InfoOf(p)];
    forall k | 0 <= k < |l| ensures l[k] == r[k] {
      if k < |ps| { assert (ps + [p])[k] == ps[k]; }
    }
  }

  lemma PositionedSnoc(rows: seq<seq<MessageButton>>, i: nat)
    requires i < |rows|
    ensures Positioned(rows[..i + 1]) == Positioned(rows[..i]) + PlaceRow(rows[i], i)
  {
    assert rows[..i + 1][..i] == rows[..i];
  }

  /**
   * `_extract_button_info`: one entry per button, row-major, carrying its
   * text and its (row, col) position in the grid; every entry is typed
   * inline, keyboard buttons included.
   */
  method ExtractButtonInfo(rows: seq<seq<MessageButton>>) returns (info: seq<ButtonInfo>)
    ensures info == Infos(Positioned(rows))
    ensures forall k :: 0 <= k < |info| ==> info[k].kind == Inline
  {
    info := [];
    var rowIdx := 0;
    while rowIdx < |rows|
      invariant 0 <= rowIdx <= |rows|
      invariant info == Infos(Positioned(rows[..rowIdx]))
    {
      ghost var done := Positioned(rows[..rowIdx]);
      var row := rows[rowIdx];
      var colIdx := 0;
      assert done + PlaceRow(row, rowIdx)[..0] == done;
      while colIdx < |row|
        invariant 0 <= colIdx <= |row|
        invariant info == Infos(done + PlaceRow(row, rowIdx)[..colIdx])
      {
        var p := Placed(row[colIdx], rowIdx, colIdx);
        assert done + PlaceRow(row, rowIdx)[..colIdx + 1] == (done + PlaceRow(row, rowIdx)[..colIdx]) + [p];
        InfosSnoc(done + PlaceRow(row, rowIdx)[..colIdx], p);
        info := info + [ButtonInfo(row[colIdx].text, rowIdx, colIdx, KindAsWritten(row[colIdx]))];
        colIdx := colIdx + 1;
      }
      assert PlaceRow(row, rowIdx)[..colIdx] == PlaceRow(row, rowIdx);
      PositionedSnoc(rows, rowIdx);
      rowIdx := rowIdx + 1;
    }
    assert rows[..rowIdx] == rows;
  }

  /** Each listed entry names the text of the button at its (row, col). */
  lemma InfoPositions(rows: seq<seq<MessageButton>>)
    ensures forall k :: 0 <= k < |Infos(Positioned(rows))| ==>
      var e := Infos(Positioned(rows))[k];
      e.row < |rows| && e.col < |rows[e.row]| && rows[e.row][e.col].text == e.text
  {
    PositionedInGrid(rows);
  }

  /** The two ways `_click_button_by_text` accepts a button outright. */
  predicate ExactHit(answer: string, b: MessageButton)
  {
    Strip(b.text) == answer || Lower(Strip(b.text)) == Strip(Lower(answer))
  }

  /** Containment of the lowercased answer and button text, either way round. */
  predicate PartialHit(answer: string, b: MessageButton)
  {
    Contains(Lower(Strip(b.text)), Strip(Lower(answer))) || Contains(Strip(Lower(answer)), Lower(Strip(b.text)))
  }

  function Min(a: nat, b: nat): nat { if a < b then a else b }
  function Max(a: nat, b: nat): nat { if a < b then b else a }

  lemma DivCompare(a: real, b: real, c: real)
    requires c > 0.0
    ensures a / c >= b <==> a >= b * c
    ensures a / c <= b <==> a <= b * c
    ensures a / c > b <==> a > b * c
  {
    var q := a / c;
    assert q * c == a;
    if q >= b {
      assert q * c >= b * c;
    } else {
      assert q * c < b * c;
    }
    if q <= b {
      assert q * c <= b * c;
    } else {
      assert q * c > b * c;
    }
  }

  /** 80 times the length ratio of the shorter to the longer string. */
  function PartialScore(lo: nat, hi: nat): (s: real)
    requires 0 < hi && lo <= hi
    ensures 0.0 <= s <= 80.0
    ensures s >= 50.0 <==> 8 * lo >= 5 * hi
    ensures lo > 0 ==> s > 0.0
  {
    var h := hi as real;
    var l := lo as real;
    DivCompare(80.0 * l, 50.0, h);
    DivCompare(80.0 * l, 80.0, h);
    DivCompare(80.0 * l, 0.0, h);
    80.0 * l / h
  }

  /** The match score of one button against the AI's answer. */
  function Score(answer: string, b: MessageButton): (s: Percent)
    ensures s == 100.0 <==> ExactHit(answer, b)
    ensures !ExactHit(answer, b) && !PartialHit(answer, b) ==> s == 0.0
  {
    var t := Lower(Strip(b.text));
    var a := Strip(Lower(answer));
    if ExactHit(answer, b) then 100.0
    else if PartialHit(answer, b) then
      assert |a| > 0 || |t| > 0;
      PartialScore(Min(|a|, |t|), Max(|a|, |t|))
    else 0.0
  }

  /** A partial hit reaches the click threshold exactly when 8 * shorter >= 5 * longer. */
  lemma PartialClickThreshold(answer: string, b: MessageButton)
    requires !ExactHit(answer, b) && PartialHit(answer, b)
    ensures var lo := Min(|Strip(Lower(answer))|, |Lower(Strip(b.text))|);
      var hi := Max(|Strip(Lower(answer))|, |Lower(Strip(b.text))|);
      Score(answer, b) >= 50.0 <==> 8 * lo >= 5 * hi
  {
  }

  /** The best score so far and the index of the button that holds it. */
  datatype Pick = Pick(score: real, index: Option<nat>)

  /** A match score: between 0 and 100. */
  type Percent = r: real | 0.0 <= r <= 100.0

  /**
   * The search of `_click_button_by_text` over the buttons' scores: only a
   * strictly higher score replaces the best, and a score of 100 ends the
   * search. The result is the earliest highest score.
   */
  function BestOf(scores: seq<Percent>): (p: Pick)
    ensures p.index.Some? ==> p.index.value < |scores|
  {
    BestUpTo(scores, |scores|)
  }

  /** The search over the first `m` scores. */
  function BestUpTo(scores: seq<Percent>, m: nat): (p: Pick)
    requires m <= |scores|
    ensures p.index.Some? ==> p.index.value < m
  {
    if m == 0 then Pick(0.0, None)
    else
      var p := BestUpTo(scores, m - 1);
      if p.score >= 100.0 then p
      else if scores[m - 1] > p.score then Pick(scores[m - 1], Some(m - 1)) else p
  }

  lemma {:induction false} BestUpToIsEarliestMax(scores: seq<Percent>, m: nat)
    requires m <= |scores|
    ensures BestUpTo(scores, m).index.None? ==> BestUpTo(scores, m).score == 0.0
    ensures var p := BestUpTo(scores, m);
      p.index.Some? ==> p.score == scores[p.index.value] && p.score > 0.0
    ensures var p := BestUpTo(scores, m);
      p.index.Some? ==> forall j :: 0 <= j < p.index.value ==> scores[j] < p.score
    ensures forall j :: 0 <= j < m ==> scores[j] <= BestUpTo(scores, m).score
  {
    if m > 0 {
      BestUpToIsEarliestMax(scores, m - 1);
      if BestUpTo(scores, m - 1).score >= 100.0 {
        assert scores[m - 1] <= 100.0;
      }
    }
  }

  /**
   * The search picks the earliest highest score, and no button when every
   * score is 0.
   */
  lemma BestOfIsEarliestMax(scores: seq<Percent>)
    ensures BestOf(scores).index.None? ==> BestOf(scores).score == 0.0
    ensures var p := BestOf(scores);
      p.index.Some? ==> p.score == scores[p.index.value] && p.score > 0.0
    ensures var p := BestOf(scores);
      p.index.Some? ==> forall j :: 0 <= j < p.index.value ==> scores[j] < p.score
    ensures forall j :: 0 <= j < |scores| ==> scores[j] <= BestOf(scores).score
  {
    BestUpToIsEarliestMax(scores, |scores|);
  }

  /** The scoring of one answer, as a function of the button. */
  function ScoreFn(answer: string): MessageButton -> Percent
  {
    b => Score(answer, b)
  }

  /** Every button's score under `f`, in listing order. */
  function ScoresBy(f: MessageButton -> Percent, cs: seq<Placed>): (r: seq<Percent>)
    ensures |r| == |cs|
  {
    if cs == [] then [] else ScoresBy(f, cs[..|cs| - 1]) + [f(cs[|cs| - 1].button)]
  }

  lemma {:induction false} ScoresByAt(f: MessageButton -> Percent, cs: seq<Placed>, k: nat)
    requires k < |cs|
    ensures ScoresBy(f, cs)[k] == f(cs[k].button)
  {
    if k < |cs| - 1 {
      ScoresByAt(f, cs[..|cs| - 1], k);
    }
  }

  /** The search result for an answer over a listing. */
  function Best(answer: string, cs: seq<Placed>): Pick
  {
    BestOf(ScoresBy(ScoreFn(answer), cs))
  }

  /** The first score of 100 wins the search. */
  lemma FirstFullScoreWins(scores: seq<Percent>, k: nat)
    requires k < |scores| && scores[k] == 100.0
    requires forall j :: 0 <= j < k ==> scores[j] < 100.0
    ensures BestOf(scores) == Pick(100.0, Some(k))
  {
    BestOfIsEarliestMax(scores);
    var p := BestOf(scores);
    assert p.score >= 100.0;
    assert p.index.Some?;
    assert scores[p.index.value] <= 100.0;
  }

  /** The first button that matches the answer exactly is the one chosen. */
  lemma FirstExactIsChosen(answer: string, cs: seq<Placed>, k: nat)
    requires k < |cs| && ExactHit(answer, cs[k].button)
    requires forall j :: 0 <= j < k ==> !ExactHit(answer, cs[j].button)
    ensures Best(answer, cs) == Pick(100.0, Some(k))
  {
    var f := ScoreFn(answer);
    var sc := ScoresBy(f, cs);
    ScoresByAt(f, cs, k);
    assert sc[k] == Score(answer, cs[k].button) == 100.0;
    forall j | 0 <= j < k ensures sc[j] < 100.0 {
      ScoresByAt(f, cs, j);
      assert sc[j] == Score(answer, cs[j].button);
    }
    FirstFullScoreWins(sc, k);
  }

  /** Once the first `m` scores reach 100, the rest change nothing. */
  lemma {:induction false} BestStopsAtExact(scores: seq<Percent>, m: nat, n: nat)
    requires m <= n <= |scores|
    requires BestUpTo(scores, m).score >= 100.0
    ensures BestUpTo(scores, n) == BestUpTo(scores, m)
    decreases n
  {
    if m < n {
      BestStopsAtExact(scores, m, n - 1);
    }
  }

  /** The listing of the first rows is a prefix of the whole listing. */
  lemma {:induction false} PositionedPrefix(rows: seq<seq<MessageButton>>, m: nat)
    requires m <= |rows|
    ensures |Positioned(rows[..m])| <= |Positioned(rows)|
    ensures Positioned(rows)[..|Positioned(rows[..m])|] == Positioned(rows[..m])
    decreases |rows|
  {
    if m < |rows| {
      var n := |rows| - 1;
      assert rows[..n][..m] == rows[..m];
      PositionedPrefix(rows[..n], m);
      PositionedSnoc(rows, n);
      assert rows[..n + 1] == rows;
    } else {
      assert rows[..m] == rows;
    }
  }

  /** The entry for grid cell (i, j) sits right after the listing of the rows before row i. */
  lemma PositionedAt(rows: seq<seq<MessageButton>>, i: nat, j: nat)
    requires i < |rows| && j < |rows[i]|
    ensures |Positioned(rows[..i])| + j < |Positioned(rows)|
    ensures Positioned(rows)[|Positioned(rows[..i])| + j] == Placed(rows[i][j], i, j)
  {
    PositionedSnoc(rows, i);
    PositionedPrefix(rows, i + 1);
    var cur := Positioned(rows[..i + 1]);
    assert cur[|Positioned(rows[..i])| + j] == PlaceRow(rows[i], i)[j];
  }

  /** Row `rowIdx` sits at positions `start`.. of the listing `all`, with its scores in `scores`. */
  predicate RowAt(row: seq<MessageButton>, rowIdx: nat, f: MessageButton -> Percent,
                  all: seq<Placed>, scores: seq<Percent>, start: nat)
  {
    start + |row| <= |all| && |scores| == |all|
    && forall j :: 0 <= j < |row| ==> all[start + j] == Placed(row[j], rowIdx, j) && scores[start + j] == f(row[j])
  }

  /** Row `i` occupies the listing right after the rows before it, with its scores beside it. */
  lemma RowInListing(rows: seq<seq<MessageButton>>, f: MessageButton -> Percent, i: nat)
    requires i < |rows|
    ensures |Positioned(rows[..i])| + |rows[i]| == |Positioned(rows[..i + 1])|
    ensures RowAt(rows[i], i, f, Positioned(rows), ScoresBy(f, Positioned(rows)), |Positioned(rows[..i])|)
  {
    PositionedSnoc(rows, i);
    PositionedPrefix(rows, i + 1);
    var all := Positioned(rows);
    var scores := ScoresBy(f, all);
    var start := |Positioned(rows[..i])|;
    assert start + |rows[i]| <= |all|;
    forall j | 0 <= j < |rows[i]|
      ensures all[start + j] == Placed(rows[i][j], i, j) && scores[start + j] == f(rows[i][j])
    {
      PositionedAt(rows, i, j);
      ScoresByAt(f, all, start + j);
    }
    assert RowAt(rows[i], i, f, all, scores, start);
  }

  /** Entry `k`, among the first `seen`, is the best match, with its stripped text and its grid cell. */
  predicate HoldsBest(all: seq<Placed>, seen: nat, k: nat, bestMatch: Option<string>, bestPosition: Option<(nat, nat)>)
  {
    k < seen <= |all|
    && bestMatch == Some(Strip(all[k].button.text))
    && bestPosition == Some((all[k].row, all[k].col))
  }

  /** The loop state after the first `seen` buttons: the fold's result and the button that holds it. */
  predicate Tracked(all: seq<Placed>, scores: seq<Percent>, seen: nat, bestScore: real, bestIndex: Option<nat>,
                    bestMatch: Option<string>, bestPosition: Option<(nat, nat)>)
  {
    |scores| == |all| && seen <= |all|
    && BestUpTo(scores, seen) == Pick(bestScore, bestIndex)
    && (bestIndex.None? ==> bestMatch.None? && bestPosition.None?)
    && (bestIndex.Some? ==> HoldsBest(all, seen, bestIndex.value, bestMatch, bestPosition))
  }

  /** One more button seen: a strictly higher score takes over, any other leaves the state as it is. */
  lemma TrackedStep(all: seq<Placed>, scores: seq<Percent>, seen: nat, bestScore: real, bestIndex: Option<nat>,
                    bestMatch: Option<string>, bestPosition: Option<(nat, nat)>)
    requires Tracked(all, scores, seen, bestScore, bestIndex, bestMatch, bestPosition)
    requires seen < |all| && bestScore < 100.0
    ensures scores[seen] > bestScore ==>
      Tracked(all, scores, seen + 1, scores[seen], Some(seen),
              Some(Strip(all[seen].button.text)), Some((all[seen].row, all[seen].col)))
    ensures scores[seen] <= bestScore ==>
      Tracked(all, scores, seen + 1, bestScore, bestIndex, bestMatch, bestPosition)
  {
  }

  /**
   * One button of `_click_button_by_text`'s inner loop: the button at
   * listing position `seen`, with score `score`, replaces the best when it
   * scores strictly higher.
   */
  method Visit(button: MessageButton, rowIdx: nat, colIdx: nat, score: Percent,
               ghost all: seq<Placed>, ghost scores: seq<Percent>, ghost seen: nat,
               bestScore0: real, bestMatch0: Option<string>, bestPosition0: Option<(nat, nat)>,
               ghost bestIndex0: Option<nat>)
    returns (bestScore: real, bestMatch: Option<string>, bestPosition: Option<(nat, nat)>, ghost bestIndex: Option<nat>)
    requires bestScore0 < 100.0 && Tracked(all, scores, seen, bestScore0, bestIndex0, bestMatch0, bestPosition0)
    requires seen < |all| && all[seen] == Placed(button, rowIdx, colIdx) && scores[seen] == score
    ensures Tracked(all, scores, seen + 1, bestScore, bestIndex, bestMatch, bestPosition)
    ensures bestScore == (if score > bestScore0 then score else bestScore0)
  {
    TrackedStep(all, scores, seen, bestScore0, bestIndex0, bestMatch0, bestPosition0);
    if score > bestScore0 {
      bestMatch := Some(Strip(button.text));
      bestPosition := Some((rowIdx, colIdx));
      bestScore := score;
      bestIndex := Some(seen);
    } else {
      bestScore, bestMatch, bestPosition, bestIndex := bestScore0, bestMatch0, bestPosition0, bestIndex0;
    }
  }

  /**
   * The inner loop of `_click_button_by_text` over row `rowIdx`, whose
   * buttons sit at positions `start`.. of the listing `all`: a strictly
   * higher score replaces the best, and a score of 100 ends the row.
   */
  method SearchRow(row: seq<MessageButton>, rowIdx: nat, f: MessageButton -> Percent,
                   ghost all: seq<Placed>, ghost scores: seq<Percent>, ghost start: nat,
                   bestScore0: real, bestMatch0: Option<string>, bestPosition0: Option<(nat, nat)>,
                   ghost bestIndex0: Option<nat>)
    returns (bestScore: real, bestMatch: Option<string>, bestPosition: Option<(nat, nat)>,
             ghost bestIndex: Option<nat>, ghost seen: nat)
    requires bestScore0 < 100.0 && Tracked(all, scores, start, bestScore0, bestIndex0, bestMatch0, bestPosition0)
    requires RowAt(row, rowIdx, f, all, scores, start)
    ensures Tracked(all, scores, seen, bestScore, bestIndex, bestMatch, bestPosition)
    ensures bestScore < 100.0 ==> seen == start + |row|
  {
    bestScore, bestMatch, bestPosition, bestIndex := bestScore0, bestMatch0, bestPosition0, bestIndex0;
    seen := start;
    var colIdx := 0;
    while colIdx < |row|
      invariant 0 <= colIdx <= |row|
      invariant seen == start + colIdx
      invariant Tracked(all, scores, seen, bestScore, bestIndex, bestMatch, bestPosition)
      invariant bestScore < 100.0
    {
      var button := row[colIdx];
      var score := f(button);
      assert all[start + colIdx] == Placed(button, rowIdx, colIdx) && scores[start + colIdx] == score;
      bestScore, bestMatch, bestPosition, bestIndex :=
        Visit(button, rowIdx, colIdx, score, all, scores, seen, bestScore, bestMatch, bestPosition, bestIndex);
      seen := seen + 1;
      if score >= 100.0 {
        return;
      }
      colIdx := colIdx + 1;
    }
  }

  /**
   * The nested loops of `_click_button_by_text`, for the scoring `f`: row
   * by row, until a score of 100 ends the search.
   */
  method SearchGrid(rows: seq<seq<MessageButton>>, f: MessageButton -> Percent)
    returns (bestScore: real, bestMatch: Option<string>, bestPosition: Option<(nat, nat)>, ghost bestIndex: Option<nat>)
    ensures var all := Positioned(rows);
      BestOf(ScoresBy(f, all)) == Pick(bestScore, bestIndex)
      && (bestIndex.None? ==> bestMatch.None? && bestPosition.None?)
      && (bestIndex.Some? ==> HoldsBest(all, |all|, bestIndex.value, bestMatch, bestPosition))
  {
    ghost var all := Positioned(rows);
    ghost var allScores := ScoresBy(f, all);
    bestMatch := None;
    bestScore := 0.0;
    bestPosition := None;
    bestIndex := None;
    ghost var seen: nat := 0;
    var rowIdx := 0;
    while rowIdx < |rows|
      invariant 0 <= rowIdx <= |rows|
      invariant seen == |Positioned(rows[..rowIdx])|
      invariant Tracked(all, allScores, seen, bestScore, bestIndex, bestMatch, bestPosition)
      invariant bestScore < 100.0
    {
      RowInListing(rows, f, rowIdx);
      bestScore, bestMatch, bestPosition, bestIndex, seen :=
        SearchRow(rows[rowIdx], rowIdx, f, all, allScores, seen, bestScore, bestMatch, bestPosition, bestIndex);
      if bestScore >= 100.0 {
        BestStopsAtExact(allScores, seen, |all|);
        return;
      }
      rowIdx := rowIdx + 1;
    }
    assert rows[..rowIdx] == rows;
  }

  /** Whether the search result under scoring `f` leads to a click: a non-empty best text scoring at least 50. */
  predicate ClickWanted(f: MessageButton -> Percent, rows: seq<seq<MessageButton>>)
  {
    var all := Positioned(rows);
    var p := BestOf(ScoresBy(f, all));
    p.index.Some? && Strip(all[p.index.value].button.text) != "" && p.score >= 50.0
  }

  /**
   * `_click_button_by_text` for the scoring `f` (the answer's `ScoreFn`):
   * the search, then the click when the best match is good enough and the
   * original message could be fetched.
   */
  method ClickButtonByText(rows: seq<seq<MessageButton>>, f: MessageButton -> Percent, clickSucceeds: bool)
    returns (clicked: bool, bestScore: real, bestPosition: Option<(nat, nat)>)
    ensures var all := Positioned(rows);
      var p := BestOf(ScoresBy(f, all));
      bestScore == p.score
      && bestPosition == (if p.index.Some? then Some((all[p.index.value].row, all[p.index.value].col)) else None)
    ensures clicked <==> ClickWanted(f, rows) && clickSucceeds
  {
    var bestMatch;
    ghost var bestIndex;
    bestScore, bestMatch, bestPosition, bestIndex := SearchGrid(rows, f);
    clicked := bestMatch.Some? && bestMatch.value != "" && bestPosition.Some? && bestScore >= 50.0 && clickSucceeds;
  }

  /** A first exact hit whose text is not blank always leads to a click attempt. */
  lemma ExactAnswerIsClicked(rows: seq<seq<MessageButton>>, answer: string, k: nat)
    requires k < |Positioned(rows)| && ExactHit(answer, Positioned(rows)[k].button)
    requires forall j :: 0 <= j < k ==> !ExactHit(answer, Positioned(rows)[j].button)
    requires Strip(Positioned(rows)[k].button.text) != ""
    ensures ClickWanted(ScoreFn(answer), rows)
  {
    FirstExactIsChosen(answer, Positioned(rows), k);
  }

  /**
   * The answer the AI gives: the image analysis when the image could be
   * downloaded, the text-only button choice otherwise.
   */
  function AiResult(env: Environment): Option<AiAnswer>
  {
    if env.hasImage && env.downloadSucceeds then env.aiImageAnswer
    else if env.aiButtonChoice.Some? then Some(AnswerText(env.aiButtonChoice.value))
    else None
  }

  /**
   * The button the AI chose: a string answer stripped, a dict's
   * `button_to_click` stripped (missing is ""), anything else "".
   */
  function ButtonToClick(answer: Option<AiAnswer>): (r: string)
    ensures Strip(r) == r
    ensures answer.None? || answer.value.AnswerOther? ==> r == ""
  {
    match answer
    case None => ""
    case Some(AnswerText(t)) => StripIdempotent(t); Strip(t)
    case Some(AnswerDict(b)) => var t := b.GetOr(""); StripIdempotent(t); Strip(t)
    case Some(AnswerOther) => ""
  }

  /**
   * What `_execute_custom_actions` reports: a click on the AI's chosen
   * button, when the message has button texts, the choice is not blank,
   * the search finds a good enough match and the click goes through.
   */
  function ClickActions(msg: TelegramMessage, env: Environment): seq<string>
  {
    var choice := ButtonToClick(AiResult(env));
    if HasButtons(msg) && Flatten(msg.buttons) != [] && choice != ""
       && ClickWanted(ScoreFn(choice), msg.buttons) && env.clickSucceeds
    then ["点击按钮: " + choice]
    else []
  }

  /** `_execute_custom_actions`, step by step. */
  method CustomActions(msg: TelegramMessage, env: Environment) returns (actions: seq<string>)
    ensures actions == ClickActions(msg, env)
  {
    actions := [];
    if !HasButtons(msg) || Flatten(msg.buttons) == [] {
      return;
    }
    var choice := ButtonToClick(AiResult(env));
    if choice != "" {
      var clicked, _, _ := ClickButtonByText(msg.buttons, ScoreFn(choice), env.clickSucceeds);
      if clicked {
        actions := ["点击按钮: " + choice];
      }
    }
  }

  /** Without buttons, without an AI answer or with a failed click, nothing is reported. */
  lemma NoChoiceNoClick(msg: TelegramMessage, env: Environment)
    requires !HasButtons(msg) || AiResult(env).None? || !env.clickSucceeds
    ensures ClickActions(msg, env) == []
  {
  }

  /**
   * An AI choice that names a button exactly (the first such, not blank)
   * is clicked and reported, whenever the click goes through.
   */
  lemma ExactChoiceIsReported(msg: TelegramMessage, env: Environment, choice: string, k: nat)
    requires choice == ButtonToClick(AiResult(env)) && choice != ""
    requires k < |Positioned(msg.buttons)| && ExactHit(choice, Positioned(msg.buttons)[k].button)
    requires forall j :: 0 <= j < k ==> !ExactHit(choice, Positioned(msg.buttons)[j].button)
    requires Strip(Positioned(msg.buttons)[k].button.text) != ""
    requires env.clickSucceeds
    ensures ClickActions(msg, env) == ["点击按钮: " + choice]
  {
    ExactAnswerIsClicked(msg.buttons, choice, k);
    PositionedButtons(msg.buttons);
    assert msg.buttons != [];
    ReportedWhenWanted(msg, env, choice);
  }

  lemma ReportedWhenWanted(msg: TelegramMessage, env: Environment, choice: string)
    requires choice == ButtonToClick(AiResult(env)) && choice != ""
    requires HasButtons(msg) && Flatten(msg.buttons) != []
    requires ClickWanted(ScoreFn(choice), msg.buttons) && env.clickSucceeds
    ensures ClickActions(msg, env) == ["点击按钮: " + choice]
  {
  }
}
