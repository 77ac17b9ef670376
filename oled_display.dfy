/**
 * The display helpers of `OLEDDisplayManager` that decide what the panel shows: the
 * word wrap of a notification, the balance status line, the cycling of the four
 * screens and the split of the uptime into hours and minutes.  Drawing, fonts, the
 * i2c device and the threads are left out; whether a device was found is a flag.
 */
module OledDisplay {
  import opened Text

  // ---------------------------------------------------------------------------
  // Notification word wrap

  /** The words of the lines, line after line. */
  function WordsOfLines(lines: seq<string>): seq<string> {
    if lines == [] then [] else WordsOfLines(lines[..|lines| - 1]) + Words(lines[|lines| - 1])
  }

  lemma WordsOfLinesAppend(lines: seq<string>, line: string)
    ensures WordsOfLines(lines + [line]) == WordsOfLines(lines) + Words(line)
  {
    assert (lines + [line])[..|lines|] == lines;
  }

  /** The words of the first lines come first. */
  lemma {:induction false} WordsOfLinesPrefix(lines: seq<string>, n: nat)
    requires n <= |lines|
    ensures WordsOfLines(lines[..n]) <= WordsOfLines(lines)
    decreases |lines|
  {
    if n < |lines| {
      var init := lines[..|lines| - 1];
      assert init[..n] == lines[..n];
      WordsOfLinesPrefix(init, n);
      assert WordsOfLines(lines) == WordsOfLines(init) + Words(lines[|lines| - 1]);
    } else {
      assert lines[..n] == lines;
    }
  }

  /** The width limit of a line holding several words: a word joins while `len(line + word) < 16`. */
  const LineWidth: nat := 15

  /** Every line of two or more words fits the width. */
  predicate LinesFit(lines: seq<string>) {
    forall k :: 0 <= k < |lines| && |Words(lines[k])| >= 2 ==> |lines[k]| <= LineWidth
  }

  /** A line that fits keeps the lines fitting when it is added. */
  lemma LinesFitAppend(lines: seq<string>, line: string)
    requires LinesFit(lines) && (|Words(line)| >= 2 ==> |line| <= LineWidth)
    ensures LinesFit(lines + [line])
  {
    var out := lines + [line];
    forall k | 0 <= k < |out| && |Words(out[k])| >= 2
      ensures |out[k]| <= LineWidth
    {
      if k < |lines| {
        assert out[k] == lines[k];
      }
    }
  }

  /** Only the first line can be empty, and it is exactly when the first word is too wide. */
  predicate OnlyFirstEmpty(lines: seq<string>, ws: seq<string>) {
    (forall k :: 0 < k < |lines| ==> lines[k] != "")
    && (lines != [] && ws != [] ==> (lines[0] == "" <==> |ws[0]| > LineWidth))
  }

  /**
   * The state of the wrap loop after the first `i` words: the finished lines and the
   * words of the line being built, which `current` holds each followed by a space.
   */
  ghost predicate WrapInv(ws: seq<string>, i: nat, lines: seq<string>, current: string, building: seq<string>) {
    AllWords(ws) && i <= |ws|
    && current == Trailing(building) && AllWords(building)
    && WordsOfLines(lines) + building == ws[..i]
    && (|building| >= 2 ==> |JoinSpace(building)| <= LineWidth)
    && LinesFit(lines) && OnlyFirstEmpty(lines, ws)
    && (i == 0 ==> lines == [] && building == [])
    && (i > 0 ==> building != [])
    && (lines == [] && i > 0 ==> |ws[0]| <= LineWidth)
  }

  /** The next word still fits: it joins the line being built. */
  lemma AcceptKeeps(ws: seq<string>, i: nat, lines: seq<string>, current: string, building: seq<string>)
    requires WrapInv(ws, i, lines, current, building) && i < |ws| && |current + ws[i]| < 16
    ensures WrapInv(ws, i + 1, lines, current + ws[i] + " ", building + [ws[i]])
  {
    var word := ws[i];
    assert IsWord(word);
    assert ws[..i + 1] == ws[..i] + [word];
    TrailingAppend(building, word);
    TrailingIsJoinPlusSpace(building + [word]);
    assert current + word + " " == current + (word + " ");
    assert WordsOfLines(lines) + (building + [word]) == (WordsOfLines(lines) + building) + [word];
    var b' := building + [word];
    assert AllWords(b') by {
      assert forall k :: 0 <= k < |building| ==> b'[k] == building[k];
    }
  }

  /** The next word does not fit: the line being built is finished and the word starts the next. */
  lemma BreakKeeps(ws: seq<string>, i: nat, lines: seq<string>, current: string, building: seq<string>)
    requires WrapInv(ws, i, lines, current, building) && i < |ws| && |current + ws[i]| >= 16
    ensures WrapInv(ws, i + 1, lines + [Strip(current)], ws[i] + " ", [ws[i]])
  {
    var word := ws[i];
    assert IsWord(word);
    assert ws[..i + 1] == ws[..i] + [word];
    StripTrailing(building);
    WordsOfJoin(building);
    WordsOfLinesAppend(lines, Strip(current));
    if building != [] {
      JoinSpaceEnds(building);
    }
    assert Trailing([word]) == word + " " + Trailing([]);
    LinesFitAppend(lines, Strip(current));
    if i == 0 {
      assert current == "" && |word| > LineWidth;
    }
  }

  /** The last line being built is finished and added. */
  lemma FinishWithLine(ws: seq<string>, lines: seq<string>, current: string, building: seq<string>)
    requires WrapInv(ws, |ws|, lines, current, building) && current != ""
    ensures var out := lines + [Strip(current)];
      WordsOfLines(out) == ws && out != [] && LinesFit(out) && OnlyFirstEmpty(out, ws)
  {
    assert ws[..|ws|] == ws;
    StripTrailing(building);
    WordsOfJoin(building);
    WordsOfLinesAppend(lines, Strip(current));
    JoinSpaceEnds(building);
    LinesFitAppend(lines, Strip(current));
  }

  /** Nothing is left to finish: the words were none. */
  lemma FinishEmpty(ws: seq<string>, lines: seq<string>, building: seq<string>)
    requires WrapInv(ws, |ws|, lines, "", building)
    ensures WordsOfLines(lines) == ws && (lines == [] <==> ws == [])
  {
    assert ws[..|ws|] == ws;
    if building != [] {
      TrailingIsJoinPlusSpace(building);
    }
  }

  /** What the loop has built gives the promised lines once the last line is added. */
  lemma FinishKeeps(ws: seq<string>, lines: seq<string>, current: string, building: seq<string>)
    requires WrapInv(ws, |ws|, lines, current, building)
    ensures var out := if current != "" then lines + [Strip(current)] else lines;
      WordsOfLines(out) == ws && (out == [] <==> ws == []) && LinesFit(out) && OnlyFirstEmpty(out, ws)
  {
    if current != "" {
      FinishWithLine(ws, lines, current, building);
    } else {
      FinishEmpty(ws, lines, building);
    }
  }

  /**
   * The wrap loop of `show_notification`.  The lines hold the message's words in order;
   * a line of two or more words fits the width; no message gives no lines; only the first
   * line can be empty, exactly when the first word alone is wider than the panel.
   */
  method WrapLines(message: string) returns (lines: seq<string>)
    ensures WordsOfLines(lines) == Words(message)
    ensures lines == [] <==> Words(message) == []
    ensures LinesFit(lines) && OnlyFirstEmpty(lines, Words(message))
  {
    var ws := Words(message);
    var current;
    ghost var building;
    lines, current, building := WrapWords(ws);
    FinishKeeps(ws, lines, current, building);
    lines := if current != "" then lines + [Strip(current)] else lines;
  }

  /** The loop over the words: the finished lines and the line still being built. */
  method WrapWords(ws: seq<string>) returns (lines: seq<string>, current: string, ghost building: seq<string>)
    requires AllWords(ws)
    ensures WrapInv(ws, |ws|, lines, current, building)
  {
    lines, current, building := [], "", [];
    var i := 0;
    while i < |ws|
      invariant WrapInv(ws, i, lines, current, building)
    {
      var word := ws[i];
      if |current + word| < 16 {
        AcceptKeeps(ws, i, lines, current, building);
        current := current + word + " ";
        building := building + [word];
      } else {
        BreakKeeps(ws, i, lines, current, building);
        lines := lines + [Strip(current)];
        current := word + " ";
        building := [word];
      }
      i := i + 1;
    }
  }

  // ---------------------------------------------------------------------------
  // Balance screen

  /** The status line of the balance screen. */
  function BalanceStatus(balance: real): (s: string)
    ensures s == "They owe you" <==> balance > 0.0
    ensures s == "You owe them" <==> balance < 0.0
    ensures s == "All settled" <==> balance == 0.0
  {
    if balance > 0.0 then "They owe you"
    else if balance < 0.0 then "You owe them"
    else "All settled"
  }

  // ---------------------------------------------------------------------------
  // Status screen

  /**
   * The uptime shown as `hours:minutes`: `uptime // 3600` and `(uptime % 3600) // 60`,
   * for a whole number of seconds.  The pair is the only one with minutes below 60 whose
   * minute starts at or before the uptime and ends after it.
   */
  function UptimeClock(uptime: nat): (hm: (nat, nat))
    ensures hm.1 < 60
    ensures hm.0 * 3600 + hm.1 * 60 <= uptime < hm.0 * 3600 + hm.1 * 60 + 60
  {
    (uptime / 3600, (uptime % 3600) / 60)
  }

  // ---------------------------------------------------------------------------
  // The manager

  datatype Screen = StatusScreen | BalanceScreen | StatsScreen | TimeScreen

  /** The screen `_display_loop` draws for an index. */
  function ScreenAt(index: nat): (s: Screen)
    requires index < 4
    ensures index == 0 <==> s == StatusScreen
    ensures index == 1 <==> s == BalanceScreen
    ensures index == 2 <==> s == StatsScreen
    ensures index == 3 <==> s == TimeScreen
  {
    if index == 0 then StatusScreen
    else if index == 1 then BalanceScreen
    else if index == 2 then StatsScreen
    else TimeScreen
  }

  /** The most lines a notification draws. */
  const NotificationLines: nat := 3

  class Display {
    /** Whether the i2c device was found when the manager was made. */
    var hasDevice: bool
    var running: bool
    var currentScreen: nat
    /** The lines the last notification drew. */
    var notification: seq<string>

    ghost predicate Valid()
      reads this
    {
      currentScreen < 4 && |notification| <= NotificationLines
    }

    /** `__init__`: the first screen, not running. */
    constructor (deviceFound: bool)
      ensures Valid()
      ensures hasDevice == deviceFound && !running && currentScreen == 0 && notification == []
    {
      hasDevice := deviceFound;
      running := false;
      currentScreen := 0;
      notification := [];
    }

    /** `start`: runs only with a device. */
    method Start()
      requires Valid()
      modifies this
      ensures Valid()
      ensures running == (old(running) || hasDevice)
      ensures hasDevice == old(hasDevice) && currentScreen == old(currentScreen)
      ensures notification == old(notification)
    {
      if hasDevice {
        running := true;
      }
    }

    /**
     * `_display_loop` for `ticks` rounds while running: each round draws the current
     * screen and moves to the next one modulo 4.
     */
    method DisplayLoop(ticks: nat) returns (shown: seq<Screen>)
      requires Valid()
      modifies this
      ensures Valid()
      ensures !running ==> shown == [] && currentScreen == old(currentScreen)
      ensures running ==> |shown| == ticks && currentScreen == (old(currentScreen) + ticks) % 4
      ensures running ==> forall k :: 0 <= k < |shown| ==> shown[k] == ScreenAt((old(currentScreen) + k) % 4)
      ensures running == old(running) && hasDevice == old(hasDevice) && notification == old(notification)
    {
      shown := [];
      if !running {
        return;
      }
      var n := 0;
      while n < ticks
        invariant 0 <= n <= ticks && currentScreen < 4
        invariant |shown| == n && currentScreen == (old(currentScreen) + n) % 4
        invariant forall k :: 0 <= k < n ==> shown[k] == ScreenAt((old(currentScreen) + k) % 4)
        invariant running == old(running) && hasDevice == old(hasDevice) && notification == old(notification)
      {
        shown := shown + [ScreenAt(currentScreen)];
        currentScreen := (currentScreen + 1) % 4;
        n := n + 1;
      }
    }

    /**
     * `show_notification`: nothing without a device; otherwise the first three wrapped
     * lines.  They hold a prefix of the message's words, all of them when fewer than
     * three lines are drawn.
     */
    method ShowNotification(message: string)
      requires Valid()
      modifies this
      ensures Valid()
      ensures !hasDevice ==> unchanged(this)
      ensures hasDevice ==>
        WordsOfLines(notification) <= Words(message)
        && (|notification| < NotificationLines ==> WordsOfLines(notification) == Words(message))
        && (notification == [] <==> Words(message) == [])
        && LinesFit(notification)
      ensures hasDevice == old(hasDevice) && running == old(running) && currentScreen == old(currentScreen)
    {
      if !hasDevice {
        return;
      }
      var lines := WrapLines(message);
      var n := if |lines| < NotificationLines then |lines| else NotificationLines;
      WordsOfLinesPrefix(lines, n);
      assert n == |lines| ==> lines[..n] == lines;
      notification := lines[..n];
    }
  }
}
