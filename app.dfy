/**
  The session controller (js/app.js): the dice counts, the re-entrancy flag of a
  roll, and what the page shows of them.

  The page is reduced to the texts and flags the controller writes: one count
  label per family, the selection summary, the roll button, the results section
  and the total. A roll is split at its first `await`: `HandleRoll` runs up to the
  button shake, and `ResumeRoll` runs the rest once the shake has ended. Other
  events (a +/- click, a key press) may be handled between the two, as in the
  browser.
 */
module App {
  import opened Text
  import opened Dice
  import opened Animation

  const MAX_COUNT := 99
  const NO_SELECTION_MESSAGE := "Select at least one die to roll"
  const PENDING_TOTAL := "..."
  const NO_TOTAL := "—"
  const ROLL_LABEL := "Roll Dice"
  const ROLLING_LABEL := "Rolling..."

  /** The `data-action` of a +/- button; any other text is `Other`. */
  datatype ButtonAction = Increase | Decrease | Other

  /** One count after a +/- click: up to 99, down to 0, otherwise left as it is. */
  function Step(n: int, action: ButtonAction): (m: int)
    ensures 0 <= n <= MAX_COUNT ==> 0 <= m <= MAX_COUNT
    ensures m == n || (action == Increase && m == n + 1) || (action == Decrease && m == n - 1)
    ensures (action == Increase && n >= MAX_COUNT) || (action == Decrease && n <= 0) || action == Other ==> m == n
  {
    if action == Increase && n < MAX_COUNT then n + 1
    else if action == Decrease && n > 0 then n - 1
    else n
  }

  /** Every count of a configuration lies in 0..99. */
  predicate InRange(c: Config) {
    forall i :: 0 <= i < |c| ==> 0 <= c[i].count <= MAX_COUNT
  }

  /** The configuration after a +/- click on the button of family `t`. */
  function Adjusted(c: Config, t: DiceType, action: ButtonAction): (r: Config)
    ensures |r| == |c| && forall i :: 0 <= i < |c| ==> r[i].die == c[i].die
    ensures forall i :: 0 <= i < |c| && c[i].die != t ==> r[i] == c[i]
    ensures InRange(c) ==> InRange(r)
  {
    seq(|c|, i requires 0 <= i < |c| => if c[i].die == t then Entry(t, Step(c[i].count, action)) else c[i])
  }

  /** The configuration has a key for family `t`. */
  predicate HasKey(c: Config, t: DiceType) {
    exists i :: 0 <= i < |c| && c[i].die == t
  }

  /**
    After a click on `t`'s button, `config[t]` has taken one step when the key
    exists, and every other family reads as before; a click on a family without a
    key changes nothing, since `undefined < 99` and `undefined > 0` are both false.
   */
  lemma {:induction false} CountOfAdjusted(c: Config, t: DiceType, action: ButtonAction, u: DiceType)
    ensures CountOf(Adjusted(c, t, action), u) == if u == t && HasKey(c, t) then Step(CountOf(c, t), action) else CountOf(c, u)
    ensures !HasKey(c, t) ==> Adjusted(c, t, action) == c
  {
    if c != [] {
      var r := Adjusted(c, t, action);
      assert r[0] == if c[0].die == t then Entry(t, Step(c[0].count, action)) else c[0];
      assert r[1..] == Adjusted(c[1..], t, action);
      assert HasKey(c, t) <==> c[0].die == t || HasKey(c[1..], t) by {
        assert forall i :: 1 <= i < |c| ==> c[1..][i - 1] == c[i];
      }
      CountOfAdjusted(c[1..], t, action, u);
    }
  }

  /** An increase at 99 and a decrease at 0 leave the configuration as it was. */
  lemma AdjustedAtBound(c: Config, t: DiceType, action: ButtonAction)
    requires DistinctKeys(c)
    requires (action == Increase && CountOf(c, t) >= MAX_COUNT) || (action == Decrease && CountOf(c, t) <= 0)
    ensures Adjusted(c, t, action) == c
  {
    forall i | 0 <= i < |c| && c[i].die == t ensures Adjusted(c, t, action)[i] == c[i] {
      CountOfAt(c, i);
    }
  }

  /** The configuration after clearAll: every key kept, every count 0. */
  function Cleared(c: Config): (r: Config)
    ensures |r| == |c| && forall i :: 0 <= i < |c| ==> r[i].die == c[i].die
    ensures InRange(r)
  {
    seq(|c|, i requires 0 <= i < |c| => Entry(c[i].die, 0))
  }

  /** After clearAll every family reads 0, so nothing is selected and the summary is the sentinel. */
  lemma {:induction false} ClearedSelectsNothing(c: Config)
    ensures forall t :: CountOf(Cleared(c), t) == 0
    ensures !AnySelected(Cleared(c))
    ensures SelectionText(Cleared(c)) == NO_DICE
  {
    if c != [] {
      assert Cleared(c)[1..] == Cleared(c[1..]);
      ClearedSelectsNothing(c[1..]);
    }
    SelectionSentinel(Cleared(c));
  }

  /** What hasDiceSelected computes: some count of the configuration is positive. */
  predicate AnySelected(c: Config) {
    exists i :: 0 <= i < |c| && c[i].count > 0
  }

  /**
    Over distinct canonical keys, some count is positive exactly when the selection
    summary is not the sentinel: the roll guard and the summary agree.
   */
  lemma AnySelectedIffSummary(c: Config)
    requires DistinctKeys(c) && forall i :: 0 <= i < |c| ==> c[i].die in ORDER
    ensures AnySelected(c) <==> SelectionText(c) != NO_DICE
  {
    SelectionSentinel(c);
    if i :| 0 <= i < |c| && c[i].count > 0 {
      CountOfAt(c, i);
    }
    if t :| t in ORDER && CountOf(c, t) > 0 {
      if forall e :: e in c ==> e.die != t {
        CountOfMissing(c, t);
      }
      var e :| e in c && e.die == t;
      var i :| 0 <= i < |c| && c[i] == e;
      CountOfAt(c, i);
    }
  }

  /** When the first `i + 1` counts are 0, the family of entry `i` reads 0, whichever entry holds its key first. */
  lemma {:induction false} CountOfZeroPrefix(c: Config, i: nat)
    requires i < |c| && forall k :: 0 <= k <= i ==> c[k].count == 0
    ensures CountOf(c, c[i].die) == 0
  {
    if i > 0 && c[0].die != c[i].die {
      assert c[1..][i - 1] == c[i];
      CountOfZeroPrefix(c[1..], i - 1);
    }
  }

  /** What the results section lists. */
  datatype ResultsView = Empty | Message(text: string) | Rows(rows: seq<Row>)

  /** One results row: its `"{type}:"` label and its dice, in order. */
  datatype Row = Row(heading: string, dice: seq<Element>)

  /** A die that has been revealed: it shows its value, with its highlight, and still carries its data. */
  predicate Settled(el: Element, value: int, t: DiceType)
    reads el
  {
    el.text == IntToString(value) &&
    el.classes == Highlighted(DIE_CLASSES + {DICE_RESULT, ANIMATE_BOUNCE_IN}, value, t) &&
    el.dataset == map["finalValue" := IntToString(value), "diceType" := Name(t)]
  }

  /** A row shows one rolled entry: its label and one settled die per value. */
  predicate RowShows(row: Row, entry: Rolls)
    reads set m | 0 <= m < |row.dice| :: row.dice[m]
  {
    row.heading == Name(entry.die) + ":" && |row.dice| == |entry.values| &&
    forall m :: 0 <= m < |row.dice| ==> Settled(row.dice[m], entry.values[m], entry.die)
  }

  /** The rows show a roll result, entry by entry in key order. */
  predicate Shows(rows: seq<Row>, results: Results)
    reads set j, m | 0 <= j < |rows| && 0 <= m < |rows[j].dice| :: rows[j].dice[m]
  {
    |rows| == |results| && forall j :: 0 <= j < |rows| ==> RowShows(rows[j], results[j])
  }

  /**
    The session invariant over the counts and their displays: the seven canonical
    families in order, each count in 0..99, and the count labels and the summary
    showing the current counts.
   */
  predicate SessionShown(c: Config, labels: map<DiceType, string>, summary: string) {
    InOrder(c) && InRange(c) && labels == CountLabels(c) && summary == SelectionText(c)
  }

  /** The configuration holds the seven canonical families, in key order. */
  predicate InOrder(c: Config) {
    |c| == |ORDER| && forall i :: 0 <= i < |ORDER| ==> c[i].die == ORDER[i]
  }

  /** What the `count-{type}` labels show for a configuration: one per canonical family, its count. */
  function CountLabels(c: Config): map<DiceType, string> {
    map t | t in ORDER :: IntToString(CountOf(c, t))
  }

  /** The label map after updateCountDisplay(t) over the configuration `c`. */
  function Relabelled(labels: map<DiceType, string>, c: Config, t: DiceType): map<DiceType, string> {
    if t in labels then labels[t := IntToString(CountOf(c, t))] else labels
  }

  /**
    A +/- click keeps the session shown: stepping `t`'s count and then refreshing `t`'s
    label and the summary leaves every label and the summary showing the new counts.
   */
  lemma AdjustedShown(c: Config, labels: map<DiceType, string>, summary: string, t: DiceType, action: ButtonAction)
    requires SessionShown(c, labels, summary)
    ensures SessionShown(Adjusted(c, t, action), Relabelled(labels, Adjusted(c, t, action), t), SelectionText(Adjusted(c, t, action)))
  {
    LabelsAdjusted(c, t, action);
  }

  /** A click moves the count of its own family, when that family is one of the seven, and no other. */
  lemma CountsAdjusted(c: Config, t: DiceType, action: ButtonAction)
    requires InOrder(c)
    ensures forall u :: CountOf(Adjusted(c, t, action), u) == if u == t && t in ORDER then Step(CountOf(c, t), action) else CountOf(c, u)
  {
    assert HasKey(c, t) <==> t in ORDER;
    forall u ensures CountOf(Adjusted(c, t, action), u) == if u == t && t in ORDER then Step(CountOf(c, t), action) else CountOf(c, u) {
      CountOfAdjusted(c, t, action, u);
    }
  }

  /** Refreshing the label of the clicked family is enough: every other family reads as before. */
  lemma LabelsAdjusted(c: Config, t: DiceType, action: ButtonAction)
    ensures Relabelled(CountLabels(c), Adjusted(c, t, action), t) == CountLabels(Adjusted(c, t, action))
  {
    var r := Adjusted(c, t, action);
    var before, after := CountLabels(c), CountLabels(r);
    forall u | u in ORDER && u != t ensures after[u] == before[u] {
      CountOfAdjusted(c, t, action, u);
    }
    assert Relabelled(before, r, t) == after;
  }

  /** After clearAll the counts are 0, the labels read 0 and the summary is the sentinel, which is what they show. */
  lemma ClearedShown(c: Config, labels: map<DiceType, string>)
    requires InOrder(c)
    requires (forall t :: t in labels <==> t in ORDER) && forall t :: t in labels ==> labels[t] == IntToString(0)
    ensures SessionShown(Cleared(c), labels, NO_DICE)
  {
    ClearedSelectsNothing(c);
  }

  /** A die as createDiceElement leaves it: "?" on show, its value and family in its data attributes. */
  predicate Hidden(el: Element, value: int, t: DiceType)
    reads el
  {
    el.text == "?" && el.classes == DIE_CLASSES &&
    el.dataset == map["finalValue" := IntToString(value), "diceType" := Name(t)]
  }

  /** The row displayResultsAnimated builds for one entry: its label, then one new hidden die per value. */
  method CreateRow(entry: Rolls) returns (row: Row)
    ensures row.heading == Name(entry.die) + ":" && |row.dice| == |entry.values| && Distinct(row.dice)
    ensures forall k :: 0 <= k < |row.dice| ==> fresh(row.dice[k]) && Hidden(row.dice[k], entry.values[k], entry.die)
  {
    var dice: seq<Element> := [];
    var m := 0;
    while m < |entry.values|
      invariant 0 <= m <= |entry.values| && |dice| == m && Distinct(dice)
      invariant forall k :: 0 <= k < m ==> fresh(dice[k])
      invariant forall k :: 0 <= k < m ==> Hidden(dice[k], entry.values[k], entry.die)
    {
      var die := new Element.CreateDiceElement(entry.values[m], entry.die);
      assert forall k :: 0 <= k < m ==> dice[k] != die;
      dice := dice + [die];
      m := m + 1;
    }
    row := Row(Name(entry.die) + ":", dice);
  }

  /** The reveals of one row, started `firstDelay` ticks in and STAGGER_DELAY apart; each die ends settled. */
  method RevealRow(row: Row, entry: Rolls, firstDelay: nat) returns (delays: seq<int>)
    requires row.heading == Name(entry.die) + ":" && |row.dice| == |entry.values| && Distinct(row.dice)
    requires forall k :: 0 <= k < |row.dice| ==> Hidden(row.dice[k], entry.values[k], entry.die)
    modifies set e | e in row.dice
    ensures RowShows(row, entry)
    ensures |delays| == |row.dice| && forall k :: 0 <= k < |delays| ==> delays[k] == firstDelay + k * STAGGER_DELAY
  {
    delays := StartReveals(row.dice, entry.values, entry.die, firstDelay);
  }

  /** A new row for `entry`, its dice revealed from `firstDelay` ticks on, STAGGER_DELAY apart. */
  method BuildRow(entry: Rolls, firstDelay: nat) returns (row: Row, delays: seq<int>)
    ensures RowShows(row, entry)
    ensures |delays| == |entry.values| && forall k :: 0 <= k < |delays| ==> delays[k] == firstDelay + k * STAGGER_DELAY
  {
    row := CreateRow(entry);
    delays := RevealRow(row, entry, firstDelay);
  }

  /**
    One pass of displayResultsAnimated's loop: build the row of `entry` and start its
    reveals `firstDelay` ticks in; the rows shown so far keep showing their entries.
   */
  method AddRow(rows: seq<Row>, ghost shown: Results, entry: Rolls, delays: seq<int>, globalDelay: nat)
    returns (row: Row, allDelays: seq<int>)
    requires Shows(rows, shown)
    requires forall k :: 0 <= k < |delays| ==> delays[k] == k * STAGGER_DELAY
    requires globalDelay == |delays| * STAGGER_DELAY
    ensures Shows(rows + [row], shown + [entry])
    ensures |allDelays| == |delays| + |entry.values|
    ensures forall k :: 0 <= k < |allDelays| ==> allDelays[k] == k * STAGGER_DELAY
  {
    var rowDelays;
    row, rowDelays := BuildRow(entry, globalDelay);
    ShowsSnoc(rows, row, shown, entry);
    StaggerContinues(delays, rowDelays);
    allDelays := delays + rowDelays;
  }


  /**
    The loop of displayResultsAnimated: one row per rolled entry, its reveals started
    at the running delay, which grows by STAGGER_DELAY per die across all families.
   */
  method RevealAll(results: Results) returns (rows: seq<Row>, delays: seq<int>)
    ensures Shows(rows, results)
    ensures |delays| == NumDice(results)
    ensures forall k :: 0 <= k < |delays| ==> delays[k] == k * STAGGER_DELAY
  {
    rows := [];
    delays := [];
    ghost var shown: Results := [];
    var globalDelay := 0;
    var j := 0;
    while j < |results|
      invariant 0 <= j <= |results| && |rows| == j && shown == results[..j]
      invariant |delays| == NumDice(shown) && globalDelay == |delays| * STAGGER_DELAY
      invariant forall k :: 0 <= k < |delays| ==> delays[k] == k * STAGGER_DELAY
      invariant Shows(rows, shown)
    {
      var row;
      row, delays := AddRow(rows, shown, results[j], delays, globalDelay);
      NumDiceSnoc(shown, results[j]);
      assert results[..j + 1] == results[..j] + [results[j]];
      rows := rows + [row];
      shown := shown + [results[j]];
      globalDelay := globalDelay + |results[j].values| * STAGGER_DELAY;
      j := j + 1;
    }
    assert shown == results;
  }

  /** Delays that continue a stagger from where it stopped keep it going: the k-th die overall waits k * STAGGER_DELAY. */
  lemma StaggerContinues(delays: seq<int>, next: seq<int>)
    requires forall k :: 0 <= k < |delays| ==> delays[k] == k * STAGGER_DELAY
    requires forall k :: 0 <= k < |next| ==> next[k] == |delays| * STAGGER_DELAY + k * STAGGER_DELAY
    ensures forall k :: 0 <= k < |delays + next| ==> (delays + next)[k] == k * STAGGER_DELAY
  {
    forall k | |delays| <= k < |delays + next| ensures (delays + next)[k] == k * STAGGER_DELAY {
      assert (delays + next)[k] == next[k - |delays|];
    }
  }

  /** Appending a row that shows an entry extends what the rows show by that entry. */
  lemma ShowsSnoc(rows: seq<Row>, row: Row, results: Results, entry: Rolls)
    requires Shows(rows, results) && RowShows(row, entry)
    ensures Shows(rows + [row], results + [entry])
  {
    assert forall i :: 0 <= i < |rows| ==> (rows + [row])[i] == rows[i] && (results + [entry])[i] == results[i];
  }

  /** What a key press does. */
  datatype KeyCommand = Ignore | RollCommand | ClearCommand

  /**
    handleKeyboard's dispatch: keys typed into a text field and auto-repeats are
    ignored; otherwise Space and Enter roll and Escape clears.
   */
  function KeyAction(targetTag: string, repeat: bool, code: string): (k: KeyCommand)
    ensures targetTag == "INPUT" || targetTag == "TEXTAREA" || repeat ==> k == Ignore
    ensures k == RollCommand <==> targetTag != "INPUT" && targetTag != "TEXTAREA" && !repeat && (code == "Space" || code == "Enter")
    ensures k == ClearCommand <==> targetTag != "INPUT" && targetTag != "TEXTAREA" && !repeat && code == "Escape"
  {
    if targetTag == "INPUT" || targetTag == "TEXTAREA" then Ignore
    else if repeat then Ignore
    else if code == "Space" || code == "Enter" then RollCommand
    else if code == "Escape" then ClearCommand
    else Ignore
  }

  class AppState {
    /** diceConfig, in its key order d4, d6, d8, d10, d12, d20, d100. */
    var diceConfig: Config
    var isRolling: bool
    /** The `count-{type}` labels, one per family. */
    var countTexts: map<DiceType, string>
    /** The `current-selection` text. */
    var selectionText: string
    var rollButtonDisabled: bool
    var rollButtonText: string
    var resultsHidden: bool
    var resultsView: ResultsView
    var totalText: string
    var totalClasses: set<string>

    /** The session invariant, and the button disabled exactly while a roll is in progress. */
    ghost predicate Valid()
      reads this
    {
      Session() && rollButtonDisabled == isRolling
    }

    /** The counts and what the page shows of them agree. */
    ghost predicate Session()
      reads this`diceConfig, this`countTexts, this`selectionText
    {
      SessionShown(diceConfig, countTexts, selectionText)
    }

    /** The initial state and init(): every count 0, no roll in progress, the summary shown. */
    constructor Init()
      ensures Valid() && !isRolling && diceConfig == Cleared(ORDER_ZERO)
      ensures selectionText == NO_DICE && resultsHidden && resultsView == Empty
    {
      diceConfig := ORDER_ZERO;
      isRolling := false;
      countTexts := ZERO_LABELS;
      rollButtonDisabled := false;
      rollButtonText := ROLL_LABEL;
      resultsHidden := true;
      resultsView := Empty;
      totalText := "";
      totalClasses := {};
      new;
      InitialShown();
      UpdateSelectionDisplay();
    }

    /** hasDiceSelected: true exactly when the summary names some dice. */
    function HasDiceSelected(): (b: bool)
      reads this
      requires Valid()
      ensures b <==> SelectionText(diceConfig) != NO_DICE
      ensures b <==> exists t :: t in ORDER && CountOf(diceConfig, t) > 0
    {
      DistinctOrder(diceConfig);
      AnySelectedIffSummary(diceConfig);
      SelectionSentinel(diceConfig);
      AnySelected(diceConfig)
    }

    /** updateCountDisplay: the label of family `t`, when the page has one, shows its count. */
    method UpdateCountDisplay(t: DiceType)
      modifies this`countTexts
      ensures countTexts == Relabelled(old(countTexts), diceConfig, t)
    {
      if t in countTexts {
        countTexts := countTexts[t := IntToString(CountOf(diceConfig, t))];
      }
    }

    /** updateSelectionDisplay: the summary shows formatSelection of the counts. */
    method UpdateSelectionDisplay()
      modifies this`selectionText
      ensures selectionText == SelectionText(diceConfig)
    {
      selectionText := FormatSelection(diceConfig);
    }

    /** handleDiceButton: one step on `t`'s count, then both displays are refreshed. */
    method HandleDiceButton(t: DiceType, action: ButtonAction)
      requires Valid()
      modifies this`diceConfig, this`countTexts, this`selectionText
      ensures Valid()
      ensures diceConfig == Adjusted(old(diceConfig), t, action)
      ensures forall u :: CountOf(diceConfig, u) == if u == t && t in ORDER then Step(CountOf(old(diceConfig), t), action) else CountOf(old(diceConfig), u)
    {
      AdjustedShown(diceConfig, countTexts, selectionText, t, action);
      CountsAdjusted(diceConfig, t, action);
      diceConfig := Adjusted(diceConfig, t, action);
      UpdateCountDisplay(t);
      UpdateSelectionDisplay();
    }

    /** clearAll: every count set to 0, key by key with its label, then the summary. */
    method ClearAll()
      requires Valid()
      modifies this`diceConfig, this`countTexts, this`selectionText
      ensures Valid()
      ensures diceConfig == Cleared(old(diceConfig))
      ensures selectionText == NO_DICE && !AnySelected(diceConfig)
    {
      assert forall t :: t in ORDER ==> HasKey(diceConfig, t);
      ClearCounts();
      ClearedShown(old(diceConfig), countTexts);
      ClearedSelectsNothing(old(diceConfig));
      UpdateSelectionDisplay();
    }

    /** The loop of clearAll over the keys of diceConfig, refreshing each count label as it goes. */
    method ClearCounts()
      requires forall t :: t in countTexts ==> HasKey(diceConfig, t)
      modifies this`diceConfig, this`countTexts
      ensures diceConfig == Cleared(old(diceConfig))
      ensures forall t :: t in countTexts <==> t in old(countTexts)
      ensures forall t :: t in countTexts ==> countTexts[t] == IntToString(0)
    {
      var i := 0;
      while i < |diceConfig|
        invariant 0 <= i <= |diceConfig| == |old(diceConfig)|
        invariant forall k :: 0 <= k < i ==> diceConfig[k] == Entry(old(diceConfig)[k].die, 0)
        invariant forall k :: i <= k < |diceConfig| ==> diceConfig[k] == old(diceConfig)[k]
        invariant forall t :: t in countTexts <==> t in old(countTexts)
        invariant forall k :: 0 <= k < i && diceConfig[k].die in countTexts ==> countTexts[diceConfig[k].die] == IntToString(0)
      {
        var t := diceConfig[i].die;
        diceConfig := diceConfig[i := Entry(t, 0)];
        CountOfZeroPrefix(diceConfig, i);
        UpdateCountDisplay(t);
        i := i + 1;
      }
      assert diceConfig == Cleared(old(diceConfig));
      forall t | t in countTexts ensures countTexts[t] == IntToString(0) {
        var k :| 0 <= k < |old(diceConfig)| && old(diceConfig)[k].die == t;
      }
    }

    /** showMessage: the results section shows `message` instead of rows, and the total a dash. */
    method ShowMessage(message: string)
      modifies this`resultsHidden, this`resultsView, this`totalText
      ensures !resultsHidden && resultsView == Message(message) && totalText == NO_TOTAL
    {
      resultsHidden := false;
      resultsView := Message(message);
      totalText := NO_TOTAL;
    }

    /**
      handleRoll up to its first `await`: nothing happens while a roll is in
      progress; with no dice selected the message is shown and no roll starts;
      otherwise the roll starts and the button is disabled.
     */
    method HandleRoll() returns (started: bool)
      requires Valid()
      modifies this`isRolling, this`rollButtonDisabled, this`rollButtonText
      modifies this`resultsHidden, this`resultsView, this`totalText
      ensures Valid() && diceConfig == old(diceConfig)
      ensures started <==> !old(isRolling) && AnySelected(old(diceConfig))
      ensures old(isRolling) ==> unchanged(this)
      ensures !old(isRolling) && !started ==>
        !isRolling && !resultsHidden && resultsView == Message(NO_SELECTION_MESSAGE) && totalText == NO_TOTAL
      ensures !old(isRolling) && !started ==>
        rollButtonDisabled == old(rollButtonDisabled) && rollButtonText == old(rollButtonText)
      ensures started ==> isRolling && rollButtonText == ROLLING_LABEL
      ensures started ==>
        resultsHidden == old(resultsHidden) && resultsView == old(resultsView) && totalText == old(totalText)
    {
      if isRolling {
        return false;
      }
      var selected := HasDiceSelected();
      DistinctOrder(diceConfig);
      AnySelectedIffSummary(diceConfig);
      if !selected {
        ShowMessage(NO_SELECTION_MESSAGE);
        return false;
      }
      isRolling := true;
      rollButtonDisabled := true;
      rollButtonText := ROLLING_LABEL;
      started := true;
    }

    /**
      handleRoll after the shake: roll the counts as they are now, total that very
      result, show it, and end the roll. `draws` is what the random source yields.
     */
    method ResumeRoll(draws: seq<seq<int>>) returns (results: Results, total: int)
      requires Valid() && isRolling && DrawsFor(diceConfig, draws)
      modifies this`isRolling, this`rollButtonDisabled, this`rollButtonText
      modifies this`resultsHidden, this`resultsView, this`totalText, this`totalClasses
      ensures Valid() && !isRolling && rollButtonText == ROLL_LABEL && diceConfig == old(diceConfig)
      ensures results == RolledAll(diceConfig, draws) && total == Sum(Flatten(results))
      ensures !resultsHidden && resultsView.Rows? && Shows(resultsView.rows, results)
      ensures totalText == IntToString(total) && totalClasses == old(totalClasses) + {ANIMATE_BOUNCE_IN}
    {
      results, total := RollAndShow(diceConfig, draws);
    }

    /**
      The rest of handleRoll after the shake: roll `config`, total that very result,
      show both, then end the roll.
     */
    method RollAndShow(config: Config, draws: seq<seq<int>>) returns (results: Results, total: int)
      requires DrawsFor(config, draws)
      modifies this`isRolling, this`rollButtonDisabled, this`rollButtonText
      modifies this`resultsHidden, this`resultsView, this`totalText, this`totalClasses
      ensures results == RolledAll(config, draws) && total == Sum(Flatten(results))
      ensures !resultsHidden && resultsView.Rows? && Shows(resultsView.rows, results)
      ensures totalText == IntToString(total) && totalClasses == old(totalClasses) + {ANIMATE_BOUNCE_IN}
      ensures !isRolling && !rollButtonDisabled && rollButtonText == ROLL_LABEL
    {
      results, total := RollAndTotal(config, draws);
      var _ := DisplayResultsAnimated(results, total);
      EndRoll(results);
    }

    /** The end of handleRoll: the roll is over and the button is enabled again; the rows still show `shown`. */
    method EndRoll(ghost shown: Results)
      requires resultsView.Rows? && Shows(resultsView.rows, shown)
      modifies this`isRolling, this`rollButtonDisabled, this`rollButtonText
      ensures !isRolling && !rollButtonDisabled && rollButtonText == ROLL_LABEL
      ensures Shows(resultsView.rows, shown)
    {
      isRolling := false;
      rollButtonDisabled := false;
      rollButtonText := ROLL_LABEL;
    }

    /**
      displayResultsAnimated: one row per rolled entry, one hidden die per value,
      each die's reveal started `globalDelay` ticks in, the accumulator growing by
      STAGGER_DELAY per die across all families; the total is written once every
      reveal has settled. Returns the delays in the order the reveals were started.
     */
    method DisplayResultsAnimated(results: Results, total: int) returns (delays: seq<int>)
      modifies this`resultsHidden, this`resultsView, this`totalText, this`totalClasses
      ensures !resultsHidden && resultsView.Rows? && Shows(resultsView.rows, results)
      ensures |delays| == NumDice(results)
      ensures forall k :: 0 <= k < |delays| ==> delays[k] == k * STAGGER_DELAY
      ensures totalText == IntToString(total) && totalClasses == old(totalClasses) + {ANIMATE_BOUNCE_IN}
    {
      resultsHidden := false;
      resultsView := Rows([]);
      totalText := PENDING_TOTAL;
      var rows;
      rows, delays := RevealAll(results);
      ShowTotal(rows, total);
    }

    /** The end of displayResultsAnimated: the rows are listed and the total shown, with its bounce. */
    method ShowTotal(rows: seq<Row>, total: int)
      modifies this`resultsView, this`totalClasses, this`totalText
      ensures resultsView == Rows(rows) && totalText == IntToString(total)
      ensures totalClasses == old(totalClasses) + {ANIMATE_BOUNCE_IN}
    {
      resultsView := Rows(rows);
      totalClasses := totalClasses + {ANIMATE_BOUNCE_IN};
      totalText := IntToString(total);
    }

    /**
      handleKeyboard: a key outside text fields and not auto-repeated rolls (Space,
      Enter) or clears (Escape), and only then is the browser's default prevented.
     */
    method HandleKeyboard(targetTag: string, repeat: bool, code: string) returns (defaultPrevented: bool, rollStarted: bool)
      requires Valid()
      modifies this`diceConfig, this`countTexts, this`selectionText
      modifies this`isRolling, this`rollButtonDisabled, this`rollButtonText
      modifies this`resultsHidden, this`resultsView, this`totalText
      ensures Valid()
      ensures defaultPrevented <==> KeyAction(targetTag, repeat, code) != Ignore
      ensures rollStarted <==> KeyAction(targetTag, repeat, code) == RollCommand && !old(isRolling) && AnySelected(old(diceConfig))
      ensures KeyAction(targetTag, repeat, code) == Ignore ==> unchanged(this)
      // Escape: clearAll, and nothing of the roll or the results section changes.
      ensures KeyAction(targetTag, repeat, code) == ClearCommand ==>
        diceConfig == Cleared(old(diceConfig)) && selectionText == NO_DICE &&
        isRolling == old(isRolling) && rollButtonDisabled == old(rollButtonDisabled) &&
        rollButtonText == old(rollButtonText) && resultsHidden == old(resultsHidden) &&
        resultsView == old(resultsView) && totalText == old(totalText)
      // Space or Enter: handleRoll, and the counts and their display stay.
      ensures KeyAction(targetTag, repeat, code) == RollCommand ==>
        diceConfig == old(diceConfig) && countTexts == old(countTexts) && selectionText == old(selectionText)
      ensures KeyAction(targetTag, repeat, code) == RollCommand && old(isRolling) ==> unchanged(this)
      ensures KeyAction(targetTag, repeat, code) == RollCommand && !old(isRolling) && !rollStarted ==>
        !isRolling && !resultsHidden && resultsView == Message(NO_SELECTION_MESSAGE) && totalText == NO_TOTAL &&
        rollButtonText == old(rollButtonText)
      ensures rollStarted ==>
        isRolling && rollButtonText == ROLLING_LABEL && resultsHidden == old(resultsHidden) &&
        resultsView == old(resultsView) && totalText == old(totalText)
    {
      defaultPrevented, rollStarted := false, false;
      match KeyAction(targetTag, repeat, code)
      case Ignore =>
      case RollCommand =>
        defaultPrevented := true;
        rollStarted := HandleRoll();
      case ClearCommand =>
        defaultPrevented := true;
        ClearAll();
    }
  }

  /** The first two steps of handleRoll after the shake: roll the configuration and total that very result. */
  method RollAndTotal(config: Config, draws: seq<seq<int>>) returns (results: Results, total: int)
    requires DrawsFor(config, draws)
    ensures results == RolledAll(config, draws) && total == Sum(Flatten(results))
  {
    results := RollAll(config, draws);
    total := CalculateTotal(results);
  }

  /** The initial counts: every canonical family, in order, at 0. */
  const ORDER_ZERO: Config := [Entry(D4, 0), Entry(D6, 0), Entry(D8, 0), Entry(D10, 0), Entry(D12, 0), Entry(D20, 0), Entry(D100, 0)]

  /** The count labels of the page as served: every one reads 0. */
  const ZERO_LABELS: map<DiceType, string> := map t | t in ORDER :: "0"

  /** The initial counts are all 0, in key order, and the page as served shows them: labels at 0 and the sentinel summary. */
  lemma InitialShown()
    ensures ORDER_ZERO == Cleared(ORDER_ZERO)
    ensures SessionShown(ORDER_ZERO, ZERO_LABELS, NO_DICE) && SelectionText(ORDER_ZERO) == NO_DICE
  {
    assert ORDER_ZERO == Cleared(ORDER_ZERO);
    ClearedShown(ORDER_ZERO, ZERO_LABELS);
  }

  /** A configuration keyed by the canonical families in order has distinct canonical keys. */
  lemma DistinctOrder(c: Config)
    requires InOrder(c)
    ensures DistinctKeys(c) && forall i :: 0 <= i < |c| ==> c[i].die in ORDER
  {
  }
}
