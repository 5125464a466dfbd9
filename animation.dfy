/**
  The reveal sequencer (js/animation.js).

  A page element is an object with its displayed text, its set of class
  names and its `data-*` attributes. Time is counted in ticks (milliseconds):
  the wait before a reveal becomes the tick at which it starts, and whether
  the cycling budget has run out when a frame arrives is left to the clock,
  which the model reads as an arbitrary boolean. The placeholder faces shown
  while cycling come from the random source, read as an arbitrary draw the
  source could yield.
 */
module Animation {
  import opened Text
  import opened Dice

  const SHAKE_DURATION := 300
  const CYCLE_DURATION := 200
  const CYCLE_INTERVAL := 50
  const STAGGER_DELAY := 50
  const BOUNCE_DURATION := 400

  const DICE_RESULT := "dice-result"
  const ANIMATE_BOUNCE_IN := "animate-bounce-in"
  const CRITICAL_SUCCESS := "critical-success"
  const CRITICAL_FAIL := "critical-fail"

  /** The class names createDiceElement gives a new die. */
  const DIE_CLASSES: set<string> :=
    {"dice-result", "inline-flex", "items-center", "justify-center", "w-10", "h-10",
     "bg-gray-100", "rounded-lg", "font-bold", "text-lg"}

  /** The most placeholder frames one reveal shows: CYCLE_DURATION / CYCLE_INTERVAL, floored. */
  function Cycles(): (n: nat)
    ensures n == 4 && n * CYCLE_INTERVAL <= CYCLE_DURATION
  {
    CYCLE_DURATION / CYCLE_INTERVAL
  }

  /** Shake, cycling and bounce together stay under one second. */
  lemma TimingBudget()
    ensures SHAKE_DURATION == 300 && CYCLE_DURATION == 200 && STAGGER_DELAY == 50
    ensures SHAKE_DURATION + CYCLE_DURATION + BOUNCE_DURATION < 1000
  {
  }

  class Element {
    var text: string
    var classes: set<string>
    var dataset: map<string, string>

    /** createDiceElement: a die showing "?" that keeps its final value and family in its data attributes. */
    constructor CreateDiceElement(value: int, t: DiceType)
      ensures text == "?" && classes == DIE_CLASSES
      ensures dataset == map["finalValue" := IntToString(value), "diceType" := Name(t)]
      ensures value >= 0 ==> IsDigits(dataset["finalValue"]) && ParseNat(dataset["finalValue"]) == value
    {
      text := "?";
      classes := DIE_CLASSES;
      dataset := map["finalValue" := IntToString(value), "diceType" := Name(t)];
      if value >= 0 {
        ParseNatToString(value);
      }
    }
  }

  /** The class set highlightCritical leaves: only a d20 is ever marked, 20 as a success and 1 as a failure. */
  function Highlighted(classes: set<string>, value: int, t: DiceType): (r: set<string>)
    ensures t != D20 ==> r == classes
    ensures t == D20 ==> (CRITICAL_SUCCESS in r <==> value == 20) && (CRITICAL_FAIL in r <==> value == 1)
    ensures t == D20 ==> r - {CRITICAL_SUCCESS, CRITICAL_FAIL} == classes - {CRITICAL_SUCCESS, CRITICAL_FAIL}
  {
    if t != D20 then classes
    else
      var cleared := classes - {CRITICAL_SUCCESS, CRITICAL_FAIL};
      if value == 20 then cleared + {CRITICAL_SUCCESS}
      else if value == 1 then cleared + {CRITICAL_FAIL}
      else cleared
  }

  /**
    On an element that carries neither mark, the success mark appears exactly for a d20
    showing 20 and the failure mark exactly for a d20 showing 1; never both.
   */
  lemma CriticalExactly(classes: set<string>, value: int, t: DiceType)
    requires CRITICAL_SUCCESS !in classes && CRITICAL_FAIL !in classes
    ensures CRITICAL_SUCCESS in Highlighted(classes, value, t) <==> t == D20 && value == 20
    ensures CRITICAL_FAIL in Highlighted(classes, value, t) <==> t == D20 && value == 1
    ensures !(CRITICAL_SUCCESS in Highlighted(classes, value, t) && CRITICAL_FAIL in Highlighted(classes, value, t))
  {
  }

  /** highlightCritical: mark a settled d20 showing 20 or 1. */
  method HighlightCritical(el: Element, value: int, t: DiceType)
    modifies el
    ensures el.classes == Highlighted(old(el.classes), value, t)
    ensures el.text == old(el.text) && el.dataset == old(el.dataset)
  {
    if t != D20 {
      return;
    }
    el.classes := el.classes - {CRITICAL_SUCCESS, CRITICAL_FAIL};
    if value == 20 {
      el.classes := el.classes + {CRITICAL_SUCCESS};
    } else if value == 1 {
      el.classes := el.classes + {CRITICAL_FAIL};
    }
  }

  /** The placeholder a cycling frame shows for a draw: `Math.floor(Math.random() * maxValue) + min`. */
  function Placeholder(draw: int, zeroIndexed: bool): int {
    draw + if zeroIndexed then 0 else 1
  }

  /** The values a cycling frame can show: `min` up to `min + maxValue - 1`. */
  predicate InPlaceholderRange(v: int, maxValue: nat, zeroIndexed: bool) {
    Placeholder(0, zeroIndexed) <= v < Placeholder(0, zeroIndexed) + DrawBound(maxValue)
  }

  /**
    A die's placeholders are the faces a die of its family can roll: draw for draw the
    same value as the roll, and over all draws the same range.
   */
  lemma PlaceholderIsFace(t: DiceType, draw: int, v: int)
    requires IsDraw(t.sides, draw)
    ensures Placeholder(draw, ZeroBased(t)) == Face(t, draw)
    ensures InPlaceholderRange(v, t.sides, ZeroBased(t)) <==> InFaceRange(t, v)
  {
  }

  /**
    showNumberCycling: each animation frame either shows a random placeholder (while the
    cycling budget lasts and fewer than Cycles() have been shown) or settles on the final
    value and completes. Returns the placeholders in the order shown and how many times
    the reveal completed.
   */
  method ShowNumberCycling(el: Element, finalValue: int, maxValue: nat, zeroIndexed: bool)
    returns (shown: seq<int>, completions: nat)
    modifies el
    ensures |shown| <= Cycles()
    ensures forall k :: 0 <= k < |shown| ==> InPlaceholderRange(shown[k], maxValue, zeroIndexed)
    ensures el.text == IntToString(finalValue)
    ensures el.classes == old(el.classes) + {ANIMATE_BOUNCE_IN}
    ensures el.dataset == old(el.dataset)
    ensures completions == 1
  {
    var cycles := CYCLE_DURATION / CYCLE_INTERVAL;
    var currentCycle := 0;
    shown := [];
    completions := 0;
    var settled := false;
    while !settled
      invariant 0 <= currentCycle <= cycles && |shown| == currentCycle
      invariant forall k :: 0 <= k < |shown| ==> InPlaceholderRange(shown[k], maxValue, zeroIndexed)
      invariant el.dataset == old(el.dataset)
      invariant !settled ==> completions == 0 && el.classes == old(el.classes)
      invariant settled ==> completions == 1 && el.text == IntToString(finalValue)
      invariant settled ==> el.classes == old(el.classes) + {ANIMATE_BOUNCE_IN}
      decreases !settled, cycles - currentCycle
    {
      var withinBudget: bool := *;  // elapsed < CYCLE_DURATION, as the clock reports it
      if withinBudget && currentCycle < cycles {
        var draw :| 0 <= draw < DrawBound(maxValue);  // Math.floor(Math.random() * maxValue)
        var placeholder := Placeholder(draw, zeroIndexed);
        el.text := IntToString(placeholder);
        shown := shown + [placeholder];
        currentCycle := currentCycle + 1;
      } else {
        el.text := IntToString(finalValue);
        el.classes := el.classes + {ANIMATE_BOUNCE_IN};
        completions := completions + 1;
        settled := true;
      }
    }
  }

  /**
    animateDieResult: wait `delay` ticks (none when it is not positive), cycle through faces
    of the die's family, settle on `value`, then apply the critical highlight.
    Returns the tick at which cycling starts and the placeholders shown.
   */
  method AnimateDieResult(el: Element, value: int, t: DiceType, delay: int) returns (start: int, shown: seq<int>)
    modifies el
    ensures start == if delay > 0 then delay else 0
    ensures |shown| <= Cycles() && forall k :: 0 <= k < |shown| ==> InFaceRange(t, shown[k])
    ensures el.text == IntToString(value)
    ensures el.classes == Highlighted(old(el.classes) + {DICE_RESULT, ANIMATE_BOUNCE_IN}, value, t)
    ensures el.dataset == old(el.dataset)
  {
    start := if delay > 0 then delay else 0;
    var sides := ParseNat(Name(t)[1..]);
    var zeroIndexed := t == D10 || t == D100;
    var maxValue := if zeroIndexed then sides else sides;  // both arms are `sides` in the source
    el.classes := el.classes + {DICE_RESULT};
    var completions;
    shown, completions := ShowNumberCycling(el, value, maxValue, zeroIndexed);
    HighlightCritical(el, value, t);
  }

  /** Distinct page elements. */
  predicate Distinct(elements: seq<Element>) {
    forall i, j :: 0 <= i < j < |elements| ==> elements[i] != elements[j]
  }

  /** The elements set by a reveal: final text, reveal classes and highlight, data attributes kept. */
  twostate predicate Revealed(el: Element, value: int, t: DiceType)
    reads el
  {
    el.text == IntToString(value) &&
    el.classes == Highlighted(old(el.classes) + {DICE_RESULT, ANIMATE_BOUNCE_IN}, value, t) &&
    el.dataset == old(el.dataset)
  }

  /**
    Start one reveal per element, the i-th after `firstDelay + i * STAGGER_DELAY` ticks
    (the loop of animateAllDice, and the inner loop of the results display, which
    starts from a running delay). Reveals of distinct elements do not interfere, so
    running each to its end in turn leaves the state their interleaving leaves.
   */
  method StartReveals(elements: seq<Element>, values: seq<int>, t: DiceType, firstDelay: nat)
    returns (delays: seq<int>)
    requires |elements| <= |values| && Distinct(elements)
    modifies set e | e in elements
    ensures |delays| == |elements|
    ensures forall i :: 0 <= i < |elements| ==> delays[i] == firstDelay + i * STAGGER_DELAY
    ensures forall i :: 0 <= i < |elements| ==> Revealed(elements[i], values[i], t)
  {
    delays := [];
    var i := 0;
    while i < |elements|
      invariant 0 <= i <= |elements| && |delays| == i
      invariant forall k :: 0 <= k < i ==> delays[k] == firstDelay + k * STAGGER_DELAY
      invariant forall k :: 0 <= k < i ==> Revealed(elements[k], values[k], t)
      invariant forall k :: i <= k < |elements| ==> unchanged(elements[k])
    {
      var delay := firstDelay + i * STAGGER_DELAY;
      var _, _ := AnimateDieResult(elements[i], values[i], t, delay);
      delays := delays + [delay];
      i := i + 1;
    }
  }

  /** animateAllDice: element i gets the delay i * STAGGER_DELAY; all have settled when it returns. */
  method AnimateAllDice(elements: seq<Element>, values: seq<int>, t: DiceType) returns (delays: seq<int>)
    requires |elements| <= |values| && Distinct(elements)
    modifies set e | e in elements
    ensures |delays| == |elements|
    ensures forall i :: 0 <= i < |elements| ==> delays[i] == i * STAGGER_DELAY
    ensures forall i :: 0 <= i < |elements| ==> Revealed(elements[i], values[i], t)
  {
    delays := StartReveals(elements, values, t, 0);
  }
}
