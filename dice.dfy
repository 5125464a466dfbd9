/**
  Roll generation and aggregation (js/dice.js).

  A die family is known to the program by its key, "d" followed by the number
  of sides. `Math.random()` is replaced by an injected source of integer draws:
  a draw for an N-sided die stands for `Math.floor(Math.random() * N)`.
  JavaScript objects, whose keys keep their insertion order, become
  association lists: a configuration is a list of (family, count) entries and
  a roll result a list of (family, values) entries.
 */
module Dice {
  import opened Text

  datatype DiceType = D(sides: nat)

  const D4 := D(4)
  const D6 := D(6)
  const D8 := D(8)
  const D10 := D(10)
  const D12 := D(12)
  const D20 := D(20)
  const D100 := D(100)

  /** The fixed order in which the selection summary lists the families. */
  const ORDER: seq<DiceType> := [D4, D6, D8, D10, D12, D20, D100]

  const NO_DICE := "No dice selected"

  /** The object key of a family, e.g. "d20"; `parseInt(key.substring(1))` reads its sides back. */
  function Name(t: DiceType): (key: string)
    ensures |key| >= 2 && key[0] == 'd'
    ensures IsDigits(key[1..]) && ParseNat(key[1..]) == t.sides
  {
    ParseNatToString(t.sides);
    assert ("d" + NatToString(t.sides))[1..] == NatToString(t.sides);
    "d" + NatToString(t.sides)
  }

  /** Distinct families have distinct keys, so keying by name is keying by family. */
  lemma NameInjective(s: DiceType, t: DiceType)
    ensures Name(s) == Name(t) ==> s == t
  {
    if Name(s) == Name(t) {
      assert Name(s)[1..] == Name(t)[1..];
    }
  }

  /**
    `Math.floor(u * sides)` with `0 <= u < 1` takes the values 0 .. DrawBound(sides) - 1;
    for a zero-sided key the product is always 0.
   */
  function DrawBound(sides: nat): (b: nat)
    ensures b >= 1 && b >= sides
  {
    if sides == 0 then 1 else sides
  }

  /** `r` is a value the random source can yield for a die with `sides` sides. */
  predicate IsDraw(sides: nat, r: int) {
    0 <= r < DrawBound(sides)
  }

  /** rollDie: a one-based face. */
  function RollDie(sides: nat, r: int): (v: int)
    requires IsDraw(sides, r)
    ensures sides >= 1 ==> 1 <= v <= sides
    ensures sides == 0 ==> v == 1
  {
    r + 1
  }

  /** rollD10: a zero-based face of a ten-sided die. */
  function RollD10(r: int): (v: int)
    requires IsDraw(10, r)
    ensures 0 <= v <= 9
  {
    r
  }

  /** rollD100: a zero-based face of a percentile die. */
  function RollD100(r: int): (v: int)
    requires IsDraw(100, r)
    ensures 0 <= v <= 99
  {
    r
  }

  /** d10 and d100 number their faces from 0; every other family from 1. */
  predicate ZeroBased(t: DiceType) {
    t == D10 || t == D100
  }

  function MinFace(t: DiceType): int {
    if ZeroBased(t) then 0 else 1
  }

  /** The faces a die of family `t` can show. */
  predicate InFaceRange(t: DiceType, v: int) {
    MinFace(t) <= v < MinFace(t) + DrawBound(t.sides)
  }

  /** The face one die of family `t` shows for draw `r` (the branch inside rollMultiple's loop). */
  function Face(t: DiceType, r: int): (v: int)
    requires IsDraw(t.sides, r)
    ensures InFaceRange(t, v)
    ensures ZeroBased(t) ==> 0 <= v <= t.sides - 1
    ensures !ZeroBased(t) && t.sides >= 1 ==> 1 <= v <= t.sides
  {
    if t == D10 then RollD10(r)
    else if t == D100 then RollD100(r)
    else RollDie(t.sides, r)
  }

  /** Every face of the family is shown for exactly one draw. */
  lemma FaceOnto(t: DiceType, v: int)
    requires InFaceRange(t, v)
    ensures IsDraw(t.sides, v - MinFace(t)) && Face(t, v - MinFace(t)) == v
    ensures forall r :: IsDraw(t.sides, r) && Face(t, r) == v ==> r == v - MinFace(t)
  {
  }

  /** Every draw in `draws` suits a die of family `t`. */
  predicate ValidDraws(t: DiceType, draws: seq<int>) {
    forall i :: 0 <= i < |draws| ==> IsDraw(t.sides, draws[i])
  }

  /** What rollMultiple returns: one face per requested die, none for a count <= 0. */
  function Rolled(count: int, t: DiceType, draws: seq<int>): (vs: seq<int>)
    requires count <= |draws| && ValidDraws(t, draws)
  {
    var n := if count > 0 then count else 0;
    seq(n, i requires 0 <= i < n => Face(t, draws[i]))
  }

  /** rollMultiple: roll `count` dice of family `t`, taking the i-th draw for the i-th die. */
  method RollMultiple(count: int, t: DiceType, draws: seq<int>) returns (results: seq<int>)
    requires count <= |draws| && ValidDraws(t, draws)
    ensures |results| == (if count > 0 then count else 0)
    ensures forall i :: 0 <= i < |results| ==> InFaceRange(t, results[i])
    ensures results == Rolled(count, t, draws)
  {
    results := [];
    var sides := ParseNat(Name(t)[1..]);
    var i := 0;
    while i < count
      invariant 0 <= i && (count > 0 ==> i <= count) && (count <= 0 ==> i == 0)
      invariant |results| == i
      invariant forall k :: 0 <= k < i ==> results[k] == Face(t, draws[k])
    {
      if t == D10 {
        results := results + [RollD10(draws[i])];
      } else if t == D100 {
        results := results + [RollD100(draws[i])];
      } else {
        results := results + [RollDie(sides, draws[i])];
      }
      i := i + 1;
    }
  }

  // ---------------------------------------------------------------------------
  // Configurations and results

  datatype Entry = Entry(die: DiceType, count: int)

  /** A dice configuration such as `{d4: 0, d6: 2, ...}`, in key order. */
  type Config = seq<Entry>

  datatype Rolls = Rolls(die: DiceType, values: seq<int>)

  /** A roll result such as `{d6: [3, 5], d20: [17]}`, in key order. */
  type Results = seq<Rolls>

  /** An object's keys are distinct. */
  predicate DistinctKeys(c: Config) {
    forall i, j :: 0 <= i < j < |c| ==> c[i].die != c[j].die
  }

  /** `config[t]` where only the test `count > 0` or the text of a positive count matters: a missing key reads as 0. */
  function CountOf(c: Config, t: DiceType): int {
    if c == [] then 0 else if c[0].die == t then c[0].count else CountOf(c[1..], t)
  }

  /** A key that is absent reads as 0. */
  lemma {:induction false} CountOfMissing(c: Config, t: DiceType)
    requires forall e :: e in c ==> e.die != t
    ensures CountOf(c, t) == 0
  {
    if c != [] {
      assert c[0] in c;
      CountOfMissing(c[1..], t);
    }
  }

  /** With distinct keys, `config[key]` is the count stored under that key. */
  lemma {:induction false} CountOfAt(c: Config, i: nat)
    requires DistinctKeys(c) && i < |c|
    ensures CountOf(c, c[i].die) == c[i].count
  {
    if i > 0 {
      assert DistinctKeys(c[1..]) by {
        assert forall k :: 1 <= k < |c| ==> c[1..][k - 1] == c[k];
      }
      assert c[1..][i - 1] == c[i];
      CountOfAt(c[1..], i - 1);
    }
  }

  /** When every entry for `t` holds the count `n` and there is one, `config[t]` is `n`. */
  lemma {:induction false} CountOfPresent(c: Config, t: DiceType, n: int)
    requires exists e :: e in c && e.die == t
    requires forall e :: e in c && e.die == t ==> e.count == n
    ensures CountOf(c, t) == n
  {
    assert c != [];
    assert c[0] in c;
    if c[0].die != t {
      var e :| e in c && e.die == t;
      assert e in c[1..];
      CountOfPresent(c[1..], t, n);
    }
  }

  /** The counts a configuration gives do not depend on the order of its keys. */
  lemma CountOfReordered(c1: Config, c2: Config, t: DiceType)
    requires DistinctKeys(c1) && multiset(c1) == multiset(c2)
    ensures CountOf(c1, t) == CountOf(c2, t)
  {
    forall e | true ensures e in c1 <==> e in c2 {
      calc {
        e in c1;
        e in multiset(c1);
        e in multiset(c2);
        e in c2;
      }
    }
    if e1 :| e1 in c1 && e1.die == t {
      forall e | e in c1 && e.die == t ensures e.count == e1.count {
        var i :| 0 <= i < |c1| && c1[i] == e;
        var j :| 0 <= j < |c1| && c1[j] == e1;
        assert i == j;
      }
      CountOfPresent(c1, t, e1.count);
      CountOfPresent(c2, t, e1.count);
    } else {
      CountOfMissing(c1, t);
      CountOfMissing(c2, t);
    }
  }

  /** `results[t]`: the values rolled for family `t`, or None when the key is absent. */
  function Lookup(r: Results, t: DiceType): (vs: Option<seq<int>>)
    ensures vs.Some? <==> exists i :: 0 <= i < |r| && r[i].die == t
  {
    if r == [] then None
    else if r[0].die == t then Some(r[0].values)
    else
      var rest := Lookup(r[1..], t);
      assert forall i :: 1 <= i < |r| ==> r[i] == r[1..][i - 1];
      rest
  }

  datatype Option<T> = None | Some(value: T)

  /** The random source supplies, for each configuration entry, the draws for that entry's dice. */
  predicate DrawsFor(c: Config, draws: seq<seq<int>>) {
    |draws| == |c| &&
    forall i :: 0 <= i < |c| ==> c[i].count <= |draws[i]| && ValidDraws(c[i].die, draws[i])
  }

  /** What rollAll returns: a rolled entry for every configuration entry with a positive count, in key order. */
  function RolledAll(c: Config, draws: seq<seq<int>>): (r: Results)
    requires DrawsFor(c, draws)
  {
    if c == [] then []
    else
      assert DrawsFor(c[1..], draws[1..]) by {
        assert forall i :: 1 <= i < |c| ==> c[1..][i - 1] == c[i] && draws[1..][i - 1] == draws[i];
      }
      var rest := RolledAll(c[1..], draws[1..]);
      if c[0].count > 0 then [Rolls(c[0].die, Rolled(c[0].count, c[0].die, draws[0]))] + rest else rest
  }

  /** The family and number of dice of each rolled entry. */
  function Shape(r: Results): (c: Config)
    ensures |c| == |r| && forall i :: 0 <= i < |r| ==> c[i] == Entry(r[i].die, |r[i].values|)
  {
    if r == [] then [] else [Entry(r[0].die, |r[0].values|)] + Shape(r[1..])
  }

  /** The entries of a configuration with a positive count, in key order. */
  function Positive(c: Config): (p: Config)
    ensures forall e :: e in p <==> e in c && e.count > 0
  {
    if c == [] then []
    else
      var rest := Positive(c[1..]);
      assert forall e :: e in c <==> e == c[0] || e in c[1..];
      if c[0].count > 0 then [c[0]] + rest else rest
  }

  /** rollAll rolls exactly the positive entries, each as many times as its count, in key order. */
  lemma {:induction false} RolledAllShape(c: Config, draws: seq<seq<int>>)
    requires DrawsFor(c, draws)
    ensures Shape(RolledAll(c, draws)) == Positive(c)
  {
    if c != [] {
      assert DrawsFor(c[1..], draws[1..]) by {
        assert forall i :: 1 <= i < |c| ==> c[1..][i - 1] == c[i] && draws[1..][i - 1] == draws[i];
      }
      RolledAllShape(c[1..], draws[1..]);
    }
  }

  /**
    rollAll has a key exactly for each family with a positive count, holding that many
    values; a family with count 0 is absent rather than present with no values.
   */
  lemma {:induction false} RolledAllKeys(c: Config, draws: seq<seq<int>>, t: DiceType)
    requires DrawsFor(c, draws) && DistinctKeys(c)
    ensures Lookup(RolledAll(c, draws), t).Some? <==> CountOf(c, t) > 0
    ensures Lookup(RolledAll(c, draws), t).Some? ==> |Lookup(RolledAll(c, draws), t).value| == CountOf(c, t)
  {
    if c != [] {
      assert DrawsFor(c[1..], draws[1..]) by {
        assert forall i :: 1 <= i < |c| ==> c[1..][i - 1] == c[i] && draws[1..][i - 1] == draws[i];
      }
      assert DistinctKeys(c[1..]) by {
        assert forall i :: 1 <= i < |c| ==> c[1..][i - 1] == c[i];
      }
      RolledAllKeys(c[1..], draws[1..], t);
      if c[0].die == t {
        forall e | e in c[1..] ensures e.die != t {
          var j :| 0 <= j < |c[1..]| && c[1..][j] == e;
          assert c[j + 1] == e;
        }
        CountOfMissing(c[1..], t);
      }
    }
  }

  /** Every rolled value is a face of its family. */
  lemma {:induction false} RolledAllInRange(c: Config, draws: seq<seq<int>>)
    requires DrawsFor(c, draws)
    ensures forall i, j :: 0 <= i < |RolledAll(c, draws)| && 0 <= j < |RolledAll(c, draws)[i].values| ==>
      InFaceRange(RolledAll(c, draws)[i].die, RolledAll(c, draws)[i].values[j])
  {
    if c != [] {
      assert DrawsFor(c[1..], draws[1..]) by {
        assert forall i :: 1 <= i < |c| ==> c[1..][i - 1] == c[i] && draws[1..][i - 1] == draws[i];
      }
      RolledAllInRange(c[1..], draws[1..]);
    }
  }

  /** rollAll: roll every family of the configuration whose count is positive. */
  method RollAll(c: Config, draws: seq<seq<int>>) returns (results: Results)
    requires DrawsFor(c, draws)
    ensures results == RolledAll(c, draws)
  {
    results := [];
    var i := 0;
    while i < |c|
      invariant 0 <= i <= |c|
      invariant DrawsFor(c[i..], draws[i..])
      invariant results + RolledAll(c[i..], draws[i..]) == RolledAll(c, draws)
    {
      assert c[i..][1..] == c[i + 1..] && draws[i..][1..] == draws[i + 1..];
      if c[i].count > 0 {
        var rolls := RollMultiple(c[i].count, c[i].die, draws[i]);
        results := results + [Rolls(c[i].die, rolls)];
      }
      i := i + 1;
    }
  }

  // ---------------------------------------------------------------------------
  // Totals

  /** `values.reduce((sum, val) => sum + val, 0)`. */
  function Sum(s: seq<int>): int {
    if s == [] then 0 else s[0] + Sum(s[1..])
  }

  lemma {:induction false} SumAppend(a: seq<int>, b: seq<int>)
    ensures Sum(a + b) == Sum(a) + Sum(b)
  {
    if a != [] {
      calc {
        Sum(a + b);
        (a + b)[0] + Sum((a + b)[1..]);
        { assert (a + b)[1..] == a[1..] + b; }
        a[0] + Sum(a[1..] + b);
        { SumAppend(a[1..], b); }
        a[0] + Sum(a[1..]) + Sum(b);
      }
    } else {
      assert a + b == b;
    }
  }

  /** Every value of a result, entry after entry. */
  function Flatten(r: Results): (vs: seq<int>)
    ensures |vs| == NumDice(r)
  {
    if r == [] then [] else r[0].values + Flatten(r[1..])
  }

  /** How many dice a result holds. */
  function NumDice(r: Results): nat {
    if r == [] then 0 else |r[0].values| + NumDice(r[1..])
  }

  /** What calculateTotal computes: the per-entry sums added up in key order. */
  function Total(r: Results): int {
    if r == [] then 0 else Sum(r[0].values) + Total(r[1..])
  }

  /** The total is the sum of every value of every entry, whatever the grouping. */
  lemma {:induction false} TotalIsSumOfAllValues(r: Results)
    ensures Total(r) == Sum(Flatten(r))
  {
    if r != [] {
      TotalIsSumOfAllValues(r[1..]);
      SumAppend(r[0].values, Flatten(r[1..]));
    }
  }

  /** Splitting a result into two parts splits its total. */
  lemma {:induction false} TotalAppend(r1: Results, r2: Results)
    ensures Total(r1 + r2) == Total(r1) + Total(r2)
  {
    if r1 != [] {
      calc {
        Total(r1 + r2);
        Sum((r1 + r2)[0].values) + Total((r1 + r2)[1..]);
        { assert (r1 + r2)[1..] == r1[1..] + r2; }
        Sum(r1[0].values) + Total(r1[1..] + r2);
        { TotalAppend(r1[1..], r2); }
        Sum(r1[0].values) + Total(r1[1..]) + Total(r2);
      }
    } else {
      assert r1 + r2 == r2;
    }
  }

  /** Splitting a result into two parts splits its number of dice. */
  lemma {:induction false} NumDiceAppend(r1: Results, r2: Results)
    ensures NumDice(r1 + r2) == NumDice(r1) + NumDice(r2)
  {
    if r1 == [] {
      assert r1 + r2 == r2;
    } else {
      assert (r1 + r2)[1..] == r1[1..] + r2;
      NumDiceAppend(r1[1..], r2);
    }
  }

  /** One more entry adds its number of dice. */
  lemma NumDiceSnoc(r: Results, e: Rolls)
    ensures NumDice(r + [e]) == NumDice(r) + |e.values|
  {
    NumDiceAppend(r, [e]);
    assert [e][1..] == [];
  }

  /** calculateTotal: the sum of all dice; `{d6: [3, 4], d10: [7]}` totals 14 and `{}` totals 0. */
  method CalculateTotal(r: Results) returns (total: int)
    ensures total == Sum(Flatten(r))
    ensures r == [] ==> total == 0
  {
    total := 0;
    var i := 0;
    while i < |r|
      invariant 0 <= i <= |r|
      invariant total + Total(r[i..]) == Total(r)
    {
      assert r[i..][1..] == r[i + 1..];
      total := total + Sum(r[i].values);
      i := i + 1;
    }
    TotalIsSumOfAllValues(r);
  }

  lemma TotalExamples()
    ensures Total([Rolls(D6, [3, 4]), Rolls(D10, [7])]) == 14
    ensures Total([Rolls(D20, [20])]) == 20
    ensures Total([]) == 0
  {
    var r := [Rolls(D6, [3, 4]), Rolls(D10, [7])];
    assert r[1..] == [Rolls(D10, [7])] && r[1..][1..] == [];
    assert Sum([7]) == 7 by { assert [7][1..] == []; }
    assert Sum([3, 4]) == 7 by { assert [3, 4][1..] == [4] && [4][1..] == []; }
    assert Sum([20]) == 20 by { assert [20][1..] == []; }
    assert [Rolls(D20, [20])][1..] == [];
    assert Total(r[1..]) == 7;
  }

  // ---------------------------------------------------------------------------
  // Display strings

  /** `${t}: [${values.join(', ')}]` for one entry of a result. */
  function EntryText(e: Rolls): string {
    Name(e.die) + ": [" + Join(ValueTexts(e.values), ", ") + "]"
  }

  /** The decimal text of each value. */
  function ValueTexts(vs: seq<int>): seq<string> {
    seq(|vs|, i requires 0 <= i < |vs| => IntToString(vs[i]))
  }

  /**
    The values' texts read back as the values: one text per value, in order, the
    digits of a non-negative value and a minus sign before the digits of a negative one.
   */
  lemma ValueTextsReadBack(vs: seq<int>)
    ensures |ValueTexts(vs)| == |vs|
    ensures forall i :: 0 <= i < |vs| && vs[i] >= 0 ==>
      IsDigits(ValueTexts(vs)[i]) && ParseNat(ValueTexts(vs)[i]) == vs[i]
    ensures forall i :: 0 <= i < |vs| && vs[i] < 0 ==>
      ValueTexts(vs)[i][0] == '-' && IsDigits(ValueTexts(vs)[i][1..]) && ParseNat(ValueTexts(vs)[i][1..]) == -vs[i]
  {
    forall i | 0 <= i < |vs| {
      IntToStringReadBack(vs[i]);
    }
  }

  /** The parts formatResults joins, one per entry. */
  function EntryTexts(r: Results): seq<string> {
    seq(|r|, i requires 0 <= i < |r| => EntryText(r[i]))
  }

  /** One more entry adds its text at the end. */
  lemma EntryTextsSnoc(r: Results, i: nat)
    requires i < |r|
    ensures EntryTexts(r[..i + 1]) == EntryTexts(r[..i]) + [EntryText(r[i])]
  {
  }

  /** What formatResults returns. */
  function ResultsText(r: Results): (s: string)
    ensures r == [] ==> s == ""
    ensures r != [] ==> EntryText(r[0]) <= s
  {
    Join(EntryTexts(r), " | ")
  }

  /** formatResults: each entry as "type: [v1, v2]", entries separated by " | ". */
  method FormatResults(r: Results) returns (s: string)
    ensures s == ResultsText(r)
  {
    var parts: seq<string> := [];
    var i := 0;
    while i < |r|
      invariant 0 <= i <= |r| && parts == EntryTexts(r[..i])
    {
      EntryTextsSnoc(r, i);
      parts := parts + [EntryText(r[i])];
      i := i + 1;
    }
    assert r[..i] == r;
    s := Join(parts, " | ");
  }

  /** The text of two results one after the other is their texts joined by " | ". */
  lemma ResultsTextAppend(r1: Results, r2: Results)
    requires r1 != [] && r2 != []
    ensures ResultsText(r1 + r2) == ResultsText(r1) + " | " + ResultsText(r2)
  {
    assert EntryTexts(r1 + r2) == EntryTexts(r1) + EntryTexts(r2);
    JoinAppend(EntryTexts(r1), EntryTexts(r2), " | ");
  }

  /** `${count}${type}` for one selected family. */
  function SelectionPart(c: Config, t: DiceType): (part: string)
    requires CountOf(c, t) > 0
    ensures |part| >= 1 && '0' <= part[0] <= '9'
  {
    var count := IntToString(CountOf(c, t));
    assert IsDigits(count);
    count + Name(t)
  }

  /** The parts formatSelection collects while walking `order`, in that order. */
  function SelectionParts(c: Config, order: seq<DiceType>): seq<string> {
    if order == [] then []
    else
      var last := order[|order| - 1];
      SelectionParts(c, order[..|order| - 1]) + if CountOf(c, last) > 0 then [SelectionPart(c, last)] else []
  }

  /** A part is collected for some family exactly when one of them has a positive count, and every part starts with a digit. */
  lemma {:induction false} SelectionPartsFacts(c: Config, order: seq<DiceType>)
    ensures |SelectionParts(c, order)| == 0 <==> forall t :: t in order ==> CountOf(c, t) <= 0
    ensures forall i :: 0 <= i < |SelectionParts(c, order)| ==>
      |SelectionParts(c, order)[i]| >= 1 && '0' <= SelectionParts(c, order)[i][0] <= '9'
  {
    SelectionPartsEmpty(c, order);
    SelectionPartsDigits(c, order);
  }

  lemma {:induction false} SelectionPartsEmpty(c: Config, order: seq<DiceType>)
    ensures |SelectionParts(c, order)| == 0 <==> forall t :: t in order ==> CountOf(c, t) <= 0
  {
    if order != [] {
      var last := order[|order| - 1];
      var init := order[..|order| - 1];
      SelectionPartsEmpty(c, init);
      assert forall t :: t in order <==> t == last || t in init;
      assert (forall t :: t in order ==> CountOf(c, t) <= 0) <==>
        (forall t :: t in init ==> CountOf(c, t) <= 0) && CountOf(c, last) <= 0;
    }
  }

  lemma {:induction false} SelectionPartsDigits(c: Config, order: seq<DiceType>)
    ensures forall i :: 0 <= i < |SelectionParts(c, order)| ==>
      |SelectionParts(c, order)[i]| >= 1 && '0' <= SelectionParts(c, order)[i][0] <= '9'
  {
    if order != [] {
      SelectionPartsDigits(c, order[..|order| - 1]);
    }
  }

  /** What formatSelection returns. */
  function SelectionText(c: Config): string {
    var parts := SelectionParts(c, ORDER);
    if |parts| > 0 then Join(parts, " + ") else NO_DICE
  }

  /** formatSelection: the positive counts as "{count}{type}" in canonical order, or "No dice selected". */
  method FormatSelection(c: Config) returns (s: string)
    ensures s == SelectionText(c)
  {
    var parts := CollectSelectionParts(c, ORDER);
    s := if |parts| > 0 then Join(parts, " + ") else NO_DICE;
  }

  /** Walking one more family of `order` appends its part, if its count is positive. */
  lemma SelectionPartsPrefix(c: Config, order: seq<DiceType>, i: nat)
    requires i < |order|
    ensures SelectionParts(c, order[..i + 1]) ==
      SelectionParts(c, order[..i]) + if CountOf(c, order[i]) > 0 then [IntToString(CountOf(c, order[i])) + Name(order[i])] else []
  {
    assert order[..i + 1][..i] == order[..i];
  }

  /** The loop of formatSelection over its local `order` array, pushing `${count}${type}` for each positive count. */
  method CollectSelectionParts(c: Config, order: seq<DiceType>) returns (parts: seq<string>)
    ensures parts == SelectionParts(c, order)
  {
    parts := [];
    var i := 0;
    while i < |order|
      invariant 0 <= i <= |order|
      invariant parts == SelectionParts(c, order[..i])
    {
      SelectionPartsPrefix(c, order, i);
      var count := CountOf(c, order[i]);
      if count > 0 {
        parts := parts + [IntToString(count) + Name(order[i])];
      }
      i := i + 1;
    }
    assert order[..i] == order;
  }

  /** The summary is the sentinel exactly when no family of the canonical seven has a positive count. */
  lemma SelectionSentinel(c: Config)
    ensures SelectionText(c) == NO_DICE <==> forall t :: t in ORDER ==> CountOf(c, t) <= 0
  {
    var parts := SelectionParts(c, ORDER);
    SelectionPartsFacts(c, ORDER);
    if |parts| > 0 {
      assert parts[0] <= Join(parts, " + ");
      assert NO_DICE[0] == 'N';
    }
  }

  /** Reordering the keys of a configuration does not change its summary. */
  lemma SelectionIgnoresKeyOrder(c1: Config, c2: Config)
    requires DistinctKeys(c1) && multiset(c1) == multiset(c2)
    ensures SelectionText(c1) == SelectionText(c2)
  {
    forall t ensures CountOf(c1, t) == CountOf(c2, t) {
      CountOfReordered(c1, c2, t);
    }
    SelectionPartsSameCounts(c1, c2, ORDER);
  }

  lemma {:induction false} SelectionPartsSameCounts(c1: Config, c2: Config, order: seq<DiceType>)
    requires forall t :: CountOf(c1, t) == CountOf(c2, t)
    ensures SelectionParts(c1, order) == SelectionParts(c2, order)
  {
    if order != [] {
      SelectionPartsSameCounts(c1, c2, order[..|order| - 1]);
    }
  }

  /** Names of the canonical families. */
  lemma CanonicalNames()
    ensures Name(D4) == "d4" && Name(D6) == "d6" && Name(D8) == "d8" && Name(D10) == "d10"
    ensures Name(D12) == "d12" && Name(D20) == "d20" && Name(D100) == "d100"
  {
    assert NatToString(10) == NatToString(1) + ['0'];
    assert NatToString(12) == NatToString(1) + ['2'];
    assert NatToString(20) == NatToString(2) + ['0'];
    assert NatToString(100) == NatToString(10) + ['0'];
  }

  /** A configuration whose seven counts are all 0 reads "No dice selected". */
  lemma SelectionAllZeroExample()
    ensures SelectionText([Entry(D4, 0), Entry(D6, 0), Entry(D8, 0), Entry(D10, 0), Entry(D12, 0), Entry(D20, 0), Entry(D100, 0)])
      == NO_DICE
  {
    var z := [Entry(D4, 0), Entry(D6, 0), Entry(D8, 0), Entry(D10, 0), Entry(D12, 0), Entry(D20, 0), Entry(D100, 0)];
    forall t | t in ORDER ensures CountOf(z, t) <= 0 {
      assert forall e :: e in z ==> e.count == 0;
      if e :| e in z && e.die == t {
        CountOfPresent(z, t, 0);
      } else {
        CountOfMissing(z, t);
      }
    }
    SelectionSentinel(z);
  }

  lemma EntryTextExamples()
    ensures EntryText(Rolls(D6, [3, 5])) == "d6: [3, 5]"
    ensures EntryText(Rolls(D20, [17])) == "d20: [17]"
  {
    CanonicalNames();
    TwoValuesText();
    assert NatToString(17) == NatToString(1) + ['7'];
    assert IntToString(17) == "17";
    assert ValueTexts([17]) == ["17"];
  }

  /** The values 3 and 5 read "3, 5". */
  lemma TwoValuesText()
    ensures Join(ValueTexts([3, 5]), ", ") == "3, 5"
  {
    assert IntToString(3) == "3" && IntToString(5) == "5";
    assert ValueTexts([3, 5]) == ["3", "5"];
    assert Join(["3", "5"], ", ") == "3, 5" by { assert ["3", "5"][1..] == ["5"]; }
  }

  /** `{d6: [3, 5], d20: [17]}` reads "d6: [3, 5] | d20: [17]". */
  lemma ResultsTextExample()
    ensures ResultsText([Rolls(D6, [3, 5]), Rolls(D20, [17])]) == "d6: [3, 5] | d20: [17]"
  {
    EntryTextExamples();
    var r := [Rolls(D6, [3, 5]), Rolls(D20, [17])];
    assert EntryTexts(r) == ["d6: [3, 5]", "d20: [17]"];
    assert Join(["d6: [3, 5]", "d20: [17]"], " | ") == "d6: [3, 5] | d20: [17]" by {
      assert ["d6: [3, 5]", "d20: [17]"][1..] == ["d20: [17]"];
    }
  }
}
