/**
  The label validator shared by both generations of the zone-editing service: duplicate
  detection, the validity gate, the per-input invalid marks, and the guess of the next
  default zone number. The label inputs of the page are given as a sequence of their values,
  in document order.
 */
module Labels {
  import opened Wrappers
  import opened Text

  // ---------------------------------------------------------------------------
  // Duplicates (`_getDuplicatedLabels`)
  // ---------------------------------------------------------------------------

  /** The input values lowercased, as the first step of `_getDuplicatedLabels` collects them. */
  function Lowered(labels: seq<string>): (r: seq<string>)
    ensures |r| == |labels|
    ensures forall i | 0 <= i < |labels| :: r[i] == Lower(labels[i])
    ensures forall i | 0 <= i < |labels| :: |r[i]| == |labels[i]|
    ensures forall i, k | 0 <= i < |labels| && 0 <= k < |r[i]| :: !IsCapital(r[i][k])
  {
    seq(|labels|, i requires 0 <= i < |labels| => Lower(labels[i]))
  }

  /** `array.indexOf(x)`: the first index holding `x`, or -1. */
  function FirstIndex(a: seq<string>, x: string): (r: int)
    ensures -1 <= r < |a|
    ensures r == -1 <==> x !in a
    ensures r >= 0 ==> a[r] == x && forall i | 0 <= i < r :: a[i] != x
  {
    if |a| == 0 then -1
    else if a[0] == x then 0
    else
      var k := FirstIndex(a[1..], x);
      assert a == [a[0]] + a[1..];
      if k == -1 then -1 else k + 1
  }

  /**
    The accumulator of the `reduce` in `_getDuplicatedLabels` after it has visited the first
    `n` elements: an element is pushed (lowercased again) when its first index is not its own
    index and the accumulator does not hold it yet.
   */
  function DuplicatesAfter(arr: seq<string>, n: nat): seq<string>
    requires n <= |arr|
  {
    if n == 0 then []
    else
      var acc := DuplicatesAfter(arr, n - 1);
      var current := arr[n - 1];
      if FirstIndex(arr, current) != n - 1 && Lower(current) !in acc then acc + [Lower(current)]
      else acc
  }

  /** `_getDuplicatedLabels()` over the given input values. */
  function Duplicates(labels: seq<string>): seq<string>
  {
    DuplicatesAfter(Lowered(labels), |labels|)
  }

  /**
    Reference definition: the values of `arr` in the order in which they are seen for the
    second time (a value joins when exactly one earlier element equals it).
   */
  function SecondOccurrences(arr: seq<string>): seq<string>
  {
    if |arr| == 0 then []
    else
      var init := arr[..|arr| - 1];
      var last := arr[|arr| - 1];
      SecondOccurrences(init) + (if multiset(init)[last] == 1 then [last] else [])
  }

  /** A value is among the second occurrences exactly when it occurs twice or more. */
  lemma {:induction false} SecondOccurrencesMembers(arr: seq<string>, x: string)
    ensures x in SecondOccurrences(arr) <==> multiset(arr)[x] >= 2
  {
    if |arr| > 0 {
      var init := arr[..|arr| - 1];
      var last := arr[|arr| - 1];
      assert arr == init + [last];
      assert multiset(arr) == multiset(init) + multiset{last};
      SecondOccurrencesMembers(init, x);
    }
  }

  /** The reduce visiting a prefix of `arr` builds the second occurrences of that prefix. */
  lemma {:induction false} ReducePrefixIsSecondOccurrences(arr: seq<string>, n: nat)
    requires n <= |arr|
    requires forall i | 0 <= i < |arr| :: Lower(arr[i]) == arr[i]
    ensures DuplicatesAfter(arr, n) == SecondOccurrences(arr[..n])
  {
    if n > 0 {
      ReducePrefixIsSecondOccurrences(arr, n - 1);
      var current := arr[n - 1];
      var init := arr[..n][..n - 1];
      assert init == arr[..n - 1];
      assert arr[..n][n - 1] == current;
      SecondOccurrencesMembers(init, current);
      var k := FirstIndex(arr, current);
      assert 0 <= k <= n - 1;
      if current in init {
        var j :| 0 <= j < |init| && init[j] == current;
        assert arr[j] == current;
        assert k <= j;
      }
      if k < n - 1 {
        assert init[k] == current;
      }
      assert current in init <==> multiset(init)[current] >= 1;
    }
  }

  /** `_getDuplicatedLabels` lists the lowered values in the order of their second occurrence. */
  lemma DuplicatesAreSecondOccurrences(labels: seq<string>)
    ensures Duplicates(labels) == SecondOccurrences(Lowered(labels))
  {
    var arr := Lowered(labels);
    forall i | 0 <= i < |arr| ensures Lower(arr[i]) == arr[i] {
      LowerIdempotent(labels[i]);
    }
    ReducePrefixIsSecondOccurrences(arr, |arr|);
    assert arr[..|arr|] == arr;
  }

  /** Two distinct indices hold `x` exactly when `x` occurs at least twice. */
  lemma {:induction false} TwiceIffTwoIndices(arr: seq<string>, x: string)
    ensures multiset(arr)[x] >= 2 <==> exists i, j | 0 <= i < j < |arr| :: arr[i] == x && arr[j] == x
  {
    if |arr| > 0 {
      var init := arr[..|arr| - 1];
      var last := arr[|arr| - 1];
      assert arr == init + [last];
      assert multiset(arr) == multiset(init) + multiset{last};
      TwiceIffTwoIndices(init, x);
      if multiset(arr)[x] >= 2 {
        if multiset(init)[x] >= 2 {
          var i, j :| 0 <= i < j < |init| && init[i] == x && init[j] == x;
          assert arr[i] == x && arr[j] == x;
        } else {
          assert last == x && x in init;
          var i :| 0 <= i < |init| && init[i] == x;
          assert arr[i] == x && arr[|arr| - 1] == x;
        }
      }
      if exists i, j | 0 <= i < j < |arr| :: arr[i] == x && arr[j] == x {
        var i, j :| 0 <= i < j < |arr| && arr[i] == x && arr[j] == x;
        if j < |arr| - 1 {
          assert init[i] == x && init[j] == x;
        } else {
          assert init[i] == x;
          assert x in init;
        }
      }
    }
  }

  /** The second occurrences never repeat a value. */
  lemma {:induction false} SecondOccurrencesDistinct(arr: seq<string>)
    ensures forall a, b | 0 <= a < b < |SecondOccurrences(arr)| ::
      SecondOccurrences(arr)[a] != SecondOccurrences(arr)[b]
  {
    if |arr| > 0 {
      var init := arr[..|arr| - 1];
      var last := arr[|arr| - 1];
      SecondOccurrencesDistinct(init);
      if multiset(init)[last] == 1 {
        SecondOccurrencesMembers(init, last);
      }
    }
  }

  /**
    Each lowered label that occurs twice or more is reported, nothing else is, and no value
    is reported twice. Empty strings count like any other value.
   */
  lemma DuplicatesSpec(labels: seq<string>)
    ensures forall x :: x in Duplicates(labels) <==>
      exists i, j | 0 <= i < j < |labels| :: Lower(labels[i]) == x && Lower(labels[j]) == x
    ensures forall a, b | 0 <= a < b < |Duplicates(labels)| :: Duplicates(labels)[a] != Duplicates(labels)[b]
  {
    var arr := Lowered(labels);
    DuplicatesAreSecondOccurrences(labels);
    forall x ensures x in Duplicates(labels) <==>
      exists i, j | 0 <= i < j < |labels| :: Lower(labels[i]) == x && Lower(labels[j]) == x
    {
      SecondOccurrencesMembers(arr, x);
      TwiceIffTwoIndices(arr, x);
    }
    SecondOccurrencesDistinct(arr);
  }

  /** Lowercasing the three labels of the example. */
  lemma LoweredExample()
    ensures Lowered(["Zone A", "zone a", "Zone B"]) == ["zone a", "zone a", "zone b"]
  {
    assert Lower("Zone A") == "zone a" by {
      forall i | 0 <= i < 6 ensures Lower("Zone A")[i] == "zone a"[i] { }
    }
    assert Lower("zone a") == "zone a" by {
      forall i | 0 <= i < 6 ensures Lower("zone a")[i] == "zone a"[i] { }
    }
    assert Lower("Zone B") == "zone b" by {
      forall i | 0 <= i < 6 ensures Lower("Zone B")[i] == "zone b"[i] { }
    }
  }

  /** The second occurrences of the lowered example. */
  lemma SecondOccurrencesExample()
    ensures SecondOccurrences(["zone a", "zone a", "zone b"]) == ["zone a"]
  {
    var arr, a1, a2 := ["zone a", "zone a", "zone b"], ["zone a"], ["zone a", "zone a"];
    assert a1[..0] == [];
    assert SecondOccurrences(a1) == [];
    assert a2[..1] == a1;
    assert multiset(a1)["zone a"] == 1;
    assert SecondOccurrences(a2) == ["zone a"];
    assert arr[..2] == a2;
    assert "zone b" != "zone a";
    assert multiset(a2)["zone b"] == 0;
  }

  /** The concrete case: "Zone A" and "zone a" collide, "Zone B" does not. */
  lemma DuplicatesExample()
    ensures Duplicates(["Zone A", "zone a", "Zone B"]) == ["zone a"]
  {
    LoweredExample();
    SecondOccurrencesExample();
    DuplicatesAreSecondOccurrences(["Zone A", "zone a", "Zone B"]);
  }

  // ---------------------------------------------------------------------------
  // Validity (`_checkLabelsAreValid`) and the invalid marks (`_toggleLabelsValidStyles`)
  // ---------------------------------------------------------------------------

  /** `_checkLabelsAreValid()`: no duplicate is reported and no input is empty. */
  predicate LabelsAreValid(labels: seq<string>)
  {
    |Duplicates(labels)| == 0 && forall i | 0 <= i < |labels| :: labels[i] != ""
  }

  /**
    Labels are valid exactly when none is empty and no two collide once lowercased.
    Their length plays no part.
   */
  lemma LabelsAreValidIff(labels: seq<string>)
    ensures LabelsAreValid(labels) <==>
      (forall i | 0 <= i < |labels| :: labels[i] != "")
      && (forall i, j | 0 <= i < j < |labels| :: Lower(labels[i]) != Lower(labels[j]))
  {
    DuplicatesSpec(labels);
    forall i, j | 0 <= i < j < |labels| && Lower(labels[i]) == Lower(labels[j])
      ensures Lower(labels[i]) in Duplicates(labels)
    {
    }
    if |Duplicates(labels)| > 0 {
      var x := Duplicates(labels)[0];
      assert x in Duplicates(labels);
    }
  }

  /** A label longer than the input's `maxlength` of 10 still passes the check. */
  lemma LengthIsNotChecked()
    ensures LabelsAreValid(["a label of twenty ch"])
  {
    var labels := ["a label of twenty ch"];
    LabelsAreValidIff(labels);
  }

  /** The test `_toggleLabelsValidStyles(false)` applies to one input value. */
  predicate MarkedInvalid(value: string, duplicates: seq<string>)
  {
    Lower(value) in duplicates || value == ""
  }

  /**
    The `--not-valid` mark of every input after `_toggleLabelsValidStyles(isValid)`:
    all cleared when valid; otherwise set exactly on the empty and the colliding inputs.
   */
  function InvalidMarks(labels: seq<string>, isValid: bool): (marks: seq<bool>)
    ensures |marks| == |labels|
    ensures isValid ==> forall i | 0 <= i < |labels| :: !marks[i]
    ensures !isValid ==> forall i | 0 <= i < |labels| ::
      marks[i] <==> labels[i] == "" || exists j | 0 <= j < |labels| && j != i :: Lower(labels[j]) == Lower(labels[i])
  {
    var duplicates := Duplicates(labels);
    DuplicatesSpec(labels);
    var marks := seq(|labels|, i requires 0 <= i < |labels| => !isValid && MarkedInvalid(labels[i], duplicates));
    assert !isValid ==> forall i | 0 <= i < |labels| ::
      marks[i] <==> labels[i] == "" || exists j | 0 <= j < |labels| && j != i :: Lower(labels[j]) == Lower(labels[i])
    by {
      if !isValid {
        forall i | 0 <= i < |labels|
          ensures marks[i] <==> labels[i] == "" || exists j | 0 <= j < |labels| && j != i :: Lower(labels[j]) == Lower(labels[i])
        {
          var x := Lower(labels[i]);
          if x in duplicates {
            var a, b :| 0 <= a < b < |labels| && Lower(labels[a]) == x && Lower(labels[b]) == x;
            var j := if a != i then a else b;
            assert j != i && Lower(labels[j]) == x;
          }
          if exists j | 0 <= j < |labels| && j != i :: Lower(labels[j]) == x {
            var j :| 0 <= j < |labels| && j != i && Lower(labels[j]) == x;
            if j < i {
              assert Lower(labels[j]) == x && Lower(labels[i]) == x;
            } else {
              assert Lower(labels[i]) == x && Lower(labels[j]) == x;
            }
          }
        }
      }
    }
    marks
  }

  // ---------------------------------------------------------------------------
  // Next default zone number (`_guessZoneIndex`)
  // ---------------------------------------------------------------------------

  /** The largest length `Array(n)` accepts (2^32 - 1); a larger one throws a RangeError. */
  const MaxArrayLength: nat := 0xFFFF_FFFF

  /** Length of the run of digits that starts `s`. */
  function DigitRunLength(s: string): (n: nat)
    ensures n <= |s|
    ensures forall i | 0 <= i < n :: IsDigit(s[i])
    ensures n < |s| ==> !IsDigit(s[n])
  {
    if |s| > 0 && IsDigit(s[0]) then 1 + DigitRunLength(s[1..]) else 0
  }

  /** Index of the first digit of `s`, or `|s|` when there is none. */
  function FirstDigitAt(s: string): (i: nat)
    ensures i <= |s|
    ensures forall k | 0 <= k < i :: !IsDigit(s[k])
    ensures i < |s| ==> IsDigit(s[i])
  {
    if |s| == 0 || IsDigit(s[0]) then 0
    else
      var k := FirstDigitAt(s[1..]);
      assert forall j | 1 <= j < |s| :: s[j] == s[1..][j - 1];
      k + 1
  }

  /**
    `s.match(/\d+/)`: the leftmost maximal run of ASCII digits, if any. It starts
    at the first digit in `s` and runs until the next non-digit or the end.
   */
  function FirstDigitRun(s: string): (r: Option<string>)
    ensures r.None? <==> forall i | 0 <= i < |s| :: !IsDigit(s[i])
    ensures r.Some? ==> |r.value| > 0 && forall i | 0 <= i < |r.value| :: IsDigit(r.value[i])
    ensures r.Some? ==>
      var i := FirstDigitAt(s);
      i + |r.value| <= |s| && r.value == s[i..i + |r.value|]
      && (i + |r.value| < |s| ==> !IsDigit(s[i + |r.value|]))
  {
    var i := FirstDigitAt(s);
    if i == |s| then None
    else
      var n := DigitRunLength(s[i..]);
      assert n > 0 && s[i..][..n] == s[i..i + n];
      Some(s[i..i + n])
  }

  /** The number `_guessZoneIndex` reads from one label: its first run of digits, if any. */
  function LabelNumber(value: string): Option<nat>
  {
    match FirstDigitRun(Lower(value))
    case None => None
    case Some(run) => Some(DigitsValue(run))
  }

  /** The numbers pushed into `labelsArray`, one per label that holds a digit. */
  function ZoneNumbers(labels: seq<string>): (ns: seq<nat>)
    ensures |ns| <= |labels|
  {
    if |labels| == 0 then []
    else
      var rest := ZoneNumbers(labels[1..]);
      match LabelNumber(labels[0])
      case None => rest
      case Some(n) => [n] + rest
  }

  /** A number is read exactly when some label yields it. */
  lemma {:induction false} ZoneNumbersMembers(labels: seq<string>, n: nat)
    ensures n in ZoneNumbers(labels) <==> exists i | 0 <= i < |labels| :: LabelNumber(labels[i]) == Some(n)
  {
    if |labels| > 0 {
      ZoneNumbersMembers(labels[1..], n);
      assert forall i | 1 <= i < |labels| :: labels[i] == labels[1..][i - 1];
      if exists i | 0 <= i < |labels| :: LabelNumber(labels[i]) == Some(n) {
        var i :| 0 <= i < |labels| && LabelNumber(labels[i]) == Some(n);
        if i > 0 {
          assert LabelNumber(labels[1..][i - 1]) == Some(n);
        }
      }
    }
  }

  function Min(ns: seq<nat>): (m: nat)
    requires |ns| > 0
    ensures m in ns && forall n | n in ns :: m <= n
  {
    if |ns| == 1 then ns[0]
    else
      var m := Min(ns[1..]);
      assert forall n | n in ns[1..] :: n in ns;
      assert forall n | n in ns :: n == ns[0] || n in ns[1..];
      if ns[0] <= m then ns[0] else m
  }

  function Max(ns: seq<nat>): (m: nat)
    requires |ns| > 0
    ensures m in ns && forall n | n in ns :: n <= m
  {
    if |ns| == 1 then ns[0]
    else
      var m := Max(ns[1..]);
      assert forall n | n in ns[1..] :: n in ns;
      assert forall n | n in ns :: n == ns[0] || n in ns[1..];
      if ns[0] >= m then ns[0] else m
  }

  /** The first element of `Array.from(Array(hi - from), (_, i) => i + from).filter(i => !list.includes(i))`. */
  function FirstMissing(list: seq<nat>, from: nat, hi: nat): (r: Option<nat>)
    ensures r.Some? ==> from <= r.value < hi && r.value !in list && forall k | from <= k < r.value :: k in list
    ensures r.None? ==> forall k | from <= k < hi :: k in list
    decreases hi - from
  {
    if from >= hi then None
    else if from !in list then Some(from)
    else FirstMissing(list, from + 1, hi)
  }

  /**
    `_guessZoneIndex()` of the current generation: the numbers read from the labels, with a 0
    pushed in; the first number from the smallest to below the largest that is missing, when
    there is one and it is not 0; otherwise the number of shapes (`shapeCount`). `None` is the
    RangeError of `Array(n)` when the largest number exceeds 2^32 - 1. (The `sort()` of the
    source orders the list as strings; only its minimum, maximum and members are used.)
   */
  function GuessZoneIndex(labels: seq<string>, shapeCount: nat): Option<nat>
  {
    var list := ZoneNumbers(labels) + [0];
    var zoneMin, zoneMax := Min(list), Max(list);
    if zoneMax - zoneMin > MaxArrayLength then None
    else
      match FirstMissing(list, zoneMin, zoneMax)
      case Some(k) => if k != 0 then Some(k) else Some(shapeCount)
      case None => Some(shapeCount)
  }

  /** The largest number read from the labels, 0 when none holds a digit. */
  function LargestNumber(labels: seq<string>): (m: nat)
    ensures forall n | n in ZoneNumbers(labels) :: n <= m
    ensures m == 0 || m in ZoneNumbers(labels)
  {
    var list := ZoneNumbers(labels) + [0];
    assert forall n | n in ZoneNumbers(labels) :: n in list;
    assert forall n | n in list :: n in ZoneNumbers(labels) || n == 0;
    Max(list)
  }

  /**
    The guess is the smallest k with 1 <= k < the largest number that no label carries;
    when there is none it is the shape count. It fails only on a number above 2^32 - 1.
   */
  lemma GuessZoneIndexSpec(labels: seq<string>, shapeCount: nat)
    ensures var numbers, top := ZoneNumbers(labels), LargestNumber(labels);
      && (GuessZoneIndex(labels, shapeCount).None? <==> top > MaxArrayLength)
      && (GuessZoneIndex(labels, shapeCount).Some? ==>
          var k := GuessZoneIndex(labels, shapeCount).value;
          || (1 <= k < top && k !in numbers && forall j | 1 <= j < k :: j in numbers)
          || (k == shapeCount && forall j | 1 <= j < top :: j in numbers))
  {
    var numbers := ZoneNumbers(labels);
    var list := numbers + [0];
    assert 0 in list;
    assert Min(list) == 0;
    assert forall n :: n in list <==> n in numbers || n == 0;
  }

  /**
    `_guessZoneIndex()` of the earlier generation (leaflet-draw-service.js), without the 0:
    the first missing number strictly between the smallest and the largest, otherwise the shape
    count. `None` is the RangeError of `Array(-Infinity)` when no label holds a digit (the
    minimum and maximum of an empty list are Infinity and -Infinity), or of a length above 2^32 - 1.
   */
  function GuessZoneIndexLegacy(labels: seq<string>, shapeCount: nat): Option<nat>
  {
    var list := ZoneNumbers(labels);
    if |list| == 0 then None
    else
      var zoneMin, zoneMax := Min(list), Max(list);
      if zoneMax - zoneMin > MaxArrayLength then None
      else
        match FirstMissing(list, zoneMin, zoneMax)
        case Some(k) => if k != 0 then Some(k) else Some(shapeCount)
        case None => Some(shapeCount)
  }

  /** The earlier guess: strictly between the extremes, else the shape count; it fails when no label holds a digit. */
  lemma GuessZoneIndexLegacySpec(labels: seq<string>, shapeCount: nat)
    ensures var numbers := ZoneNumbers(labels);
      && (|numbers| == 0 ==> GuessZoneIndexLegacy(labels, shapeCount).None?)
      && (|numbers| > 0 ==>
          var lo, hi := Min(numbers), Max(numbers);
          && (GuessZoneIndexLegacy(labels, shapeCount).None? <==> hi - lo > MaxArrayLength)
          && (GuessZoneIndexLegacy(labels, shapeCount).Some? ==>
              var k := GuessZoneIndexLegacy(labels, shapeCount).value;
              || (lo < k < hi && k !in numbers && forall j | lo < j < k :: j in numbers)
              || (k == shapeCount && forall j | lo < j < hi :: j in numbers)))
  {
    var numbers := ZoneNumbers(labels);
    if |numbers| > 0 {
      var lo, hi := Min(numbers), Max(numbers);
      if hi - lo <= MaxArrayLength {
        match FirstMissing(numbers, lo, hi)
        case Some(k) => assert lo in numbers; assert k != lo; assert k > lo; assert k != 0;
        case None =>
      }
    }
  }

  /** With no numbered label, as when the first circle is drawn on an empty map, the earlier guess throws. */
  lemma LegacyGuessFailsWithoutNumbers(shapeCount: nat)
    ensures GuessZoneIndexLegacy([], shapeCount).None?
    ensures GuessZoneIndexLegacy(["home"], shapeCount).None?
  {
    assert FirstDigitRun(Lower("home")).None?;
  }

  /** The seeded guess gives zone 1 in the same situation. */
  lemma GuessOnEmptyMap()
    ensures GuessZoneIndex([], 1) == Some(1)
  {
  }
}
