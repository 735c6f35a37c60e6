/** The keyboard-sequence finder: one left-to-right scan of a password that
    reports every horizontal, diagonal and repeated-key run of three or more
    characters, priced from the counts of a keyboard layout. */
module Keyboard {
  import opened Patterns

  const DIAGONAL: string := "DIAGONAL"
  const HORIZONTAL: string := "HORIZONTAL"
  const REPEATED: string := "REPEATED"

  /** The six neighbour directions of a key, and SELF for pressing it again. */
  datatype Direction = Left | Right | UpperLeft | UpperRight | LowerLeft | LowerRight | Self

  /** A physical key: the character on its shifted face, the one on its
      unshifted face, and its adjacency as the layout defines it:
      `matches(d, c)` says that `c` is on the key next to this one in
      direction `d`, `isSequence(c)` gives the direction (if any) in which
      `c` continues a sequence from this key. */
  datatype Key = Key(
    upper: char,
    lower: char,
    matches: (Direction, char) -> bool,
    isSequence: char -> Option<Direction>)

  /** What a keyboard layout supplies: its name, the key of each character,
      and its aggregate counts. */
  datatype KeyboardLayout = KeyboardLayout(
    name: string,
    keyboard: map<char, Key>,
    characterKeysCount: int,
    diagonalComboTotal: int,
    horizontalComboSize: int -> int,
    horizontalComboTotal: int)

  /** The finder, fixed once it is built from a layout. */
  datatype KeySequenceFinder = KeySequenceFinder(
    keyboard: map<char, Key>,
    keyCount: int,
    diagCount: int,
    horiz3n4Count: int,
    horiz5plusCount: int,
    layoutName: string)

  /** Builds a finder: runs of 3 and 4 keys and runs of 5 or more are priced
      separately, and together they account for all horizontal runs. */
  function NewKeySequenceFinder(keys: KeyboardLayout): (f: KeySequenceFinder)
    ensures f.keyboard == keys.keyboard && f.layoutName == keys.name
    ensures f.keyCount == keys.characterKeysCount && f.diagCount == keys.diagonalComboTotal
    ensures f.horiz3n4Count == keys.horizontalComboSize(3) + keys.horizontalComboSize(4)
    ensures f.horiz3n4Count + f.horiz5plusCount == keys.horizontalComboTotal
  {
    var horiz3n4 := keys.horizontalComboSize(3) + keys.horizontalComboSize(4);
    KeySequenceFinder(keys.keyboard, keys.characterKeysCount, keys.diagonalComboTotal,
                      horiz3n4, keys.horizontalComboTotal - horiz3n4, keys.name)
  }

  // ---------------------------------------------------------------------
  // Upper-case factor
  // ---------------------------------------------------------------------

  /** `n / 2` as Java computes it on an int: the quotient truncated toward zero. */
  function Half(n: int): int {
    if n >= 0 then n / 2 else -((-n) / 2)
  }

  /** How many characters' case is guessed: the shifted ones while they are at
      most half of the run, otherwise the unshifted ones. */
  function CharsToGuess(length: int, upperLetters: int): int {
    if upperLetters > Half(length) then length - upperLetters else upperLetters
  }

  /** n * (n - 1) * ... * (n - m + 1), the product of m descending factors;
      1 when m <= 0. */
  function FallingFactorial(n: int, m: int): int
    decreases m
  {
    if m <= 0 then 1 else FallingFactorial(n, m - 1) * (n - m + 1)
  }

  /** The number of ways the shift key can be placed in a run of `length`
      characters of which `upperLetters` are shifted. */
  function UpperCaseFactor(length: int, upperLetters: int): (factor: int)
    ensures 0 <= upperLetters <= length ==> factor >= 1
  {
    var m := CharsToGuess(length, upperLetters);
    if 0 <= upperLetters <= length then
      FallingFactorialPositive(length, m);
      FallingFactorial(length, m)
    else
      FallingFactorial(length, m)
  }

  method GetUpperCaseFactor(length: int, upperLetters: int) returns (upperCaseFactor: int)
    ensures upperCaseFactor == UpperCaseFactor(length, upperLetters)
  {
    upperCaseFactor := 1;
    var charsToGuess;
    if upperLetters > Half(length) {
      charsToGuess := length - upperLetters;
    } else {
      charsToGuess := upperLetters;
    }
    var letterChoices := length;
    while letterChoices > length - charsToGuess
      invariant 0 <= length - letterChoices
      invariant length - letterChoices <= charsToGuess || letterChoices == length
      invariant upperCaseFactor == FallingFactorial(length, length - letterChoices)
      decreases letterChoices - (length - charsToGuess)
    {
      upperCaseFactor := upperCaseFactor * letterChoices;
      letterChoices := letterChoices - 1;
    }
  }

  function Factorial(n: nat): nat {
    if n == 0 then 1 else n * Factorial(n - 1)
  }

  /** The falling factorial is n! / (n - m)!: the number of ordered choices of
      m positions out of n (not the binomial coefficient). */
  lemma {:induction false} FallingFactorialIsFactorialQuotient(n: nat, m: nat)
    requires m <= n
    ensures Factorial(n) == FallingFactorial(n, m) * Factorial(n - m)
  {
    if m > 0 {
      FallingFactorialIsFactorialQuotient(n, m - 1);
      var a := FallingFactorial(n, m - 1);
      var k := n - m;
      var b := Factorial(k);
      assert Factorial(n) == a * Factorial(k + 1);
      assert Factorial(k + 1) == (k + 1) * b;
      assert FallingFactorial(n, m) == a * (k + 1);
      assert Factorial(n) == a * ((k + 1) * b);
      MulAssociative(a, k + 1, b);
      assert Factorial(n - m) == b;
    } else {
      assert FallingFactorial(n, m) == 1;
    }
  }

  lemma AppendAssociative<T>(a: seq<T>, b: seq<T>, c: seq<T>)
    ensures a + (b + c) == (a + b) + c
  {
  }

  lemma MulAssociative(x: int, y: int, z: int)
    ensures x * (y * z) == (x * y) * z
  {
  }

  lemma {:induction false} FallingFactorialPositive(n: int, m: int)
    requires m <= n
    ensures FallingFactorial(n, m) >= 1
  {
    if m > 0 {
      FallingFactorialPositive(n, m - 1);
      var a := FallingFactorial(n, m - 1);
      assert a * (n - m + 1) >= a * 1;
    }
  }

  /** For a shift count between 0 and the run length, the number of guessed
      characters is between 0 and half the run, and the factor is at least 1. */
  lemma UpperCaseFactorBounds(length: int, upperLetters: int)
    requires 0 <= upperLetters <= length
    ensures 0 <= CharsToGuess(length, upperLetters) <= length / 2
    ensures UpperCaseFactor(length, upperLetters) >= 1
  {
  }

  /** Swapping which case is the majority does not change the factor. */
  lemma UpperCaseFactorSymmetric(length: int, upperLetters: int)
    requires 0 <= upperLetters <= length
    ensures UpperCaseFactor(length, upperLetters) == UpperCaseFactor(length, length - upperLetters)
  {
    assert CharsToGuess(length, upperLetters) == CharsToGuess(length, length - upperLetters);
  }

  lemma UpperCaseFactorValues(length: int)
    ensures UpperCaseFactor(length, 0) == 1
    ensures UpperCaseFactor(5, 2) == 20
    ensures UpperCaseFactor(4, 3) == 4
  {
  }

  // ---------------------------------------------------------------------
  // Pricing one window
  // ---------------------------------------------------------------------

  function PatternName(d: Direction): string {
    match d
    case Left | Right => HORIZONTAL
    case UpperLeft | UpperRight | LowerLeft | LowerRight => DIAGONAL
    case Self => REPEATED
  }

  /** The cost of a reported window by its kind, before the shift key is taken
      into account: horizontal runs of 3 or 4 keys and of 5 or more, diagonal
      runs, and repeated keys. A repeated key is priced on the length of the
      whole password, whatever the length of the window. */
  function KindCost(f: KeySequenceFinder, name: string, length: int, passwordLength: int): int {
    if name == HORIZONTAL then (if length > 4 then f.horiz5plusCount else f.horiz3n4Count)
    else if name == DIAGONAL then f.diagCount
    else f.keyCount * (passwordLength - 2)
  }

  /** The cost of a window of a run in direction `d`, before the shift key. */
  function BaseCost(f: KeySequenceFinder, d: Direction, length: int, passwordLength: int): int {
    KindCost(f, PatternName(d), length, passwordLength)
  }

  /** The shift-key multiplier: 2 times the upper-case factor when the run
      mixes shifted and unshifted characters, 1 otherwise. */
  function ShiftMultiplier(length: int, nUpper: int): int {
    if 0 < nUpper < length then 2 * UpperCaseFactor(length, nUpper) else 1
  }

  /** Some flag is set and some flag is clear. */
  predicate Mixed(flags: seq<bool>) {
    (exists j :: 0 <= j < |flags| && flags[j]) && (exists j :: 0 <= j < |flags| && !flags[j])
  }

  function CountTrue(flags: seq<bool>): nat {
    if flags == [] then 0
    else CountTrue(flags[..|flags| - 1]) + (if flags[|flags| - 1] then 1 else 0)
  }

  /** The pattern reported for the window [start, start + length) of a run in
      direction `d`, given the shift flags of the characters scanned so far. */
  function WindowPattern(f: KeySequenceFinder, password: string, start: int, length: int,
                         d: Direction, isUpper: seq<bool>): (p: PasswordPattern)
    requires 0 <= start && 0 <= length && start + length <= |password| && start + length <= |isUpper|
    ensures p.startIndex == start && p.length == length && p.matchString == password[start..start + length]
    ensures p.name == PatternName(d) && p.classification == f.layoutName
    ensures Mixed(isUpper[start..start + length]) ==>
              p.cost == BaseCost(f, d, length, |password|)
                        * (2 * UpperCaseFactor(length, CountTrue(isUpper[start..start + length])))
    ensures !Mixed(isUpper[start..start + length]) ==> p.cost == BaseCost(f, d, length, |password|)
  {
    var flags := isUpper[start..start + length];
    MixedIffCount(flags);
    PasswordPattern(start, length, password[start..start + length],
                    BaseCost(f, d, length, |password|) * ShiftMultiplier(length, CountTrue(flags)),
                    PatternName(d), f.layoutName)
  }

  method ReportPattern(f: KeySequenceFinder, pass: PasswordResults, start: int, length: int,
                       d: Direction, isUpper: array<bool>)
    requires 0 <= start && 0 <= length && start + length <= |pass.password|
    requires start + length <= isUpper.Length
    modifies pass
    ensures pass.patterns == old(pass.patterns) + [WindowPattern(f, pass.password, start, length, d, isUpper[..])]
  {
    var patternSize := 1;
    var patternName;
    match d {
      case Left | Right =>
        if length > 4 {
          patternSize := patternSize * f.horiz5plusCount;
        } else {
          patternSize := patternSize * f.horiz3n4Count;
        }
        patternName := HORIZONTAL;
      case UpperLeft | UpperRight | LowerLeft | LowerRight =>
        patternSize := patternSize * f.diagCount;
        patternName := DIAGONAL;
      case Self =>
        patternSize := patternSize * (f.keyCount * (|pass.password| - 2));
        patternName := REPEATED;
    }

    assert patternSize == BaseCost(f, d, length, |pass.password|) && patternName == PatternName(d);

    ghost var flags := isUpper[start..start + length];
    var hasUpper := false;
    var hasLower := false;
    var nUpper := 0;
    for i := start to start + length
      invariant nUpper == CountTrue(flags[..i - start])
      invariant hasUpper <==> exists j :: 0 <= j < i - start && flags[j]
      invariant hasLower <==> exists j :: 0 <= j < i - start && !flags[j]
    {
      assert flags[i - start] == isUpper[i];
      assert flags[..i + 1 - start][..i - start] == flags[..i - start];
      if isUpper[i] {
        hasUpper := true;
        nUpper := nUpper + 1;
      } else {
        hasLower := true;
      }
    }
    assert flags[..length] == flags;

    if hasUpper && hasLower {
      var factor := GetUpperCaseFactor(length, nUpper);
      patternSize := patternSize * (2 * factor);
    }

    var passString := pass.password[start..start + length];
    pass.FoundPattern(PasswordPattern(start, length, passString, patternSize, patternName, f.layoutName));
  }

  // ---------------------------------------------------------------------
  // The scan
  // ---------------------------------------------------------------------

  function Lookup(f: KeySequenceFinder, c: char): Option<Key> {
    if c in f.keyboard then Some(f.keyboard[c]) else None
  }

  /** The scan's working state after some prefix of the password. */
  datatype ScanState = ScanState(
    previous: Option<Key>,
    direction: Option<Direction>,
    startOfSequence: int,
    isUpper: seq<bool>)

  /** A scan state together with the patterns reported so far. */
  datatype Scan = Scan(state: ScanState, reported: seq<PasswordPattern>)

  /** The state before the loop: the previous key is that of the first
      character, no run is open, and only the first character can be flagged
      as shifted. */
  function InitialState(f: KeySequenceFinder, password: string): (st: ScanState)
    requires |password| > 0
    ensures st.previous == Lookup(f, password[0]) && st.direction.None?
    ensures st.isUpper == UpperFlags(f, password, 1)
  {
    var previous := Lookup(f, password[0]);
    var isUpper := seq(|password|, j => false);
    ScanState(previous, None, 0, isUpper[0 := previous.Some? && previous.value.upper == password[0]])
  }

  /** The windows [s, end] for s from `first` up to (not including) `last`. */
  function Windows(f: KeySequenceFinder, password: string, first: int, last: int, end: int,
                   d: Direction, isUpper: seq<bool>): (w: seq<PasswordPattern>)
    requires 0 <= first <= last <= end < |password| == |isUpper|
    ensures |w| == last - first
    ensures forall k :: 0 <= k < |w| ==> w[k].startIndex == first + k && w[k].startIndex + w[k].length == end + 1
  {
    var w := seq(last - first, k requires 0 <= k < last - first =>
      WindowPattern(f, password, first + k, end - (first + k) + 1, d, isUpper));
    assert forall k :: 0 <= k < |w| ==> w[k] == WindowPattern(f, password, first + k, end - (first + k) + 1, d, isUpper);
    w
  }

  /** Processes the character at index i. An unmapped character forgets the
      previous key but leaves an open run open; a mapped character right after
      an unmapped one (or after an unmapped first character) only becomes the
      previous key. */
  function Step(f: KeySequenceFinder, password: string, i: int, st: ScanState): (r: Scan)
    requires 1 <= i < |password| == |st.isUpper|
    requires st.direction.Some? ==> 0 <= st.startOfSequence
    ensures r.state.previous == Lookup(f, password[i])
    ensures |r.state.isUpper| == |st.isUpper|
    ensures forall j :: 0 <= j < |st.isUpper| && j != i ==> r.state.isUpper[j] == st.isUpper[j]
    ensures password[i] !in f.keyboard || st.previous.None? ==>
              && r.state.direction == st.direction && r.state.startOfSequence == st.startOfSequence
              && r.state.isUpper == st.isUpper && r.reported == []
  {
    var c := password[i];
    if c !in f.keyboard then
      Scan(st.(previous := None), [])
    else if st.previous.None? then
      Scan(st.(previous := Some(f.keyboard[c])), [])
    else
      Advance(f, password, i, st.previous.value, f.keyboard[c], st)
  }

  /** Processes the mapped character at index i that follows the mapped key
      `previous`: records whether it is shifted, extends the open run (reporting
      every window of three or more characters that ends here) or closes it,
      and, when no run is open, opens one at i - 1 if the two keys start a
      sequence. */
  function Advance(f: KeySequenceFinder, password: string, i: int, previous: Key, current: Key,
                   st: ScanState): (r: Scan)
    requires 1 <= i < |password| == |st.isUpper|
    requires st.direction.Some? ==> 0 <= st.startOfSequence
    ensures r.state.previous == Some(current)
    ensures r.state.isUpper == st.isUpper[i := current.upper == password[i]]
    ensures var continues := st.direction.Some? && previous.matches(st.direction.value, password[i]);
            && (continues ==> r.state.direction == st.direction && r.state.startOfSequence == st.startOfSequence)
            && (!continues ==> r.state.direction == previous.isSequence(password[i]) && r.reported == [])
            && (!continues && r.state.direction.Some? ==> r.state.startOfSequence == i - 1)
            && (!continues && r.state.direction.None? ==> r.state.startOfSequence == st.startOfSequence)
  {
    var c := password[i];
    var isUpper := st.isUpper[i := current.upper == c];
    var continues := st.direction.Some? && previous.matches(st.direction.value, c);
    var reported :=
      if continues && i - st.startOfSequence >= 2
      then Windows(f, password, st.startOfSequence, i - 1, i, st.direction.value, isUpper)
      else [];
    var direction := if continues then st.direction else previous.isSequence(c);
    var start := if !continues && direction.Some? then i - 1 else st.startOfSequence;
    Scan(ScanState(Some(current), direction, start, isUpper), reported)
  }

  /** Whether the scan marks the character at j as typed with shift: it is
      the upper face of its key, and it is either the first character or
      follows a mapped character (a character right after an unmapped one is
      never classified). */
  predicate ShiftedAt(f: KeySequenceFinder, password: string, j: int)
    requires 0 <= j < |password|
  {
    password[j] in f.keyboard && f.keyboard[password[j]].upper == password[j]
    && (j == 0 || password[j - 1] in f.keyboard)
  }

  /** The shift flags once the first n characters have been scanned. */
  function UpperFlags(f: KeySequenceFinder, password: string, n: int): (flags: seq<bool>)
    ensures |flags| == |password|
  {
    seq(|password|, j requires 0 <= j < |password| => j < n && ShiftedAt(f, password, j))
  }

  /** What holds after the first n characters have been scanned: the shift
      flags are exactly those of `UpperFlags`, the previous key is that of
      character n - 1, and an open run started at least two characters back. */
  ghost predicate ScanInvariant(f: KeySequenceFinder, password: string, n: int, st: ScanState)
    requires 1 <= n <= |password|
  {
    && st.isUpper == UpperFlags(f, password, n)
    && st.previous == Lookup(f, password[n - 1])
    && (st.direction.Some? ==> 0 <= st.startOfSequence <= n - 2)
  }

  /** The scan of the first n characters: the state and every pattern reported.
      An open run always started at least two characters back, so a run that
      continues always reports at least one window. */
  function Run(f: KeySequenceFinder, password: string, n: int): (r: Scan)
    requires 1 <= n <= |password|
    ensures |r.state.isUpper| == |password|
    ensures r.state.direction.Some? ==> 0 <= r.state.startOfSequence <= n - 2
    decreases n
  {
    if n == 1 then
      Scan(InitialState(f, password), [])
    else
      var prior := Run(f, password, n - 1);
      var next := Step(f, password, n - 1, prior.state);
      Scan(next.state, prior.reported + next.reported)
  }

  lemma RunNext(f: KeySequenceFinder, password: string, n: int)
    requires 1 <= n < |password|
    ensures var prior := Run(f, password, n);
            var next := Step(f, password, n, prior.state);
            Run(f, password, n + 1) == Scan(next.state, prior.reported + next.reported)
  {
  }

  /** The previous key of the scan is always the key of the last character scanned. */
  lemma {:induction false} RunTracksPrevious(f: KeySequenceFinder, password: string, n: int)
    requires 1 <= n <= |password|
    ensures Run(f, password, n).state.previous == Lookup(f, password[n - 1])
  {
    if n > 1 {
      RunTracksPrevious(f, password, n - 1);
    }
  }

  /** The shift flags of the characters not yet scanned are still clear. */
  lemma {:induction false} RunLeavesRestClear(f: KeySequenceFinder, password: string, n: int)
    requires 1 <= n <= |password|
    ensures forall j :: n <= j < |password| ==> !Run(f, password, n).state.isUpper[j]
  {
    if n > 1 {
      RunLeavesRestClear(f, password, n - 1);
    }
  }

  lemma {:induction false} RunInvariant(f: KeySequenceFinder, password: string, n: int)
    requires 1 <= n <= |password|
    ensures ScanInvariant(f, password, n, Run(f, password, n).state)
    decreases n
  {
    if n > 1 {
      RunInvariant(f, password, n - 1);
      var r := Run(f, password, n).state;
      forall j | 0 <= j < |password|
        ensures r.isUpper[j] == UpperFlags(f, password, n)[j]
      {
      }
    }
  }

  lemma WindowsSnoc(f: KeySequenceFinder, password: string, first: int, last: int, end: int,
                    d: Direction, isUpper: seq<bool>)
    requires 0 <= first <= last < end < |password| == |isUpper|
    ensures Windows(f, password, first, last + 1, end, d, isUpper)
         == Windows(f, password, first, last, end, d, isUpper)
            + [WindowPattern(f, password, last, end - last + 1, d, isUpper)]
  {
  }

  // ---------------------------------------------------------------------
  // What the scan reports
  // ---------------------------------------------------------------------

  lemma {:induction false} MixedIffCount(flags: seq<bool>)
    ensures Mixed(flags) <==> 0 < CountTrue(flags) < |flags|
  {
    if flags != [] {
      var init := flags[..|flags| - 1];
      MixedIffCount(init);
      assert forall j :: 0 <= j < |init| ==> init[j] == flags[j];
      if flags[|flags| - 1] {
        assert Mixed(flags) <==> exists j :: 0 <= j < |init| && !init[j];
      } else {
        assert Mixed(flags) <==> exists j :: 0 <= j < |init| && init[j];
      }
      CountTrueBounds(init);
    }
  }

  lemma {:induction false} CountTrueBounds(flags: seq<bool>)
    ensures CountTrue(flags) <= |flags|
    ensures CountTrue(flags) == 0 <==> forall j :: 0 <= j < |flags| ==> !flags[j]
    ensures CountTrue(flags) == |flags| <==> forall j :: 0 <= j < |flags| ==> flags[j]
  {
    if flags != [] {
      var init := flags[..|flags| - 1];
      CountTrueBounds(init);
      assert forall j :: 0 <= j < |init| ==> init[j] == flags[j];
    }
  }

  /** How many characters of [start, start + length) the scan classifies as shifted. */
  function ShiftedCount(f: KeySequenceFinder, password: string, start: int, length: int): nat
    requires 0 <= start && 0 <= length && start + length <= |password|
  {
    CountTrue(UpperFlags(f, password, |password|)[start..start + length])
  }

  /** A pattern the finder may report for this password: a window of three or
      more characters, carrying exactly its own text, priced by its kind and
      its mix of shifted characters. */
  ghost predicate ReportedWindow(f: KeySequenceFinder, password: string, p: PasswordPattern) {
    && 0 <= p.startIndex && 3 <= p.length && p.startIndex + p.length <= |password|
    && p.matchString == password[p.startIndex..p.startIndex + p.length]
    && p.classification == f.layoutName
    && p.name in {HORIZONTAL, DIAGONAL, REPEATED}
    && p.cost == KindCost(f, p.name, p.length, |password|)
                 * ShiftMultiplier(p.length, ShiftedCount(f, password, p.startIndex, p.length))
  }

  lemma WindowPatternIsReported(f: KeySequenceFinder, password: string, start: int, length: int,
                                d: Direction, n: int)
    requires 0 <= start && 3 <= length && start + length <= n <= |password|
    ensures ReportedWindow(f, password, WindowPattern(f, password, start, length, d, UpperFlags(f, password, n)))
  {
    var flags := UpperFlags(f, password, n)[start..start + length];
    assert flags == UpperFlags(f, password, |password|)[start..start + length];
    MixedIffCount(flags);
    var p := WindowPattern(f, password, start, length, d, UpperFlags(f, password, n));
    assert KindCost(f, p.name, length, |password|) == BaseCost(f, d, length, |password|);
  }

  /** Every pattern reported while scanning the first n characters is a
      window of three or more characters ending before n, with its own text,
      priced by its kind and its shifted characters. */
  lemma {:induction false} RunReportsWindows(f: KeySequenceFinder, password: string, n: int)
    requires 1 <= n <= |password|
    ensures forall p :: p in Run(f, password, n).reported ==>
              ReportedWindow(f, password, p) && p.startIndex + p.length <= n
    decreases n
  {
    if n > 1 {
      RunReportsWindows(f, password, n - 1);
      StepReportsWindows(f, password, n);
      RunNext(f, password, n - 1);
    }
  }

  /** The patterns reported at character n - 1 are windows ending at n - 1. */
  lemma StepReportsWindows(f: KeySequenceFinder, password: string, n: int)
    requires 2 <= n <= |password|
    ensures forall p :: p in Step(f, password, n - 1, Run(f, password, n - 1).state).reported ==>
              ReportedWindow(f, password, p) && p.startIndex + p.length <= n
  {
    var st := Run(f, password, n - 1).state;
    var out := Step(f, password, n - 1, st).reported;
    if out != [] {
      var c := password[n - 1];
      var r := Advance(f, password, n - 1, st.previous.value, f.keyboard[c], st);
      RunNext(f, password, n - 1);
      RunInvariant(f, password, n);
      assert r.state.isUpper == UpperFlags(f, password, n);
      WindowsAreReported(f, password, st.startOfSequence, n - 1, st.direction.value);
    }
  }

  /** The windows ending at `end`, priced with the flags of the first end + 1
      characters, are all windows the finder may report. */
  lemma WindowsAreReported(f: KeySequenceFinder, password: string, first: int, end: int, d: Direction)
    requires 0 <= first <= end - 2 && end < |password|
    ensures forall p :: p in Windows(f, password, first, end - 1, end, d, UpperFlags(f, password, end + 1)) ==>
              ReportedWindow(f, password, p) && p.startIndex + p.length <= end + 1
  {
    var w := Windows(f, password, first, end - 1, end, d, UpperFlags(f, password, end + 1));
    forall k | 0 <= k < |w|
      ensures ReportedWindow(f, password, w[k])
    {
      WindowPatternIsReported(f, password, first + k, end - (first + k) + 1, d, end + 1);
    }
  }

  /** When the character at i continues the open run, the scan reports
      exactly i - startOfSequence - 1 windows (at least one, since an open run
      of the scan started at least two characters back, as `Run` ensures),
      starting at startOfSequence, ..., i - 2 and all ending at i; otherwise
      it reports nothing. */
  lemma ContinuingRunReports(f: KeySequenceFinder, password: string, i: int, st: ScanState)
    requires 1 <= i < |password| == |st.isUpper|
    requires st.direction.Some? ==> 0 <= st.startOfSequence <= i - 2
    ensures var out := Step(f, password, i, st).reported;
            var continues := password[i] in f.keyboard && st.previous.Some? && st.direction.Some?
                             && st.previous.value.matches(st.direction.value, password[i]);
            && (continues ==>
                  && |out| == i - st.startOfSequence - 1 >= 1
                  && forall k :: 0 <= k < |out| ==>
                       out[k].startIndex == st.startOfSequence + k && out[k].startIndex + out[k].length == i + 1)
            && (!continues ==> out == [])
  {
  }

  /** How the open direction evolves at a mapped character that follows a
      mapped key: a continuing run keeps its direction and start; otherwise
      the run is closed and a new one is opened at i - 1 exactly when the two
      keys start a sequence. */
  lemma StepDirection(f: KeySequenceFinder, password: string, i: int)
    requires 1 <= i < |password|
    requires password[i] in f.keyboard && Run(f, password, i).state.previous.Some?
    ensures var st := Run(f, password, i).state;
            var r := Step(f, password, i, st).state;
            var previous := st.previous.value;
            var c := password[i];
            var continues := st.direction.Some? && previous.matches(st.direction.value, c);
            && (continues ==> r.direction == st.direction && r.startOfSequence == st.startOfSequence)
            && (!continues ==> r.direction == previous.isSequence(c))
            && (!continues && r.direction.Some? ==> r.startOfSequence == i - 1)
            && (!continues && r.direction.None? ==> r.startOfSequence == st.startOfSequence)
  {
  }

  /** An unmapped character forgets the previous key but keeps the open run
      open; the mapped character after it only becomes the previous key. */
  lemma UnmappedCharacterKeepsRun(f: KeySequenceFinder, password: string, i: int)
    requires 1 <= i < |password| - 1
    requires password[i] !in f.keyboard && password[i + 1] in f.keyboard
    ensures var st := Run(f, password, i).state;
            var mid := Run(f, password, i + 1).state;
            var after := Run(f, password, i + 2).state;
            && mid.previous.None? && mid.direction == st.direction
            && mid.startOfSequence == st.startOfSequence
            && after.direction == st.direction && after.startOfSequence == st.startOfSequence
            && after.isUpper[i + 1] == false
            && Run(f, password, i + 2).reported == Run(f, password, i).reported
  {
    RunInvariant(f, password, i + 2);
  }

  lemma WindowCostPositive(f: KeySequenceFinder, name: string, length: int, passwordLength: int, nUpper: int)
    requires 3 <= length <= passwordLength && 0 <= nUpper <= length
    requires f.keyCount >= 1 && f.diagCount >= 1 && f.horiz3n4Count >= 1 && f.horiz5plusCount >= 1
    ensures KindCost(f, name, length, passwordLength) * ShiftMultiplier(length, nUpper) >= 1
  {
    var base := KindCost(f, name, length, passwordLength);
    var m := ShiftMultiplier(length, nUpper);
    assert base >= 1 by {
      if name != HORIZONTAL && name != DIAGONAL {
        ProductPositive(f.keyCount, passwordLength - 2);
      }
    }
    assert m >= 1 by {
      if 0 < nUpper < length {
        UpperCaseFactorBounds(length, nUpper);
      }
    }
    ProductPositive(base, m);
  }

  lemma ProductPositive(a: int, b: int)
    requires a >= 1 && b >= 1
    ensures a * b >= 1
  {
    assert a * b >= a * 1;
  }

  /** With positive layout counts every reported pattern has a positive cost. */
  lemma ReportedCostPositive(f: KeySequenceFinder, password: string)
    requires |password| > 0
    requires f.keyCount >= 1 && f.diagCount >= 1 && f.horiz3n4Count >= 1 && f.horiz5plusCount >= 1
    ensures forall p :: p in Run(f, password, |password|).reported ==> p.cost >= 1
  {
    RunReportsWindows(f, password, |password|);
    forall p | p in Run(f, password, |password|).reported
      ensures p.cost >= 1
    {
      var nUpper := ShiftedCount(f, password, p.startIndex, p.length);
      CountTrueBounds(UpperFlags(f, password, |password|)[p.startIndex..p.startIndex + p.length]);
      WindowCostPositive(f, p.name, p.length, |password|, nUpper);
    }
  }

  // ---------------------------------------------------------------------
  // A one-row layout "abc", each key followed to its right by the next letter
  // ---------------------------------------------------------------------

  function RowKey(upper: char, lower: char, next: char): Key {
    Key(upper, lower,
        (d: Direction, c: char) => d == Right && c == next,
        (c: char) => if c == next then Some(Right) else None)
  }

  function AbcFinder(): KeySequenceFinder {
    NewKeySequenceFinder(KeyboardLayout(
      "abc",
      map['a' := RowKey('A', 'a', 'b'), 'b' := RowKey('B', 'b', 'c'), 'c' := RowKey('C', 'c', 'd')],
      3, 0, (n: int) => if n == 3 then 6 else 0, 6))
  }

  /** On the one-row layout, "abc" yields exactly one horizontal window of
      length 3 priced at the 3-and-4 horizontal count. */
  lemma AbcScenario()
    ensures Run(AbcFinder(), "abc", 3).reported == [PasswordPattern(0, 3, "abc", 6, HORIZONTAL, "abc")]
  {
    var f := AbcFinder();
    var pw := "abc";
    var st1 := Run(f, pw, 2).state;
    assert Run(f, pw, 2).reported == [];
    assert st1.direction == Some(Right) && st1.startOfSequence == 0;
    assert st1.isUpper == [false, false, false];
    var isUpper := [false, false, false];
    var w := WindowPattern(f, pw, 0, 3, Right, isUpper);
    assert !Mixed(isUpper);
    assert w.cost == 6;
    assert w.matchString == pw[0..3] == "abc";
    assert w == PasswordPattern(0, 3, "abc", 6, HORIZONTAL, "abc");
    assert Step(f, pw, 2, st1).reported == [w];
    RunNext(f, pw, 2);
  }

  /** An unmapped character inside a run does not end it: on the one-row
      layout, "ab?bc" reports the windows "ab?bc", "b?bc" and "?bc". */
  lemma UnmappedCharacterInsideRun()
    ensures |Run(AbcFinder(), "ab?bc", 5).reported| == 3
    ensures Run(AbcFinder(), "ab?bc", 5).reported[0].matchString == "ab?bc"
    ensures Run(AbcFinder(), "ab?bc", 5).reported[1].matchString == "b?bc"
    ensures Run(AbcFinder(), "ab?bc", 5).reported[2].matchString == "?bc"
  {
    var f := AbcFinder();
    var pw := "ab?bc";
    assert Run(f, pw, 2).state.direction == Some(Right) && Run(f, pw, 2).state.startOfSequence == 0;
    assert Run(f, pw, 3).state.direction == Some(Right) && Run(f, pw, 3).state.startOfSequence == 0;
    assert Run(f, pw, 4).state.direction == Some(Right) && Run(f, pw, 4).state.startOfSequence == 0;
    assert Run(f, pw, 4).state.previous.Some? && Run(f, pw, 4).reported == [];
  }

  /** Reports, in order, the windows [start, end] for every start from `first`
      up to end - 2: every window of length three or more that ends at `end`. */
  method ReportWindows(f: KeySequenceFinder, pass: PasswordResults, first: int, end: int,
                       d: Direction, isUpper: array<bool>)
    requires 0 <= first <= end - 2 && end < |pass.password| == isUpper.Length
    modifies pass
    ensures pass.patterns == old(pass.patterns) + Windows(f, pass.password, first, end - 1, end, d, isUpper[..])
  {
    for start := first to end - 1
      invariant pass.patterns == old(pass.patterns) + Windows(f, pass.password, first, start, end, d, isUpper[..])
    {
      WindowsSnoc(f, pass.password, first, start, end, d, isUpper[..]);
      ReportPattern(f, pass, start, end - start + 1, d, isUpper);
    }
  }

  /** The work the scan does on a mapped character that follows a mapped key.
      The character's flag is still clear on entry, so a character that is
      neither face of its key leaves it clear, as the scan does when Java
      assertions are disabled. */
  method AdvanceScan(f: KeySequenceFinder, pass: PasswordResults, i: int, previous: Key, current: Key,
                     isUpper: array<bool>, currentDirection: Option<Direction>, startOfSequence: int)
    returns (direction: Option<Direction>, start: int)
    requires 1 <= i < |pass.password| == isUpper.Length
    requires currentDirection.Some? ==> 0 <= startOfSequence
    requires !isUpper[i]
    modifies pass, isUpper
    ensures var r := Advance(f, pass.password, i, previous, current,
                             ScanState(Some(previous), currentDirection, startOfSequence, old(isUpper[..])));
            && ScanState(Some(current), direction, start, isUpper[..]) == r.state
            && pass.patterns == old(pass.patterns) + r.reported
  {
    var c := pass.password[i];
    if current.upper == c {
      isUpper[i] := true;
    } else if current.lower == c {
      isUpper[i] := false;
    }

    direction, start := currentDirection, startOfSequence;
    if direction.Some? {
      if !previous.matches(direction.value, c) {
        direction := None;
      } else {
        if i - start >= 2 {
          ReportWindows(f, pass, start, i, direction.value, isUpper);
        }
      }
    }

    if direction.None? {
      direction := previous.isSequence(c);
      if direction.Some? {
        start := i - 1;
      }
    }
  }

  method Analyze(f: KeySequenceFinder, pass: PasswordResults)
    requires |pass.password| > 0
    modifies pass
    ensures pass.patterns == old(pass.patterns) + Run(f, pass.password, |pass.password|).reported
  {
    var password := pass.password;
    var previous := Lookup(f, password[0]);
    var currentDirection: Option<Direction> := None;
    var startOfSequence := 0;

    var isUpper := new bool[|password|](j => false);
    isUpper[0] := previous.Some? && previous.value.upper == password[0];
    ghost var scan := Run(f, password, 1);
    for i := 1 to |password|
      invariant scan == Run(f, password, i)
      invariant ScanState(previous, currentDirection, startOfSequence, isUpper[..]) == scan.state
      invariant pass.patterns == old(pass.patterns) + scan.reported
    {
      ghost var next := Step(f, password, i, scan.state);
      RunNext(f, password, i);
      AppendAssociative(old(pass.patterns), scan.reported, next.reported);
      scan := Scan(next.state, scan.reported + next.reported);
      var c := password[i];
      var current := Lookup(f, c);
      if current.None? {
        previous := None;
        continue;
      }
      if previous.None? {
        previous := current;
        continue;
      }
      RunTracksPrevious(f, password, i);
      RunLeavesRestClear(f, password, i);
      assert next == Advance(f, password, i, previous.value, current.value,
                             ScanState(previous, currentDirection, startOfSequence, isUpper[..]));
      currentDirection, startOfSequence :=
        AdvanceScan(f, pass, i, previous.value, current.value, isUpper, currentDirection, startOfSequence);
      previous := current;
    }
  }
}
