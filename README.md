# Passfault keyboard sequences and repeated patterns, in Dafny

Passfault estimates how hard a password is to guess. It looks for patterns in
the password and prices each pattern by the size of its search space (its
"cost"). This project models two parts of it:

- **The keyboard-sequence finder** (`Keyboard`, in `keyboard.dfy`). It scans a
  password once, from left to right, over the keys of one keyboard layout. It
  reports every horizontal, diagonal and repeated-key run of three or more
  characters. A run's cost comes from the layout's counts, multiplied by a
  shift-key factor when the run mixes shifted and unshifted characters.
- **The duplicate collapser** (`RepeatingPatternFinder`, in `repeating.dfy`).
  It takes a finished path of patterns and replaces every pattern that repeats
  an earlier one by a `DUPLICATE` pattern of cost 1.

The shared values are in `patterns.dfy` (`Patterns`):

- `PasswordPattern`: one found pattern.
- `PasswordResults`: the per-password results object. It has a `patterns`
  sequence that `FoundPattern` appends to.

How the finder is modelled:

- A keyboard layout is a record. It holds the map from characters to keys and
  the layout's counts.
- A key holds its upper and lower faces and its adjacency, given as two
  functions:
  - `matches(d, c)`: the character `c` is on the neighbouring key in direction `d`.
  - `isSequence(c)`: the direction, if any, in which `c` continues a run from this key.
- The finder keeps nothing but its configuration once it is built, so it is a
  value (`KeySequenceFinder`).
- The scan itself is an imperative method, `Analyze`. It updates a
  `PasswordResults` object and a shift-flag array in place. It is proved equal
  to a functional scan, `Run`, which consumes one character per `Step`. Every
  property of what the finder reports is proved about `Run`.

Behaviour of the scan that follows the code rather than intuition, and is kept:

- An unmapped character forgets the previous key. It does not close the open
  run, so a run can continue across it.
- The mapped character after an unmapped one only becomes the previous key.
  Its shift flag is never set.
- A repeated-key run is priced on the length of the whole password, not on
  the length of the run.

The collapser works on the original path. Each element is compared only with
the elements before it in the input, never with replacements already made. The
new path is built by adding each element at its front, last element first. As
a result it lines up index by index with the input.

## Model

All source paths are under `commandLine/core/src/org/owasp/passfault/`, written in full below.

| member | source | states |
|---|---|---|
| Keyboard.NewKeySequenceFinder | commandLine/core/src/org/owasp/passfault/keyboard/KeySequenceFinder.java:43-50 | the finder takes the layout's keys, key count, diagonal count and name; the 3-and-4 horizontal count is the sum of the layout's counts for sizes 3 and 4, and the 5-plus count is the rest of the horizontal total |
| Keyboard.GetUpperCaseFactor | commandLine/core/src/org/owasp/passfault/keyboard/KeySequenceFinder.java:170-183 | the loop computes the falling factorial length·(length−1)·…, with as many factors as the characters whose case is guessed: the shifted ones while they are at most half the run (half truncated as Java does), the unshifted ones otherwise |
| Keyboard.UpperCaseFactor | commandLine/core/src/org/owasp/passfault/keyboard/KeySequenceFinder.java:170-183 | the factor is the falling factorial of the length over the guessed characters, and it is at least 1 whenever the shifted count lies between 0 and the length |
| Keyboard.FallingFactorialIsFactorialQuotient | commandLine/core/src/org/owasp/passfault/keyboard/KeySequenceFinder.java:179-181 | that product is length! / (length − k)!, the number of ordered choices of k positions out of length |
| Keyboard.UpperCaseFactorBounds | commandLine/core/src/org/owasp/passfault/keyboard/KeySequenceFinder.java:172-181 | for 0 ≤ upper ≤ length, the number of guessed characters is between 0 and half the length, and the factor is at least 1 |
| Keyboard.UpperCaseFactorSymmetric | commandLine/core/src/org/owasp/passfault/keyboard/KeySequenceFinder.java:174-178 | k shifted characters and length − k shifted characters give the same factor |
| Keyboard.UpperCaseFactorValues | commandLine/core/src/org/owasp/passfault/keyboard/KeySequenceFinder.java:170-183 | no shifted character gives 1; 2 of 5 gives 5·4 = 20; 3 of 4 guesses the one lower-case character, giving 4 |
| Keyboard.WindowPattern | commandLine/core/src/org/owasp/passfault/keyboard/KeySequenceFinder.java:108-167 | the pattern of a window covers [start, start + length) with exactly that text, carries the direction's name and the layout's name, and costs the direction's base cost times 2·factor when the window has both shifted and unshifted characters, and the base cost alone otherwise |
| Keyboard.ReportPattern | commandLine/core/src/org/owasp/passfault/keyboard/KeySequenceFinder.java:108-168 | appends exactly one pattern: the window's start, length and own text, the base cost of its direction times the shift multiplier, the direction's name and the layout's name |
| Keyboard.MixedIffCount | commandLine/core/src/org/owasp/passfault/keyboard/KeySequenceFinder.java:143-156 | a window has both a shifted and an unshifted character exactly when its count of shifted characters is strictly between 0 and its length |
| Keyboard.CountTrueBounds | commandLine/core/src/org/owasp/passfault/keyboard/KeySequenceFinder.java:146-154 | the shifted count is at most the length; it is 0 exactly when no character is shifted and the length exactly when all are |
| Keyboard.InitialState | commandLine/core/src/org/owasp/passfault/keyboard/KeySequenceFinder.java:54-63 | before the loop, the previous key is that of the first character, no run is open, and only the first character can be flagged, as the upper face of its key |
| Keyboard.Step | commandLine/core/src/org/owasp/passfault/keyboard/KeySequenceFinder.java:65-74 | after character i, the previous key is that of character i, or none when it is unmapped; only flag i can change; an unmapped character, or a mapped one right after an unmapped one, changes neither the direction, the start nor the flags, and reports nothing |
| Keyboard.Advance | commandLine/core/src/org/owasp/passfault/keyboard/KeySequenceFinder.java:75-104 | a mapped character after a mapped key becomes the previous key and sets its flag to whether it is the upper face; a continuing run keeps its direction and start; otherwise the run closes without reporting, and the direction becomes the previous key's isSequence, with the start moved to i − 1 when that gives a direction |
| Keyboard.Windows | commandLine/core/src/org/owasp/passfault/keyboard/KeySequenceFinder.java:89-93 | the windows reported for one character are as many as the starts, start at consecutive positions and all end at that character |
| Keyboard.Run | commandLine/core/src/org/owasp/passfault/keyboard/KeySequenceFinder.java:54-105 | the scan keeps one shift flag per password character, and an open run always started at least two characters before the scanned prefix ends |
| Keyboard.RunTracksPrevious | commandLine/core/src/org/owasp/passfault/keyboard/KeySequenceFinder.java:64-105 | after any prefix, the previous key is the key of the last scanned character, or none when that character is unmapped |
| Keyboard.RunInvariant | commandLine/core/src/org/owasp/passfault/keyboard/KeySequenceFinder.java:62-81 | after any prefix, a character is flagged as shifted exactly when it is scanned, mapped, the upper face of its key, and either first or right after a mapped character |
| Keyboard.RunLeavesRestClear | commandLine/core/src/org/owasp/passfault/keyboard/KeySequenceFinder.java:62-63 | the shift flags of the characters not yet scanned are still clear, as the array is created |
| Keyboard.WindowPatternIsReported | commandLine/core/src/org/owasp/passfault/keyboard/KeySequenceFinder.java:108-167 | a window's pattern has its own text and the layout's name, and costs its kind's count times 2·factor when shift is mixed and times 1 otherwise |
| Keyboard.RunReportsWindows | commandLine/core/src/org/owasp/passfault/keyboard/KeySequenceFinder.java:83-167 | every reported pattern is a window of three or more characters inside the scanned prefix, with exactly the password's text at its position, named HORIZONTAL, DIAGONAL or REPEATED, priced by its kind and its shifted characters |
| Keyboard.ContinuingRunReports | commandLine/core/src/org/owasp/passfault/keyboard/KeySequenceFinder.java:83-95 | when a character continues the open run, i − startOfSequence − 1 ≥ 1 windows are reported, starting at startOfSequence, …, i − 2 and ending at i; otherwise none |
| Keyboard.StepDirection | commandLine/core/src/org/owasp/passfault/keyboard/KeySequenceFinder.java:83-103 | a continuing run keeps its direction and start; otherwise the run closes and a new one opens at i − 1 exactly when the previous key's isSequence gives a direction |
| Keyboard.UnmappedCharacterKeepsRun | commandLine/core/src/org/owasp/passfault/keyboard/KeySequenceFinder.java:67-74 | an unmapped character clears the previous key but keeps the direction and start; the next mapped character only becomes the previous key, stays unflagged, and nothing is reported |
| Keyboard.WindowCostPositive | commandLine/core/src/org/owasp/passfault/keyboard/KeySequenceFinder.java:112-157 | with positive layout counts, a window's cost is at least 1 |
| Keyboard.ReportedCostPositive | commandLine/core/src/org/owasp/passfault/keyboard/KeySequenceFinder.java:108-167 | with positive layout counts, every reported pattern costs at least 1 |
| Keyboard.AbcScenario | commandLine/core/src/org/owasp/passfault/keyboard/KeySequenceFinder.java:53-167 | on a one-row layout a→b→c, "abc" gives exactly one HORIZONTAL pattern (0, 3, "abc") priced at the 3-and-4 count |
| Keyboard.UnmappedCharacterInsideRun | commandLine/core/src/org/owasp/passfault/keyboard/KeySequenceFinder.java:67-93 | on the same layout, "ab?bc" reports the windows "ab?bc", "b?bc" and "?bc": the unmapped "?" does not end the run |
| Keyboard.ReportWindows | commandLine/core/src/org/owasp/passfault/keyboard/KeySequenceFinder.java:89-93 | appends, in order, the window [start, i] for every start from startOfSequence to i − 2 |
| Keyboard.AdvanceScan | commandLine/core/src/org/owasp/passfault/keyboard/KeySequenceFinder.java:75-103 | the flag update, the continue-or-close decision, the reports and the opening of a new run on one character are those of the scan's step |
| Keyboard.Analyze | commandLine/core/src/org/owasp/passfault/keyboard/KeySequenceFinder.java:53-106 | appends to the results exactly the patterns the scan of the whole password reports, in the same order, for every non-empty password |
| RepeatingPatternFinder.Resolve | commandLine/core/src/org/owasp/passfault/finders/RepeatingPatternFinder.java:38-54 | the element put in place of p keeps its start, length, text and classification; it has cost 1 and name DUPLICATE when some earlier element is not RANDOM and has p's name and text, and it is p unchanged otherwise |
| RepeatingPatternFinder.CollapseAt | commandLine/core/src/org/owasp/passfault/finders/RepeatingPatternFinder.java:35-55 | output element i is the DUPLICATE stand-in for input element i exactly when some earlier input element is not RANDOM and has the same name and text; otherwise it is input element i unchanged |
| RepeatingPatternFinder.Process | commandLine/core/src/org/owasp/passfault/finders/RepeatingPatternFinder.java:32-57 | the nested backward loops with the early exit build exactly the collapsed path |
| RepeatingPatternFinder.Collapse | commandLine/core/src/org/owasp/passfault/finders/RepeatingPatternFinder.java:32-57 | the new path has as many elements as the old one |
| RepeatingPatternFinder.CollapseKeepsFirst | commandLine/core/src/org/owasp/passfault/finders/RepeatingPatternFinder.java:38-47 | the first element is never replaced |
| RepeatingPatternFinder.CollapseKeepsShape | commandLine/core/src/org/owasp/passfault/finders/RepeatingPatternFinder.java:48-54 | each output element keeps its input's start, length, text and classification; its cost is 1 or unchanged; it is named DUPLICATE or is the input; a non-repeat passes through unchanged |
| RepeatingPatternFinder.CollapseKeepsTiling | commandLine/core/src/org/owasp/passfault/finders/RepeatingPatternFinder.java:48-54 | a path that covers [0, n) in order with no gap and no overlap still does after collapsing |
| RepeatingPatternFinder.CollapseComparesOriginal | commandLine/core/src/org/owasp/passfault/finders/RepeatingPatternFinder.java:38-47 | three copies of one non-RANDOM pattern give the first and two duplicates: each copy is compared with the input, not with replacements |
| RepeatingPatternFinder.CollapseLowersCost | commandLine/core/src/org/owasp/passfault/finders/RepeatingPatternFinder.java:48-54 | when every cost is at least 1, the product of the costs after collapsing is at least 1 and at most the product before |
| RepeatingPatternFinder.CollapseIdempotent | commandLine/core/src/org/owasp/passfault/finders/RepeatingPatternFinder.java:32-57 | on a path with no DUPLICATE pattern, collapsing the result a second time changes none of the modelled fields (descriptions are not modelled, see below) |
| RepeatingPatternFinder.RepeatedWordScenario | commandLine/core/src/org/owasp/passfault/finders/RepeatingPatternFinder.java:32-57 | "cat", a random "x", "cat": the second "cat" becomes a DUPLICATE of cost 1, and the total cost drops from 95,000,000 to 95,000 |

## Left out

- Pattern descriptions are not modelled, because they are human-readable text built with string formatting. This covers the description argument of every `PasswordPattern`, the " with n Upper Case letter(s)" and ", Upper Case" suffixes, and the "Duplication of an earlier pattern" text. Only the "all upper case" branch of the shift computation is affected, and it changes nothing but the description. Because of this, RepeatingPatternFinder.CollapseIdempotent holds for the modelled fields only: in the source, a second pass turns a DUPLICATE that repeats an earlier DUPLICATE into a new pattern whose description reads "Duplication of an earlier pattern: DUPLICATE".
- Keyboard.GetUpperCaseFactor does not model Java's 32-bit `int` wrap-around, because the model uses unbounded integers. The same holds for `long` overflow of the cost in Keyboard.ReportPattern and the `int` product of the key count and the password length.
- Keyboard.Analyze requires a non-empty password. On an empty password the source throws `StringIndexOutOfBoundsException` at `password.charAt(0)` (KeySequenceFinder.java:55), and that exception is not modelled.
- The Java `assert` at KeySequenceFinder.java:80 fires when a mapped character that follows a mapped key is neither face of its key. The model follows the default run-time behaviour, where assertions are disabled: the character's shift flag stays clear and the scan goes on. The `AssertionError` raised when assertions are enabled is not modelled.
- The `Key` and `KeyboardLayout` classes and the layout files are not part of this model. A key's adjacency (`match`, `isSequence`) and the layout's counts are parameters.
- The value of the random-pattern name, `RandomPattern.RANDOM_PATTERN`, is not part of the source here. The model uses "RANDOM".
- `PathCost` is not part of this model. The collapser works on a sequence of patterns, and `addPattern` is taken to add at the front of the path. The results argument of `process` only feeds the new `PathCost`, so it is dropped.
- `PasswordResults` is reduced to the password and the list of found patterns. Its other bookkeeping is not part of this model.
- The other finders, the composition of results into the cheapest path, and the concurrent drivers are not part of this model.
- Keyboard.AdvanceScan and Keyboard.ReportWindows are separate methods. In the source they are the body of the scan loop and its inner loop, inlined; the behaviour is the same.
