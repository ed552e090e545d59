# Pathfinder, modelled in Dafny

The repository's `Pathfinder` class reads a track map. The map is a ragged matrix of
one-character strings holding a single line drawn from a start glyph `@` to an end
glyph `x`. The line runs through `-`, `|` and turn glyphs `+`, and through upper-case
letters, which are stations. The class reports:

- the glyph path, every field visited in order with repeats;
- the word, each station letter once at its first visit;
- or a typed defect.

The model covers the whole class:

- **`glyphs.dfy`**: the three regular-expression classifiers, written as membership in
  fixed character sets.
- **`locator.dfy`**: the marker locator, as a function plus the source's counting loop
  proved against it.
- **`matrix.dfy`**: the neighbour step.
- **`pathfinder.dfy`**: the step recorder, the direction choice, the recursive walk and
  `findPath`. They are methods of a `Pathfinder` class whose fields they update in
  place.
- **`resolver.dfy`**: `Resolve`, the direction rule that specifies the direction choice.
- **`traversal.dfy`**: `WalkFrom` and `FindPathSpec`, the functions that specify the
  walk and `findPath`.
- **`scenarios.dfy`**: each example of `test.js`, proved as a lemma about
  `FindPathSpec`.

In `index.js`, `setDirection`, `walk` and `findPath` are unfinished drafts:

- `setDirection` uses names that are never defined.
- `walk` calls a missing `findNextPosition`.
- `findPath` only locates the start.

The model completes them as the outcomes in `test.js` require:

- **No exit:** a field with no exit other than the way back is a broken path.
- **Start with several exits:** a misplaced start.
- **Turn:** a `+` leaves on the other axis through exactly one exit. With none it is a
  fake turn; with two it is a fork.
- **Any other field:** the walk keeps its heading when the track goes on ahead.
  Otherwise it takes the single exit, and several exits are a fork.
- **End:** the walk stops at the first `x`.
- **Defects:** a defect is returned as a value instead of a partial path. A defect of
  the start marker is reported before one of the end marker, and both before any walk
  defect.

Neighbours are probed in the order the draft probes them: up, down, right, left. Here
the model departs from the draft's direction checks:

- The draft overwrites `this.currentDirection` at every probe it accepts
  (index.js:153, 164, 175, 186). Each later reverse check (index.js:160, 171, 182) is
  therefore made against the probe just accepted, not against the direction the walk
  arrived with.
- The model compares all four probes with the incoming heading, so the way back is
  never a candidate.
- The model sets the current direction only to the direction finally chosen.

`test.js` needs this change. Under the draft's checks, a `+` with track both above and
below could never be reported as the fork that test.js:257-272 expects.

## Model

| member | source | states |
|---|---|---|
| Glyphs.IsValidLetter | index.js:48 | `isValidLetter`: exactly one upper-case letter; `ValidLettersAreListed` proves it holds for the 26 strings `A`–`Z` and nothing else |
| Glyphs.IsValidGlyph | index.js:49 | `isValidGlyph`: exactly one character of `A`–`Z`, `@`, `x`, `\|`, `+`, `-`; `ValidGlyphsAreListed` proves it holds for the 31 listed glyphs and nothing else |
| Glyphs.IsValidMatrixFieldValue | index.js:50 | `isValidMatrixFieldValue`: one track character or one whitespace character; `ClassifiersNest` proves it admits every glyph and otherwise only whitespace |
| Glyphs.ValidLettersAreListed | index.js:48 | `isValidLetter` holds exactly for the 26 one-letter strings `A`–`Z` |
| Glyphs.ValidGlyphsAreListed | index.js:49 | `isValidGlyph` holds exactly for the letters and `@`, `x`, `\|`, `+`, `-` |
| Glyphs.ClassifiersNest | index.js:35-37 | every letter is a valid glyph, every valid glyph is a valid field value, and a valid field value that is not a glyph is one whitespace character |
| Glyphs.MarkersAreGlyphsNotLetters | index.js:1-8 | the five track glyphs are valid glyphs and no letters; a blank is a field value but no glyph |
| Matrix.Neighbour | index.js:102-130 | up and down change only the row, by -1 and +1; left and right change only the column, by -1 and +1 |
| Matrix.Opposite | index.js:149 | the opposite of a direction is another direction on the same axis |
| Matrix.StepThenOppositeStepReturns | index.js:102-130 | a step and a step in the opposite direction return to the starting field, and the first step reaches an adjacent field |
| Matrix.StepsAreDistinct | index.js:102-130 | two directions reach the same neighbour exactly when they are the same direction |
| Sequences.IndexOf | index.js:63 | `indexOf` gives -1 exactly when the element is absent, otherwise the first index holding it |
| Sequences.DedupMembers | test.js:63-79 | the collected word holds each letter position of the walk, and only those, each exactly once |
| Sequences.DedupKeepsFirstOccurrenceOrder | test.js:63-79 | the collected letter positions keep the order of their first visits |
| Locator.Occurrences | index.js:60-61 | a row's count of a glyph is at most the row's length, and zero exactly when the row lacks the glyph |
| Locator.SumSnoc | index.js:77-79 | summing the row counts one more row adds that row's count |
| Locator.TotalOfCounts | index.js:77-79 | the total of the glyph in the matrix is the sum of the per-row counts |
| Locator.TotalZero | index.js:83-90 | the total is zero exactly when no row holds the glyph |
| Locator.PairsOfSingle | index.js:59-63 | with a total of one, the only row-index pair pushed is the row holding the glyph and its `indexOf` |
| Locator.Locate | index.js:54-100 | succeeds exactly on a valid glyph that occurs once in the whole matrix, returning the field that holds it; an invalid glyph, zero occurrences (missing start/end) and several (multiple start/end, carrying the total count) give the source's errors |
| Locator.LocatedFieldIsUnique | index.js:81-82 | the located field is the only field of the matrix holding the glyph |
| Locator.LocateAt | index.js:54-100 | conversely, a valid glyph held by one field only is located at that field |
| Locator.FindStartAndFinishPosition | index.js:54-100 | the row-counting loop returns exactly what `Locate` specifies |
| Resolver.Resolve | index.js:142-190 | a chosen direction leads to an in-bounds field holding a track glyph and never straight back |
| Resolver.CandidatesAreExits | index.js:146-189 | the candidates are exactly the exits other than the way back, each once |
| Resolver.TurnExitsAreExits | index.js:203-205 | the exits a turn may take are exactly the exits on the other axis than the heading, each once |
| Resolver.KeepsHeading | test.js:31-46 | on a field that is neither a turn nor the start, the walk goes straight on when the track continues ahead |
| Resolver.Bends | test.js:48-61 | with no track ahead, one sideways exit is taken, two are a fork and none a broken path |
| Resolver.StraightOrBend | test.js:81-93 | off turns, the outcome is straight on, or one of the four bend verdicts, in both directions of each case |
| Resolver.BendsTo | test.js:48-61 | with no track ahead and exactly one sideways exit, the walk bends to it |
| Resolver.TurnVerdicts | test.js:311-320 | on a turn: one sideways exit is taken, two are a fork, none is a fake turn when the track goes on ahead and a broken path otherwise, each an if-and-only-if |
| Resolver.TurnsTo | test.js:16-29 | on a turn with exactly one sideways exit, the walk turns to it |
| Resolver.StartVerdicts | test.js:300-309 | on the start field, the only exit is taken, no exit is a broken path, and two or more exits are a misplaced start, each an if-and-only-if |
| Resolver.SetsOff | index.js:195-197 | on the start field with exactly one exit, the walk sets off through it |
| Traversal.Record | index.js:132-140 | what `updateVariables` does to the walk fields: the position moves to the field, and the field is appended to the path and, when it holds a letter, to the letter fields. `Pathfinder.UpdateVariables` ensures its new state is `Record` of its old state, and `ArrivedRecordsRoute` shows a whole route recorded this way |
| Traversal.WalkFrom | index.js:192-213 | the completed `walk`: it records the field, stops on an `x`, reports the rule's defect, or moves on, within a step budget. `WalkStep`, `WalkAlongRoute` and `WalkIsRoute` characterise it as walking exactly the route of the direction rule up to the first `x` |
| Traversal.WalkStep | index.js:192-213 | one step of the walk records the field and continues from the neighbour with one step less |
| Traversal.WalkAlongRoute | index.js:192-213 | along a route the walk makes exactly the route's moves, recording every field but the last |
| Traversal.WalkIsRoute | index.js:192-213 | every successful walk went along a route of the direction rule to the first end field it met, and its result records every field of that route |
| Traversal.WalkFromStartIsRoute | index.js:192-213 | a successful walk from a fresh start is a route from the start to an `x`, with path and letter fields as recorded along it |
| Traversal.ArrivedRecordsRoute | index.js:132-140 | a walk that went along a route has recorded all of its fields as the path and its letter fields as `letterCoordinates` |
| Traversal.LetterPositionsMembers | index.js:137-139 | the recorded letter positions are exactly the visited positions that hold a letter |
| Traversal.StartDefectFirst | index.js:38-39 | a start defect is reported whatever else is wrong; an end defect only when the start is unique; success needs both markers unique |
| Traversal.Collect | test.js:16-29 | the `{path, word}` result: the text of every recorded field, and the text of the letter fields once each. `ArrivedRecordsRoute`, `DedupMembers` and `DedupKeepsFirstOccurrenceOrder` show that these are the route's glyphs and its letters in first-visit order |
| Traversal.FindPathSpec | index.js:215-222 | the completed `findPath`: locate the start, then the end, then walk and collect. `StartDefectFirst`, `FindPathAlongRoute`, `FindPathStopsFollowing` and `FindPathIsRoute` characterise it in both directions |
| Traversal.FindPathAlongRoute | index.js:215-222 | a route from the located `@` to the located `x` within the step budget yields the route's glyphs and its letters once each, in first-visit order |
| Traversal.FindPathFollowing | index.js:215-222 | the same, for a walk given as its sequence of moves |
| Traversal.FindPathStopsFollowing | index.js:215-222 | a walk that reaches a field where the direction rule reports a defect makes `findPath` report that defect instead of a partial path |
| Traversal.WalkedAlongRoute | index.js:215-222 | every successful walk of `findPath` went along a route from the only `@` to the only `x` |
| Traversal.FindPathIsRoute | index.js:215-222 | every successful result of `findPath` is the path and word of such a route |
| Traversal.RouteFollowsTrack | index.js:146-189 | a route of the completed rule moves to adjacent fields holding track glyphs, never straight back, passing no `x` before its last field |
| Pathfinding.Pathfinder.constructor | index.js:33-45 | locates the start, then the end, in this matrix, with an empty walk at the start |
| Pathfinding.Pathfinder.GetNewPositionData | index.js:102-130 | the neighbouring field in the given direction, that direction, and the matrix's content there, which is absent exactly when the field is out of bounds |
| Pathfinding.Pathfinder.UpdateVariables | index.js:132-140 | moves onto the position and reads its glyph, appends it to the path, and appends it to the letter fields exactly when it holds a letter |
| Pathfinding.Pathfinder.IsTrackNeighbour | index.js:148-150 | a neighbour qualifies exactly when it is in bounds for its own row and holds a track glyph |
| Pathfinding.Pathfinder.ProbeNeighbours | index.js:146-189 | the probing collects exactly the candidate directions and the turn exits the direction rule uses |
| Pathfinding.Pathfinder.SetDirection | index.js:142-190 | the choice is the direction rule's verdict, and the chosen direction becomes the current one |
| Pathfinding.Pathfinder.Step | index.js:192-211 | one call of `walk`. It records the field: the position is set, the current glyph becomes the field's content, the path grows by it, and the letter fields grow by it when it holds a letter. It then arrives at an `x`, stops with the rule's defect with the heading unchanged, or continues to the neighbour in the newly chosen direction. Each outcome is the one the walk function gives |
| Pathfinding.Pathfinder.Walk | index.js:192-213 | the recursive walk succeeds exactly when the walk function does, leaving its walker in the fields, and otherwise reports the same defect; either way the current glyph is the content of the last field recorded |
| Pathfinding.Pathfinder.FindPath | index.js:215-222 | `findPath` on a fresh Pathfinder returns exactly `FindPathSpec` of its matrix |
| Scenarios.BasicExample | test.js:16-29 | "Basic example" yields word `ACB` and path `@---A---+\|C\|+---+\|+-B-x` |
| Scenarios.IntersectionsExample | test.js:31-46 | "Go straight through intersections" yields `ABCD` and its path |
| Scenarios.LettersOnTurnsExample | test.js:48-61 | "Glyphs may be found on turns" yields `ACB` and its path |
| Scenarios.RepeatedLettersExample | test.js:63-79 | "Do not collect a letter from the same location twice" yields `GOONIES` and its path |
| Scenarios.CompactExample | test.js:81-93 | "Keep direction, even in a compact space" yields `BLAH` and its path |
| Scenarios.AfterEndExample | test.js:95-106 | "Ignore stuff after end of path" yields `AB` and `@-A--+\|+-B--x` |
| Scenarios.IllegalGlyphExample | test.js:108-120 | "Illegal glyphs in the matrix" is an error (a broken path) |
| Scenarios.MissingStartExample | test.js:122-134 | "Missing start glyph" reports the missing start |
| Scenarios.MissingEndExample | test.js:136-148 | "Missing end glyph" reports the missing end |
| Scenarios.MultipleStartsExample | test.js:150-163 | "Multiple start glyphs" reports multiple starts, count 2 |
| Scenarios.MultipleEndsExample | test.js:165-178 | "Multiple end glyphs" reports multiple ends, count 2 |
| Scenarios.BrokenMultipleStartsExample | test.js:180-193 | "Broken path with multiple start glyphs" reports multiple starts, count 2 |
| Scenarios.BrokenTrackExample | test.js:195-208 | "Broken path" reports a broken path |
| Scenarios.DoubleEverythingExample | test.js:210-223 | "Double paths, double everything" reports multiple starts, count 2 |
| Scenarios.DoublePathExample | test.js:225-238 | "Double paths, single start and end glyph" reports a broken path |
| Scenarios.ForkTwoEndsExample | test.js:240-255 | "Fork and two end glyphs" reports multiple ends, count 2 |
| Scenarios.OpenForkExample | test.js:257-272 | "Fork and open ended second path" reports a fork |
| Scenarios.BrokenGapExample | test.js:274-286 | the second "Broken path" reports a broken path |
| Scenarios.MiddleStartTwoEndsExample | test.js:288-297 | "Start glyph in the middle and two end glyphs" reports multiple ends, count 2 |
| Scenarios.MiddleStartExample | test.js:300-309 | "Start glyph in the middle" reports a misplaced start |
| Scenarios.StraightTurnExample | test.js:311-320 | "Fake turn" reports a fake turn |

## Left out

- Console output (index.js:195-209, 219-220) and the module-level sample run (index.js:225-237) are I/O and are not modelled.
- Error messages are not modelled (index.js:18-30). Each message is a `Glitch` constructor, which keeps the count or glyph the message carries.
- The regular-expression engine is not modelled. Each classifier is membership in its fixed character set, with `\s` written out as the characters JavaScript counts as whitespace.
- `compareArrays` (index.js:51) is never called and is not modelled.
- The in-row branch `rowResult > 1` (index.js:64-72) is not modelled. It compares an array of glyph strings with a number, which is never true, so only the total-count decision (index.js:77-99) is live.
- The draft's `try`/`catch` in `findPath` logs a caught error and returns `undefined` (index.js:219-221). `test.js` expects the error itself to be returned. The model does that as part of completing `findPath`: a thrown `Error` becomes `Err` with the matching `Glitch`.
- Pathfinding.Pathfinder.constructor: the source constructor throws when a marker cannot be located. The model keeps the locator's `Result` in the `startPosition` and `endPosition` fields instead, and `FindPath` reports it, which is how the tests observe these defects.
- Pathfinding.Pathfinder.Walk: the recursion is bounded by a step budget of four steps per field of the matrix, because the direction rule depends only on the field and the heading. A walk that reaches its first `x` therefore repeats no pair of field and heading, and so stays within that budget. This argument is not proved in the model. `FindPathAlongRoute` and `FindPathFollowing` keep the budget as a precondition, and the examples discharge it. A walk that exhausts the budget is reported as a broken path. In the source, a walk caught in a cycle recurses until the JavaScript call stack overflows. The resulting `RangeError` would be caught by the `try` in `findPath` (index.js:216-221). A long but finite track can also overflow the source's stack where the model's walk succeeds; the model does not capture the stack limit.
- Pathfinding.Pathfinder.GetNewPositionData: the source reads the neighbour's glyph through `this.position`, which is never assigned and would throw. The model reads it at `currentPosition`, as the returned position does. A field outside the matrix is `None`, where JavaScript yields `undefined` or throws on a missing row.
- Pathfinding.Pathfinder.UpdateVariables requires the row to be inside the matrix, where the source would throw on a missing row. Every position the walk passes is in bounds.
- Pathfinding.Pathfinder.SetDirection: the draft's undefined names (`getGlyph`, `position`, `matrix`, `direction`) are read as the current position, the matrix and the direction constants. A non-turn field with several exits and none straight ahead, which no test reaches, is reported as a fork. The model also departs from the draft's reverse checks, which compare against the probe just accepted rather than the incoming heading. The model compares every probe with the incoming heading and sets only the chosen direction (see above).
- Scenarios.IllegalGlyphExample: the test only expects some error. The model's error is a broken path, because the walk stops at the field before the illegal glyph, where no valid track continues.
- The word is the letters of the visited letter positions, each position once at its first visit. The source stops before building it, and `test.js:63-79` fixes its meaning.
