# Story points calculator, modelled in Dafny

A model of the story-points helper in `src/lib/storyPointsCalculator.ts`.
The helper has three parts:

- The option tables a user picks from. There are five time brackets; the last asks for a custom number of days and carries the sentinel value -1. There are three complexity levels and three definition levels, each with a multiplier and a traffic-light colour.
- `calculateStoryPoints`. It multiplies the time estimate by the two multipliers and snaps the product to the nearest half point with `Math.round(x * 2) / 2`.
- `validateInputs`. It checks that every tier was selected and, when the custom time bracket is in use, that the custom number of days is greater than 3. It answers with an ordered list of messages and a validity flag.

Files:

- `wrappers.dfy`: the `Option` type.
- `option_tables.dfy` (module `OptionTables`): the three tables as constant sequences, plus lemmas about their shape.
- `story_points.dfy` (module `StoryPoints`): `Math.round`, the half-point rounding and `calculateStoryPoints`, plus lemmas saying what the rounding is.
- `validation.dfy` (module `Validation`): `validateInputs` as a method.
  - The source builds its error list by appending to a local array, and the method does the same with a local sequence.
  - The method is proved equal to a declarative specification, `Reported`. It is the fixed check order (`CheckOrder`), filtered by a condition that each check states on its own (`Violated`).
  - The time checks are mutually exclusive conditions in this specification. In the source they form an if/else-if chain.

Numbers are exact `real`s. `Math.round(x)` is `Floor(x + 1/2)`, so an exact half rounds toward +infinity. An omitted or `null` `customTimeValue` is `None`. An omitted `requiresCustomTime` is `false`, the way the source's `if (requiresCustomTime)` treats `undefined`. The source's `!customTimeValue || customTimeValue <= 0` is kept as written, with JavaScript truthiness: `undefined`, `null` and `0` are falsy.

## Model

| member | source | states |
|---|---|---|
| `StoryPoints.MathRound` | src/lib/storyPointsCalculator.ts:56 | `Math.round` gives an integer in `(x - 1/2, x + 1/2]`, so halves go up |
| `StoryPoints.RoundToHalf` | src/lib/storyPointsCalculator.ts:56 | the rounded value is a multiple of 0.5 and lies in `(x - 0.25, x + 0.25]` |
| `StoryPoints.CalculateStoryPoints` | src/lib/storyPointsCalculator.ts:50-65 | echoes the three inputs, `result` is their product, `rounded` is a multiple of 0.5 with `result - 0.25 < rounded <= result + 0.25` |
| `StoryPoints.RoundToHalfUnique` | src/lib/storyPointsCalculator.ts:56 | any multiple of 0.5 in `(x - 0.25, x + 0.25]` is the rounded value, so the window fixes the result |
| `StoryPoints.RoundToHalfNearest` | src/lib/storyPointsCalculator.ts:56 | no multiple of 0.5 is closer to `x` than the rounded value, and an equally close one is smaller (ties go up) |
| `StoryPoints.RoundToHalfFixesHalfSteps` | src/lib/storyPointsCalculator.ts:56 | rounding leaves `x` unchanged if and only if `x` is already a multiple of 0.5 |
| `StoryPoints.RoundToHalfIdempotent` | src/lib/storyPointsCalculator.ts:56 | rounding an already rounded value changes nothing |
| `StoryPoints.RoundToHalfTiesUp` | src/lib/storyPointsCalculator.ts:56 | a value 0.25 above a multiple of 0.5 (an exact tie) is rounded up by 0.25 |
| `StoryPoints.RoundToHalfMonotone` | src/lib/storyPointsCalculator.ts:56 | rounding preserves the order of two values |
| `StoryPoints.FloorUnique` | src/lib/storyPointsCalculator.ts:56 | proof helper for `RoundToHalfUnique`, a fact about `Floor`: the integer `k` with `k <= y < k + 1` is the floor of `y` |
| `StoryPoints.CalculateStoryPointsExamples` | src/lib/storyPointsCalculator.test.ts:12-49 | the products and rounded values the tests expect: 3.75 to 4, 5 to 5, 1.1 to 1, 1.3 to 1.5, 1.7 to 1.5, 1.8 to 2, 0.5 to 0.5, 15 to 15 |
| `OptionTables.TimeOptionsShape` | src/lib/storyPointsCalculator.ts:22-28 | five time brackets; the first is 0.5; only index 4 asks for custom input, with value -1; the four fixed brackets lie in `(0, 3]` |
| `OptionTables.ComplexityOptionsShape` | src/lib/storyPointsCalculator.ts:30-34 | ordinals 1 to 3, multipliers exactly `[1.0, 1.5, 2.0]`, all at least 1 and non-decreasing; colours exactly green, yellow, red |
| `OptionTables.DefinitionOptionsShape` | src/lib/storyPointsCalculator.ts:36-40 | ordinals 1 to 3, multipliers exactly `[1.0, 1.25, 1.5]`, all at least 1 and non-decreasing; colours exactly green, yellow, red |
| `Validation.ValidateInputs` | src/lib/storyPointsCalculator.ts:67-93 | the list the method builds equals the declarative `Reported` list; `isValid` holds exactly when the selection is acceptable, and exactly when the list is empty |
| `Validation.Reported` | src/lib/storyPointsCalculator.ts:74-87 | each message is reported if and only if its own check fails (so the complexity and definition messages appear exactly when those flags are false); every entry is the message of a failed check; entries follow the fixed check order strictly, so none repeats and time comes before complexity, which comes before definition; at most three are reported |
| `Validation.Rank` | src/lib/storyPointsCalculator.ts:76-87 | a check's rank is its position in the fixed reporting order `CheckOrder`, from which it is computed |
| `Validation.ViolatedChecks` | src/lib/storyPointsCalculator.ts:76-87 | filtering the checks never lengthens the list |
| `Validation.ViolatedChecksMembers` | src/lib/storyPointsCalculator.ts:76-87 | a check is reported exactly when it is among the checks run and is violated |
| `Validation.ViolatedChecksOrdered` | src/lib/storyPointsCalculator.ts:76-87 | filtering keeps the checks in their order |
| `Validation.FailedChecksUnfold` | src/lib/storyPointsCalculator.ts:76-87 | the failed checks are the violated time checks, then complexity, then definition |
| `Validation.ReportedUnfold` | src/lib/storyPointsCalculator.ts:76-87 | the reported messages are, in this order, the first violated time message if any, then the complexity message, then the definition message |
| `Validation.AcceptableIffNoFailures` | src/lib/storyPointsCalculator.ts:89-92 | no message is reported if and only if all three tiers are selected and, when custom time is required, the custom value is present and above 3 |
| `Validation.MessageInjective` | src/lib/storyPointsCalculator.ts:77-87 | proof helper for `Reported`: the five message strings are pairwise distinct, so a message identifies its check |
| `Validation.FailedChecksAtMostThree` | src/lib/storyPointsCalculator.ts:76-87 | at most three checks fail, since the three time checks exclude each other |
| `Validation.TimeCheckOnlyFirst` | src/lib/storyPointsCalculator.ts:76-84 | the time checks are mutually exclusive: only the first failed check can be about time |
| `Validation.TimeMessageTable` | src/lib/storyPointsCalculator.ts:76-84 | see "The time message" below |
| `Validation.PredefinedTimeRejectedAsCustom` | src/lib/storyPointsCalculator.ts:79-83 | entering one of the four fixed time brackets (`timeOptions`, lines 22-28) as a custom time gives exactly the "use the predefined options" message |

The time message (`Validation.TimeMessageTable`):

- When time is not selected, the "select a time" message comes first, whatever the custom value is.
- When time is selected and custom time is required, the custom value decides the message:
  - absent or at most 0: the "valid time greater than 0" message;
  - in `(0, 3]`: the "use the predefined options" message;
  - above 3: no time message.
- When time is selected and no custom time is required, there is no time message. If the complexity and definition flags are also true, the list is empty.

`Validation.AllSelectedExample`, `Validation.NothingSelectedExample`, `Validation.ComplexityMissingExample` and `Validation.CustomTimeExamples` are clients of `ValidateInputs`. They replay the calls of `src/lib/storyPointsCalculator.test.ts:53-76` and `:112-128` using the method's contract.

## Left out

- IEEE-754 doubles: no representation error (1.1 and 1.3 are exact here), no NaN and no infinities. JavaScript's `!customTimeValue` also treats NaN as missing, and that case has no counterpart in `real`.
- Table labels and descriptions are kept as plain strings, and nothing is proved about them. The field `label` is named `displayLabel`, because `label` is a Dafny keyword.
- Callers that map a selection in the tables to the numbers passed to `calculateStoryPoints` are not part of this model.
- The vitest harness is not modelled. Its expected values appear as `CalculateStoryPointsExamples` and the four validation example methods.
