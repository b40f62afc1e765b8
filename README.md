# Carlitos: a Dafny model of the app's page logic

Carlitos is a gamified personal-finance web app. Each page's script keeps a
small in-memory state and updates it from button handlers. This project
models that state and those handlers. It proves what each handler does to
the state and what the derived figures (totals, bars, badges, rewards)
always satisfy.

Modules:

- `Builtins` holds the JavaScript built-ins the logic relies on:
  - `Math.round` over exact reals;
  - the truncating `%`;
  - `String.prototype.trim` with the ECMAScript white-space set;
  - `toUpperCase` on ASCII letters.
- `Ledger` is the dashboard's `STATE` (dashboard.js): movements, goals, XP and coins. It covers:
  - quick-add and its rewards;
  - the goal form;
  - delete-by-id;
  - the summary totals;
  - goal progress.
- `Csv` is `toCSV` (dashboard.js). It is a loop specified by `CsvText`, and
  `CsvText` is tied to an independent CSV reader by a round-trip lemma.
- `Savings` covers the future-value simulator, the `monthsToReachTarget`
  loop and the million simulator (dashboard.js). The closed-form annuity is
  proved equal to month-by-month compounding.
- `Shade` is `shadeColor` (aprender.js): reading hex channels and shading
  them towards black or white.
- `Learn` is the learning map (aprender.js). It covers:
  - the per-category progress dictionary and its key order;
  - seeding the dictionary on first visit;
  - "complete section";
  - the quick challenge;
  - the demo generator;
  - the difficulty filter and the links drawn between nodes;
  - the monthly XP bar.
- `Levels` is the twelve-level ladder (firebase-config.js). It covers:
  - `initLevels` and `completeLevel`;
  - the demo, unlock-all, reset and start-first-lesson buttons;
  - the header's XP target, badge and bar;
  - the mentor's advice.
- `Onboarding` is the mentor questionnaire (preguntas-mentor.js): a cursor
  over seven questions plus an answers dictionary. It covers:
  - resuming on load;
  - the back and next buttons and the Enter key;
  - option and mentor picks;
  - the progress bar and the summary rows.

Some inputs come from outside the logic: random draws, `uid()`, the current
date, what `confirm`/`prompt` return, and whether an option button is
currently marked selected. These are parameters of the operations.

## Model

| member | source | states |
|---|---|---|
| Builtins.Round | dashboard.js:311-312 | Math.round gives the integer n with n - 0.5 <= x < n + 0.5 (halves round up) |
| Builtins.JsRem | aprender.js:83 | the remainder takes the sign of the dividend, lies strictly inside (-b, b), and agrees with the mathematical remainder for a non-negative dividend |
| Builtins.TrimFacts | preguntas-mentor.js:219 | trim returns a slice whose cut-off ends are all white space and which neither starts nor ends with white space; it is empty exactly when the input is all white space |
| Builtins.TrimCut | preguntas-mentor.js:219 | trim cuts white space off both ends and keeps a middle slice that neither starts nor ends with white space |
| Builtins.Trim | preguntas-mentor.js:219 | defines trim as cutting leading then trailing white space; see TrimFacts and TrimCut |
| Builtins.UpperMatches | firebase-config.js:337 | toUpperCase of s equals an upper-case ASCII word exactly when s spells that word letter by letter in either case |
| Builtins.ToUpper | firebase-config.js:337 | upper-casing keeps the length and maps each character on its own, ASCII a-z to A-Z and every other character to itself |
| Ledger.XpReward | dashboard.js:311 | the quick-add XP reward lies in 0..10; it is 10 exactly when abs(amount) >= 95 and 0 exactly when abs(amount) < 5 |
| Ledger.CoinReward | dashboard.js:312 | the quick-add coin reward lies in 0..5; it is 5 exactly when abs(amount) >= 90 and 0 exactly when abs(amount) < 10 |
| Ledger.QuickCategory | dashboard.js:296 | the stored category is never blank: the typed one when there is one, otherwise 'Varios' for income and 'Gastos Varios' for any other kind |
| Ledger.RemoveId | dashboard.js:407 | filtering by id keeps exactly the records whose id differs |
| Ledger.RemoveIdFacts | dashboard.js:407 | delete-by-id (the same filter serves movements and goals) keeps the other records as a subsequence in their original order, each as often as before; it drops every record with the id; the length falls by their count |
| Ledger.RemoveIdKeepsOrder | dashboard.js:678 | the filtered list is a subsequence of the original, so the kept records stay in order |
| Ledger.RemoveIdMultiplicity | dashboard.js:407 | a record whose id differs occurs as often as before, and a record with the id does not occur |
| Ledger.RemoveIdLength | dashboard.js:407 | the filtered list is shorter by the number of records with the id |
| Ledger.KindTotal | dashboard.js:825-826 | defines the sum of the amounts of one kind; see BalanceIsSignedSum and GoalProgressCountsIncomeOnly |
| Ledger.SummaryOf | dashboard.js:825-827 | defines the income, expense and balance totals; see BalanceIsSignedSum |
| Ledger.BalanceIsSignedSum | dashboard.js:825-827 | the displayed balance (income total minus expense total) is the sum of the movements' signed amounts |
| Ledger.GoalProgress | dashboard.js:686-692 | defines goal progress as income over the target (0 read as 1), capped at 1; see GoalProgressFacts |
| Ledger.GoalProgressFacts | dashboard.js:686-692 | goal progress never exceeds 1. For a positive target it is 1 exactly when income reaches the target, and it is not negative when income is not. A zero target is read as 1 |
| Ledger.GoalProgressCountsIncomeOnly | dashboard.js:688-690 | only 'ingreso' amounts are summed: a movement of another kind leaves progress unchanged, and an income adds its amount |
| Ledger.Dashboard.constructor | dashboard.js:181-190 | the state holds the loaded movements, goals, XP and coins (the fields of STATE) |
| Ledger.Dashboard.QuickAdd | dashboard.js:293-312 | a zero or blank amount changes nothing. Otherwise exactly one movement is put in front, with the default category by kind. XP grows by the XP reward (0..10) and coins by the coin reward (0..5). The balance moves by the new movement's signed amount and the goals are untouched |
| Ledger.Dashboard.AddGoal | dashboard.js:629-640 | a goal is appended exactly when the trimmed title is non-blank and the target positive. The type defaults to 'ahorro' and nothing else changes |
| Ledger.Dashboard.DeleteMovement | dashboard.js:404-408 | the movements become the filtered list, no movement with the id remains, and the rest of the state is unchanged |
| Ledger.Dashboard.DeleteGoal | dashboard.js:675-679 | the goals become the filtered list, no goal with the id remains, and the rest of the state is unchanged |
| Csv.ToCSV | dashboard.js:427-435 | the loop's output is CsvText, which is the empty string exactly for an empty list |
| Csv.Cells | dashboard.js:432 | each movement gives five cells, fecha, tipo, monto, categoria and nota; see FalsyCellsEmpty |
| Csv.Escape | dashboard.js:432 | doubling the quotes never shortens a text; see ReadQuotedEscape for its inverse |
| Csv.CsvText | dashboard.js:427-435 | defines the export text: empty for no movements, otherwise the header and row lines joined by newlines; see DecodeCsvText |
| Csv.JoinStartsWithFirst | dashboard.js:434 | a joined text starts with its first part, so a non-empty export starts with the header line |
| Csv.ReadQuotedEscape | dashboard.js:432 | reading a quoted field gives back exactly the text whose quotes were doubled |
| Csv.ReadFieldQuote | dashboard.js:432 | a quoted cell reads back as its text when no quote follows it |
| Csv.ReadRecordLine | dashboard.js:432 | reading a line of quoted, comma-joined cells gives back the cells |
| Csv.ReadRecordsLines | dashboard.js:431-434 | reading the newline-joined row lines gives one record per movement, in input order |
| Csv.ReadRecordsQuoted | dashboard.js:431-434 | lines of quoted, comma-joined cells, joined by newlines, read back as the rows |
| Csv.DecodeCsvText | dashboard.js:427-435 | reading an export back gives exactly one row per movement in input order, each holding the five quoted cell texts; the header line is checked and skipped |
| Csv.FalsyCellsEmpty | dashboard.js:432 | a zero amount and an empty category or note are written as "" |
| Savings.FutureValueMonthly | dashboard.js:602-607 | with a zero annual rate the future value is monthly × years × 12 |
| Savings.Balance | dashboard.js:613-614 | defines the balance after k months of bal = bal × (1 + r) + monthly from 0; see BalanceClosedForm |
| Savings.BalanceClosedForm | dashboard.js:602-618 | after n months of compounding the balance is monthly × ((1+r)^n − 1)/r, or monthly × n at r = 0 |
| Savings.BalanceWithoutInterest | dashboard.js:605 | at rate 0 the balance after n months is monthly × n |
| Savings.BalanceWithInterest | dashboard.js:606 | at a non-zero rate the balance after n months is monthly × ((1+r)^n − 1)/r |
| Savings.BalanceTimesRate | dashboard.js:613-614 | r × balance after n months equals monthly × ((1+r)^n − 1) |
| Savings.AnnuityStep | dashboard.js:614 | one month of compounding takes the closed form for n − 1 months to the form for n months |
| Savings.FutureValueIsCompounding | dashboard.js:602-618 | futureValueMonthly equals the balance that monthsToReachTarget's loop reaches after years × 12 months |
| Savings.BalanceGrows | dashboard.js:613-614 | with a non-negative contribution and rate, each month adds at least the contribution to a balance that is never negative |
| Savings.BalanceLinear | dashboard.js:613-614 | the balance is proportional to the monthly contribution |
| Savings.FutureValueIncreasing | dashboard.js:602-607 | for a positive rate and contribution, the future value grows strictly with the years and with the contribution |
| Savings.MonthsNeededFacts | dashboard.js:609-618 | the month count never exceeds 12000. A count below 12000 has reached the target, and no earlier month reaches it |
| Savings.MonthsNeeded | dashboard.js:609-618 | defines the month count monthsToReachTarget returns; see MonthsNeededFacts |
| Savings.MonthsNeededNonPositiveTarget | dashboard.js:613 | a target <= 0 gives 0 months |
| Savings.MonthsNeededSaturates | dashboard.js:612-617 | no contribution and no interest with a positive target give exactly 12000 |
| Savings.BalanceMonotoneInMonthly | dashboard.js:614 | a larger contribution never gives a smaller balance (for a rate >= -1) |
| Savings.BalanceMonotoneInRate | dashboard.js:614 | a larger non-negative rate never gives a smaller balance for a non-negative contribution |
| Savings.MonthsNeededMonotone | dashboard.js:609-618 | a larger contribution (at a rate >= -1) never needs more months, and neither does a larger rate (for a non-negative contribution and rate) |
| Savings.MonthsToReachTarget | dashboard.js:609-618 | the loop returns MonthsNeeded for the monthly rate: at most 12000, target reached below 12000, not reached before |
| Savings.MillionSimulator | dashboard.js:585-596 | refuses exactly when the contribution is 0 or the rate is not positive. Otherwise the months are those needed to reach 1,000,000, and years × 12 + rem = months with 0 <= rem < 12 |
| Shade.HexDigit | aprender.js:204 | a hexadecimal digit's value lies in 0..15 |
| Shade.ParseChannel | aprender.js:204 | parseInt(_, 16) of a channel substring is NaN or a value in 0..255 |
| Shade.Substring | aprender.js:204 | substring(a, b) is at most b - a characters long |
| Shade.ShadeChannelFacts | aprender.js:203-207 | a negative percent moves a channel towards 0 and a non-negative one towards 255. 0% keeps it, -100% gives 0 and 100% gives 255. For abs(percent) <= 100 the result stays in 0..255 |
| Shade.ShadeChannel | aprender.js:205-207 | defines one channel's Math.round((t - c) × p) + c; see ShadeChannelFacts |
| Shade.ShadeDown | aprender.js:203-207 | for -100 <= percent < 0 the channel ends in 0..c, and at -100 it is 0 |
| Shade.ShadeUp | aprender.js:203-207 | for 0 <= percent <= 100 the channel ends in c..255; it is unchanged at 0% and 255 at 100% |
| Shade.MoveWithin | aprender.js:205-207 | moving a rounded fraction of a distance stays between 0 and that distance, and is all of it at 100% and none at 0% |
| Shade.ParseHexPair | aprender.js:204 | parsing two written hexadecimal digits gives the channel back |
| Shade.ShadeWellFormed | aprender.js:202-208 | on a '#RRGGBB' colour each channel is read and shaded, 0% returns the input channels, and the outputs stay in 0..255 for abs(percent) <= 100 |
| Shade.ShadeColor | aprender.js:202-208 | defines the three shaded channels of a colour; see ShadeWellFormed |
| Learn.CategoryIdsDistinct | aprender.js:35-44 | there are eight categories with distinct ids, in map order |
| Learn.FreshProgress | aprender.js:67-73 | seeding an empty map gives the first category 20% and completed, the first two unlocked, the rest locked at 0; the keys are in category order |
| Learn.EntryOr | aprender.js:247 | defines the stored entry or, when missing, a fresh unlocked one at 0%; see LearnMap.CompleteSection |
| Learn.Advance | aprender.js:246-250 | the percentage becomes min(100, pct + 40) above 60% and min(100, pct + 30) otherwise, so it never exceeds 100 and never falls from at most 100. Completed becomes true exactly on reaching 100 and is never cleared. Unlocked is unchanged |
| Learn.AdvanceCompletesInFour | aprender.js:246-250 | four completions finish any entry whose percentage is not negative; a fresh entry needs all four |
| Learn.Bump | aprender.js:396-397 | the percentage becomes min(100, pct + 25); completed becomes true exactly on reaching 100 and is never cleared; unlocked is unchanged |
| Learn.FirstUnlocked | aprender.js:395 | the position of the first unlocked key in insertion order: all earlier keys are locked, and it is the key count when there is none |
| Learn.Insert | aprender.js:250 | assigning a key adds it at the end of the key order unless it is already present, keeping the keys distinct |
| Learn.InsertAll | aprender.js:385-387 | assigning several keys keeps the old order as a prefix and adds exactly those keys |
| Learn.MonthlyBar | aprender.js:83 | the monthly bar lies in [0, 100) for non-negative XP (and in (-100, 0] for negative XP, as % keeps the sign) |
| Learn.MonthlyBarCycle | aprender.js:83 | the bar starts over every 800 XP, and within a cycle each 8 XP add one point |
| Learn.PlacedFrom | aprender.js:105-106 | the categories placed from index k on are exactly those shown by the filter, in increasing order |
| Learn.Placed | aprender.js:105-106 | buildMap places exactly the categories whose difficulty equals the filter, or all of them for 'all', in map order |
| Learn.PlacedFromAll | aprender.js:106 | from index k the 'all' filter places every remaining category in order |
| Learn.PlacedAll | aprender.js:106 | 'all' places all eight categories in order |
| Learn.PlacedBeginner | aprender.js:106 | 'beginner' places the first three categories |
| Learn.PlacedMed | aprender.js:106 | 'med' places categories 4-6 |
| Learn.PlacedAdv | aprender.js:106 | 'adv' places the last two categories |
| Learn.PlacedOther | aprender.js:106 | any other filter places nothing |
| Learn.NodeAt | aprender.js:116-118 | a node is locked unless its entry exists and is unlocked, and it is completed only when its entry says so |
| Learn.MapNodes | aprender.js:101-131 | the nodes are exactly the categories the filter shows (every node is shown, every shown category has a node), in strictly increasing category order; a node is locked exactly when its entry is missing or not unlocked, and completed exactly when its entry exists and is completed |
| Learn.Connections | aprender.js:168-175 | n placed nodes get n−1 sequential links (i, i+1), plus link 1-4 when n >= 5 and 2-6 when n >= 7, all between placed nodes |
| Learn.LearnMap.constructor | aprender.js:67-73 | an empty stored map is replaced by the fresh one; a non-empty one is kept with its key order |
| Learn.LearnMap.CompleteSection | aprender.js:246-258 | the entry (created unlocked if missing) is advanced and nothing else in the map changes. The coins grow by 25 and the XP by 75, plus a star whenever the entry is completed afterwards |
| Learn.LearnMap.QuickChallenge | aprender.js:394-399 | the first unlocked key in insertion order is bumped by 25. With none unlocked, or when that key is the falsy "", nothing changes; counters untouched |
| Learn.LearnMap.SetEntry | aprender.js:386 | the entry is replaced and a new key goes to the end of the order; nothing else changes |
| Learn.LearnMap.Demo | aprender.js:383-388 | unconfirmed, nothing changes. Confirmed, the loop writes every category's drawn entry, unlocked; the key order gains the category ids and the counters are untouched |
| Learn.DemoFillFacts | aprender.js:385-387 | after writes over distinct ids, each written id holds its drawn entry, every other key keeps its entry, and no key is lost |
| Learn.DemoFacts | aprender.js:385-387 | after the demo every category holds (draw, flag, unlocked), every other key is unchanged, and no key is lost |
| Learn.DemoStep | aprender.js:385-387 | the demo's key order after i + 1 writes is the order after i writes with the next category id inserted |
| Learn.FreshQuickTarget | aprender.js:394-397 | on a fresh map the quick challenge works on the first category (a non-empty key) and leaves it at 45 and completed; exactly the first two categories are unlocked |
| Learn.StepsKeepAchievements | aprender.js:248-249 | neither step (nor the quick challenge's) clears completed or unlocked, and neither lowers a percentage of at most 100 |
| Levels.InitLevels | firebase-config.js:70-77 | the loop builds 12 levels with ids 1..12: only level 1 is unlocked, and every level has best score 0 and 0 tries |
| Levels.FreshIsLadder | firebase-config.js:70-77 | the fresh ladder has an open first level and no locked level before an open one |
| Levels.FindIndex | firebase-config.js:185 | findIndex returns the first position holding the id, or the length when there is none |
| Levels.Open | firebase-config.js:191 | unlocking affects only a locked level's status |
| Levels.CompleteAt | firebase-config.js:186-191 | the level becomes completed, its best score never decreases and takes the draw if higher, and its tries grow by 1. The next level is unlocked only if it was locked, and every other level is untouched |
| Levels.CompleteKeepsLadder | firebase-config.js:184-191 | completing an open level keeps the ladder shape |
| Levels.SimulateOnlyOpens | firebase-config.js:313-316 | the demo changes only statuses, never locks a level, and leaves levels past the current step alone |
| Levels.SimStep | firebase-config.js:314-315 | one demo step keeps the ladder's length; see SimulateOnlyOpens |
| Levels.SimulateUpTo | firebase-config.js:313-316 | the first k demo steps keep the ladder's length; see SimulateKeepsLadder |
| Levels.SimulateKeepsLadder | firebase-config.js:313-316 | after k demo steps on a ladder the first k levels are completed and level k+1 is open, and the shape is kept |
| Levels.SimulateFresh | firebase-config.js:313-316 | from the fresh ladder the demo leaves levels 1-3 completed, level 4 unlocked and the rest locked |
| Levels.NextTarget | firebase-config.js:100 | the next target is 100, 350, 800 or 1500. It lies above the XP below 800 and is 1500 from 800 on |
| Levels.BandsAgree | firebase-config.js:100-104 | the badge and the target come from the same bands (Novato–100, Aprendiz–350, Estratega–800, Maestro–1500), and the target only grows with XP |
| Levels.Badge | firebase-config.js:104 | defines the badge bands; see BandsAgree |
| Levels.XpBar | firebase-config.js:100-101 | the bar is at most 100 and not negative for non-negative XP; it is full exactly when XP reaches 99.5% of the target |
| Levels.FullBar | firebase-config.js:101 | the rounded percentage reaches 100 exactly when 200 × xp >= 199 × target |
| Levels.AdviceFollowsXp | firebase-config.js:349-355 | more XP never gives earlier advice, no XP gives "start lesson 1", and the advice tiers line up with the badge bands |
| Levels.MentorAdvice | firebase-config.js:349-355 | defines the advice tiers by XP; see AdviceFollowsXp |
| Levels.ResetAnswer | firebase-config.js:337 | the reset prompt is accepted exactly for answers that spell CONFIRMAR in either case |
| Levels.Ladder.constructor | firebase-config.js:62-67 | a missing stored ladder is replaced by the fresh one |
| Levels.Ladder.CompleteLevel | firebase-config.js:184-195 | an unknown id changes nothing. Otherwise the ladder becomes CompleteAt at the found index, with +120 XP and +20 coins |
| Levels.Ladder.Simulate | firebase-config.js:311-319 | the loop over the first min(3, n) levels gives SimulateUpTo, with +300 XP and +50 coins |
| Levels.Ladder.UnlockAll | firebase-config.js:327-330 | once confirmed, every level is set to unlocked, completed ones included; unconfirmed, nothing changes |
| Levels.Ladder.Reset | firebase-config.js:335-342 | reset happens exactly when the answer upper-cases to CONFIRMAR. It restores the fresh ladder and the default profile (Explorador, 0 XP, 0 coins); otherwise nothing changes |
| Levels.Ladder.StartFirstLesson | firebase-config.js:364-368 | a locked first level is unlocked, and nothing else changes; on a ladder nothing changes at all |
| Levels.UnlockAllIsLadder | firebase-config.js:327-330 | an all-unlocked ladder has the ladder shape |
| Onboarding.QuestionTable | preguntas-mentor.js:16-32 | seven questions with distinct ids q1..q7, the first typed and the rest options, and four mentors |
| Onboarding.FirstUnanswered | preguntas-mentor.js:328-329 | the first question without a truthy answer, or 7 when every question has one |
| Onboarding.AllAnsweredMeansSevenKeys | preguntas-mentor.js:322-330 | when every question has a truthy answer there are at least seven keys, so the resume clamp to the last question never takes effect |
| Onboarding.ProgressPercent | preguntas-mentor.js:130 | on a question page the bar is the integer within half a point of idx × 100 / 7 (halves up), so it lies in 0..86; it is 100 exactly on the summary |
| Onboarding.ProgressIncreases | preguntas-mentor.js:130 | the bar grows strictly with every step forward |
| Onboarding.SummaryValue | preguntas-mentor.js:242-243 | a summary value is the dash when unanswered, the label of a mentor pick, and the stored text otherwise |
| Onboarding.SummaryRows | preguntas-mentor.js:241-247 | one row per question in order: row i holds question i's text, and its value is the dash when the question has no answer, the label of a mentor pick, and the stored text otherwise |
| Onboarding.AfterAdvance | preguntas-mentor.js:272 | after any advance (the same test follows every handler that advances) the page of question idx is shown while idx < 7, and the summary from 7 on |
| Onboarding.Questionnaire.constructor | preguntas-mentor.js:36 | the stored answers are loaded, with the cursor at 0 |
| Onboarding.Questionnaire.Resume | preguntas-mentor.js:321-331 | with at least seven keys the summary is shown at idx 7. Otherwise the loop stops at the first question without a truthy answer, which is below 7, and shows it; the answers are untouched |
| Onboarding.Questionnaire.Back | preguntas-mentor.js:260-262 | idx decreases by one only when it is positive, so it never goes negative; the answers are untouched |
| Onboarding.Questionnaire.SubmitText | preguntas-mentor.js:266-272 | a blank trimmed input changes nothing. Otherwise the trimmed text is stored under the current question and idx grows by 1 |
| Onboarding.Questionnaire.Enter | preguntas-mentor.js:216-227 | Enter on the text question follows the same rule as SubmitText |
| Onboarding.Questionnaire.Next | preguntas-mentor.js:264-285 | on the text question it follows the SubmitText rule. On an options question it advances, recording nothing, exactly when an option is selected. On the summary it changes nothing |
| Onboarding.Questionnaire.ChooseOption | preguntas-mentor.js:197-206 | an ordinary option stores its string under the question's id and advances |
| Onboarding.Questionnaire.PickMentor | preguntas-mentor.js:166-185 | a mentor pick stores that mentor's {label, key} under q7 and shows the summary |
| Onboarding.SummaryShowsPicks | preguntas-mentor.js:242-243 | after a mentor pick the last summary row shows the mentor's label, and after an option pick that question's row shows the option |

## Left out

- Everything on screen: DOM rendering, animations, tours, modals, toasts, confetti, themes, the map's drag and pan, and the particle canvas.
- Node positions and the SVG curves between nodes (`makePath`). Links are modelled as pairs of placement positions.
- Firebase authentication and Firestore reads and writes, the sign-in page, the image probe of the questionnaire, and the save-and-redirect that follows the summary. These are foreign, asynchronous calls.
- localStorage and JSON. Persistence is "the state value is written"; stored data is passed to the constructors already parsed.
- Shapes of stored data that are not modelled:
  - a level status other than the three known ones;
  - an answer that is neither a string nor a {label, key} object;
  - stored numbers that are strings or NaN.
- Randomness, the clock, `confirm` and `prompt`. These are parameters: `draw`, `draws`, `newId`, `now`, `confirmed`, `answer`.
- The dashboard's overview chart with its date bucketing, and all number and currency formatting (`fmt`, `toLocaleString`). The CSV amount's text is the parameter `show`.
- Csv.Cells: the amount column takes its text from the parameter `show`. JavaScript's own number-to-text conversion is not modelled.
- IEEE-754 floating point: the simulators and formulas use exact reals. XP and coins are unbounded integers.
- Savings.FutureValueMonthly: the number of years is a natural number. Math.pow with a fractional or negative exponent is not modelled.
- Shade.ShadeColor: returns the three numeric channels, not the `rgb(...)` string. Shade.ParseChannel reads at most two characters (all that substring gives it), so leading white space, signs and `0x` prefixes of parseInt are not modelled.
- Builtins.ToUpper: only maps the ASCII letters a-z. JavaScript also upper-cases other letters (for example 'ı' to 'I' and 'ſ' to 'S'), so a prompt answer spelled with those is accepted by the page but not by Levels.ResetAnswer.
- Learn.FirstUnlocked: Object.keys lists integer-like keys first. The model uses plain insertion order, which matches because category ids are not integer-like.
- Levels.Ladder.StartFirstLesson: on an empty ladder the handler fails reading the first level. The model treats that as changing nothing.
- Onboarding.Questionnaire.Next: on the summary (idx 7) the handler fails reading the missing question. The model treats that as changing nothing.
- Onboarding.Questionnaire.ChooseOption and Onboarding.Questionnaire.PickMentor: the 420 ms and 520 ms pauses before advancing are collapsed into the click. So are the option highlight and the 600 ms flash that Next gives the first option; whether an option is marked selected is the parameter `selected` of Next.
- Onboarding.Questionnaire.Enter: the Enter handler is taken to exist only while the text question is shown.
- The app has no weighted or keyword-based mentor scoring: the user picks the mentor directly. There is nothing of that kind to model.
- Duplicate declarations, wrong `$` selectors and the assignment through optional chaining (`$('#hero-stats')?.textContent = …` in firebase-config.js:105, a syntax error for the whole ladder script) would stop a page from loading; they are not modelled. Each handler's body is modelled as written.
