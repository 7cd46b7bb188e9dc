# AzSeo scoring engine in Dafny

This project models the scoring engine of the AzSeo browser extension's popup,
which lives in `popup.js`. It has three parts:

- **The scorer**, `calculateScore`. It runs fifteen fixed rules over the page
  signals that the content script extracted. Each rule that applies pushes one
  check onto a list: a rule id, a status (`ok`, `warn`, `fail` or `info`), the
  points earned, the points available and an impact weight. The lazy-loading
  rule may push nothing. The score is the running total, capped at 100.
- **The verdict classifier**, `getVerdict`. It maps a score to one of six tiers.
- **The tip generator**, `generateTips`. It indexes the checks by id and tries
  a fixed table of fourteen triggers in order: critical, then high, medium and
  low. Each trigger whose condition holds adds its tip. A congratulatory tip is
  added when none fired.

`renderResults` chains the three stages; without its drawing code that chain is
`Pipeline.Analyze`.

The modules follow the program's structure:

- `Signals` holds the page-signals record and the one invariant the extractor
  guarantees: every image is counted either with or without alt text.
- `Rules` holds the fifteen rules and the evaluator. `CalculateScore` is the
  imperative engine: a sequence of `add` steps with a running total. It is
  proved equal to the pure `Evaluate`/`Score` pair, and the properties are
  proved about that pair.
- `Verdicts` holds the classifier and its breakpoint table.
- `Tips` holds the trigger table and the `byId` index: a `map` that a loop
  fills in, proved equal to a last-wins lookup. It also holds the per-group
  imperative tip code and the trigger-table function `TipsFor` that it is
  proved against.
- `Pipeline` holds the whole analysis, with lemmas stated directly on the page
  signals.

## Model

A check is *within bounds* when it earns between 0 and its maximum and its impact weight is at most 100 (`Rules.InBounds`).

| member | source | states |
|---|---|---|
| Signals.OgCount | popup.js:85 | the number of Open Graph flags set: at most 4, 0 exactly when none is set, 4 exactly when all are |
| Signals.OgCountMonotone | popup.js:85 | setting more flags never lowers the count |
| Rules.RoundHalfUp | popup.js:72-73 | `Math.round(8 * (1 - ratio))` on the exact ratio; no ensures of its own: its meaning is stated by `Rules.RoundHalfUpNearest`, `Rules.RoundHalfUpWithin` and `Rules.RoundHalfUpMonotone` |
| Rules.RoundHalfUpNearest | popup.js:72-73 | the rounded quotient `r` used for `Math.round(n/d)` satisfies `d(2r-1) <= 2n < d(2r+1)`: nearest integer, halves up |
| Rules.RoundHalfUpWithin | popup.js:72-73 | rounding a quotient that lies in `0..k` gives an integer in `0..k` |
| Rules.RoundHalfUpMonotone | popup.js:72-73 | rounding preserves order |
| Rules.TitleRule | popup.js:28-37 | the title check has id `title`, maximum 15, points within `0..15` and an impact of at most 100 |
| Rules.TitleRuleCatalogue | popup.js:28-37 | fails exactly on an empty title (0 points); 8 points exactly when shorter than 30, 9 exactly when longer than 60; ok with 15 exactly when the length is in 30..60; the points are one of 0, 8, 9, 15 |
| Rules.DescRule | popup.js:39-48 | the description check has id `desc`, maximum 12 and points within bounds |
| Rules.DescRuleCatalogue | popup.js:39-48 | fails exactly when there is no description; 6 points below 70 characters, 7 above 160, 12 and ok in 70..160 |
| Rules.H1Rule | popup.js:50-57 | the H1 check has id `h1`, maximum 10 and points within bounds |
| Rules.H1RuleCatalogue | popup.js:50-57 | fails with 0 points exactly when there is no H1; warns with 6 exactly when there are several; ok with 10 exactly when there is one |
| Rules.HttpsRule | popup.js:59-64 | the HTTPS check has id `https`, maximum 10 and points within bounds |
| Rules.HttpsRuleCatalogue | popup.js:59-64 | ok with 10 points exactly when the page is secure, fail with 0 otherwise |
| Rules.ImgRule | popup.js:66-75 | the image check has id `img`, maximum 8, and points within `0..8` whenever no more images lack alt text than exist |
| Rules.ImgRuleCatalogue | popup.js:66-75 | info with 8 points when there are no images; ok with 8 when none lacks alt text; otherwise fail exactly when more than half lack it (`2w > t`), warn otherwise, with the points the integer nearest to `8(1 - w/t)` |
| Rules.ImgMonotone | popup.js:66-75 | for the same number of images, more images without alt text never earn more points |
| Rules.OgMonotone | popup.js:84-93 | a page with at least as many Open Graph flags set never earns fewer Open Graph points |
| Rules.ContentMonotone | popup.js:117-124 | a page with at least as many words never earns fewer content points |
| Rules.H2Monotone | popup.js:133-140 | a page with at least as many H2 headings never earns fewer H2 points |
| Rules.SchemaMonotone | popup.js:109-115 | a page with at least as many structured-data blocks never earns fewer structured-data points |
| Rules.OthersUnchanged | popup.js:28-154 | changing only the alt-text counts, for the same number of images, leaves every rule but the image rule unchanged |
| Rules.ScoreAltTextMonotone | popup.js:19-156 | giving alt text to more of the same images never lowers the score |
| Rules.ImgFullMarks | popup.js:66-75 | the image rule gives all 8 points exactly when `16w <= t` |
| Rules.CanonicalRule | popup.js:77-82 | the canonical check has id `canonical`, maximum 7 and points within bounds |
| Rules.CanonicalRuleCatalogue | popup.js:77-82 | ok with 7 points exactly when a canonical link exists, otherwise warn with 0 |
| Rules.OgRule | popup.js:84-93 | the Open Graph check has id `og`, maximum 6 and points within bounds |
| Rules.OgRuleCatalogue | popup.js:84-93 | ok with 6 points from three flags on, warn with two points per flag for one or two, fail with 0 for none |
| Rules.ViewportRule | popup.js:95-100 | the viewport check has id `viewport`, maximum 5 and points within bounds |
| Rules.ViewportRuleCatalogue | popup.js:95-100 | ok with 5 points exactly when a viewport tag exists, otherwise fail with 0 |
| Rules.LangRule | popup.js:102-107 | the language check has id `lang`, maximum 5 and points within bounds |
| Rules.LangRuleCatalogue | popup.js:102-107 | ok with 5 points exactly when a language is declared, otherwise warn with 0 |
| Rules.SchemaRule | popup.js:109-115 | the structured-data check has id `schema`, maximum 5 and points within bounds |
| Rules.SchemaRuleCatalogue | popup.js:109-115 | ok with 5 points exactly when there is a structured-data block, otherwise warn with 0 |
| Rules.ContentRule | popup.js:117-124 | the content check has id `content`, maximum 5 and points within bounds |
| Rules.ContentRuleCatalogue | popup.js:117-124 | ok with 5 points from 300 words, warn with 2 from 100 words, fail with 0 below |
| Rules.FaviconRule | popup.js:126-131 | the favicon check has id `favicon`, maximum 4 and points within bounds |
| Rules.FaviconRuleCatalogue | popup.js:126-131 | ok with 4 points exactly when a favicon exists, otherwise warn with 0 |
| Rules.H2Rule | popup.js:133-140 | the H2 check has id `h2`, maximum 3 and points within bounds |
| Rules.H2RuleCatalogue | popup.js:133-140 | ok with 3 points from two H2s; otherwise a warning (never a failure) worth one point per H2 |
| Rules.TwitterRule | popup.js:142-147 | the Twitter check has id `twitter`, maximum 3 and points within bounds |
| Rules.TwitterRuleCatalogue | popup.js:142-147 | ok with 3 points exactly when a Twitter card exists, otherwise warn with 0 |
| Rules.LazyRule | popup.js:149-154 | the lazy check is absent exactly when the page has no lazily loaded image (or no image) and at most three images |
| Rules.LazyRuleCatalogue | popup.js:149-154 | when present, the lazy check has id `lazy`, maximum 2 and points within bounds; it is ok with 2 points exactly when there are images and lazy loading, and otherwise warn with 0 points |
| Rules.Evaluate | popup.js:28-154 | the list the rules push, the lazy check last when emitted; no ensures of its own: its meaning is stated by `Rules.EvaluateElements`, `Rules.EvaluatePositions`, `Rules.EvaluateOrder` and `Rules.EvaluateDistinct` |
| Rules.SumPts | popup.js:25 | the running total `total += pts`; no ensures of its own: its meaning is stated by `Rules.Add`, `Rules.SumPtsWithin` and `Rules.EvaluatePointSum` |
| Rules.Score | popup.js:156 | `Math.min(100, total)`: at most 100, and the point sum exactly when that sum is at most 100 |
| Rules.RuleIndex | popup.js:28-154 | the position of every rule in the evaluation order |
| Rules.EvaluateElements | popup.js:28-154 | the evaluator's list holds each rule's check at its place, with the lazy check fifteenth when it is emitted |
| Rules.EvaluatePositions | popup.js:28-154 | 15 checks when the lazy check is emitted and 14 otherwise, and the i-th check has the i-th id of the rule order |
| Rules.EvaluateOrder | popup.js:28-154 | the ids of the checks are the whole rule order, or its first fourteen when lazy is silent |
| Rules.EvaluateDistinct | popup.js:28-154 | no two checks of a page share an id |
| Rules.EvaluateInBounds | popup.js:28-154 | on signals the extractor can build, every check earns between 0 and its maximum and has an impact of at most 100 |
| Rules.EvaluateMaxSum | popup.js:28-154 | the maxima add up to 100, or 98 when the lazy check is not emitted |
| Rules.EvaluatePointSum | popup.js:19-156 | the total is the sum of the fourteen rules' points plus the lazy points when emitted |
| Rules.SumPtsWithin | popup.js:25 | points that are all within bounds add up to between 0 and the summed maxima |
| Rules.ScoreIsPointSum | popup.js:156 | on signals the extractor can build, the score is in 0..100 and the cap never changes it |
| Rules.ScoreWithoutLazy | popup.js:149-156 | a page with no lazy check scores at most 98 |
| Rules.ScoreHundredIff | popup.js:19-156 | a page scores 100 exactly when it earns full marks on every rule, the lazy one included |
| Rules.LazyPts | popup.js:149-154 | the lazy rule adds 0 to 2 points, and 2 exactly when the page has an image and lazily loaded images |
| Rules.FullMarksByRule | popup.js:28-154 | full marks on the page's signals is every rule at its maximum: 15, 12, 10, 10, 8, 7, 6, 5, 5, 5, 5, 4, 3, 3 and 2 points |
| Rules.SumAtMaxima | popup.js:25 | fifteen parts each within its maximum add up to 100 exactly when each is at its maximum |
| Rules.ScoreMonotoneByRule | popup.js:19-156 | a page that earns at least as many points as another on every rule, the lazy one included, never scores less |
| Rules.ScoreMoreOpenGraph | popup.js:84-93 | setting more Open Graph tags never lowers the score |
| Rules.ScoreMoreWords | popup.js:117-124 | more words never lower the score |
| Rules.ScoreMoreH2 | popup.js:133-140 | more H2 headings never lower the score |
| Rules.ScoreMoreSchema | popup.js:109-115 | more structured-data blocks never lower the score |
| Rules.ScoreAddDescription | popup.js:39-48 | adding a missing meta description, of any length, never lowers the score |
| Rules.ScoreAddHttps | popup.js:59-64 | serving the page over HTTPS never lowers the score |
| Rules.ScoreAddCanonical | popup.js:77-82 | adding a canonical link never lowers the score |
| Rules.ScoreAddViewport | popup.js:95-100 | adding a viewport tag never lowers the score |
| Rules.ScoreAddLang | popup.js:102-107 | declaring the page language never lowers the score |
| Rules.ScoreAddFavicon | popup.js:126-131 | adding a favicon never lowers the score |
| Rules.ScoreAddTwitterCard | popup.js:142-147 | adding a Twitter card never lowers the score |
| Rules.ScoreAddLazyLoading | popup.js:149-154 | lazily loading images never lowers the score |
| Rules.Add | popup.js:23-26 | pushing a check appends it and keeps the running total equal to the list's points |
| Rules.CalculateScore | popup.js:19-157 | the checks pushed are the evaluator's list and the score is its capped total |
| Verdicts.GetVerdict | popup.js:160-167 | Excellent exactly from 90, Great in 80..89, Good in 65..79, Fair in 50..64, Poor in 30..49, Critical below 30 |
| Verdicts.GetVerdictMatchesTable | popup.js:160-167 | the chain of tests equals the first breakpoint reached in the table read from the top |
| Verdicts.GetVerdictMonotone | popup.js:160-167 | a higher score never yields a worse tier |
| Verdicts.GetVerdictBoundaries | popup.js:160-167 | each breakpoint is closed below: 89 is Great and 90 Excellent, and likewise at 80, 65, 50 and 30 |
| Tips.Lookup | popup.js:172-173 | the indexed check for an id, when there is one, has that id |
| Tips.LookupIsLast | popup.js:172-173 | nothing is indexed exactly when no check has the id; otherwise the last check with that id wins |
| Tips.IndexById | popup.js:172-173 | the map built by the `forEach` gives, for every id, the last-wins lookup of the checks |
| Tips.Get | popup.js:177-203 | the read `byId[id]`, nothing for an id no check has; no ensures of its own: its meaning is stated by `Tips.IndexById` |
| Tips.Fires | popup.js:177-204 | the condition `byId.<id>?.status <test>` of one trigger; no ensures of its own: its meaning is stated by `Tips.TipIffFires` |
| Tips.Fired | popup.js:177-204 | the conditional `tip(...)` pushes of the table, in order; no ensures of its own: its meaning is stated by `Tips.FiredMember`, `Tips.FiredEmpty` and `Tips.FiredGroups` |
| Tips.StatusOf | popup.js:177-203 | `byId[id]?.status`, nothing for a missing check; no ensures of its own: its use is stated by `Tips.CritTipsIff` to `Tips.LowTipsIff` and `Tips.TipsForNoChecks` |
| Tips.Holds | popup.js:177-203 | the four conditions: `=== 'fail'`; `!== 'ok'`; `=== 'warn'` or `=== 'fail'`; and `=== 'warn'`; no ensures of its own: their meaning, a missing check included, is stated by `Tips.CritTipsIff` to `Tips.LowTipsIff` and `Tips.TipsForNoChecks` |
| Tips.CritTriggers | popup.js:177-184 | the four critical triggers; no ensures of its own: stated by `Tips.TriggersListed` and `Tips.TriggerLayout` |
| Tips.HighTriggers | popup.js:185-192 | the four high triggers; no ensures of its own: stated by `Tips.TriggersListed` and `Tips.TriggerLayout` |
| Tips.MedTriggers | popup.js:193-198 | the three medium triggers; no ensures of its own: stated by `Tips.TriggersListed` and `Tips.TriggerLayout` |
| Tips.LowTriggers | popup.js:199-204 | the three low triggers; no ensures of its own: stated by `Tips.TriggersListed` and `Tips.TriggerLayout` |
| Tips.Triggers | popup.js:177-204 | the whole trigger table in order; no ensures of its own: stated by `Tips.TriggersListed`, `Tips.TriggerLayout` and `Tips.FiredGroups` |
| Tips.Congratulations | popup.js:205-206 | the fallback tip, low priority with impact 20; a constant: when it is emitted is stated by `Tips.FallbackIff` |
| Tips.TipsFor | popup.js:170-209 | the tip list is never empty |
| Tips.GenerateTips | popup.js:170-209 | the tips pushed are the trigger table's fired tips, or the congratulatory tip alone when none fired |
| Tips.CritTips | popup.js:177-184 | the critical group pushes the fired critical triggers' tips, in order |
| Tips.HighTips | popup.js:185-192 | the high group pushes the fired high triggers' tips, in order |
| Tips.MedTips | popup.js:193-198 | the medium group pushes the fired medium triggers' tips, in order |
| Tips.LowTips | popup.js:199-204 | the low group pushes the fired low triggers' tips, in order |
| Tips.FiredGroups | popup.js:177-204 | firing the whole table is firing the four groups one after the other |
| Tips.TipsForGroups | popup.js:177-206 | the tip list as the four group lists concatenated, with the fallback when all are empty |
| Tips.FiredMember | popup.js:177-204 | a tip is emitted exactly when some trigger carrying it fires |
| Tips.FiredEmpty | popup.js:177-205 | nothing fires exactly when no trigger's condition holds |
| Tips.TriggerLayout | popup.js:177-204 | fourteen triggers, each with its own topic, in four priority bands of 4, 4, 3 and 3 |
| Tips.TriggersListed | popup.js:177-204 | the fourteen triggers in table order, each with its rule id, its condition (fail, not ok, warn or fail, warn) and its tip's priority, topic and impact |
| Tips.TipsByPriority | popup.js:177-206 | the tips come in priority order: critical, then high, medium and low |
| Tips.TipsInTableOrder | popup.js:177-206 | the tips follow the trigger table strictly, so no advice is given twice |
| Tips.FallbackIff | popup.js:205-206 | the congratulatory tip appears exactly when no trigger fires, and then alone |
| Tips.TipIffFires | popup.js:177-204 | the tip of each trigger is emitted exactly when that trigger fires |
| Tips.CritTipsIff | popup.js:177-184 | each critical tip exactly when its check is present and fails |
| Tips.HighTipsIff | popup.js:185-192 | viewport tip on a failing check; canonical and Open Graph tips unless the check is ok (a missing check is not ok); the alt-text tip on a warning or a failure |
| Tips.MedTipsIff | popup.js:193-198 | structured-data, Twitter and content tips each unless their check is ok |
| Tips.LowTipsIff | popup.js:199-204 | heading and language tips unless their check is ok; the lazy-loading tip only on a warning |
| Tips.CritTipsFirst | popup.js:177-206 | the fired critical tips open the list and no later tip is critical |
| Tips.TipsForNoChecks | popup.js:187-204 | with no checks at all, exactly the triggers that ask for an ok check fire |
| Tips.QuietChecks | popup.js:177-206 | when no check asks for attention the congratulatory tip is the only tip |
| Tips.FailingEssentials | popup.js:177-184 | when the HTTPS, title, description and H1 checks all fail, their four tips open the list in that order and no later tip is critical |
| Pipeline.Analyze | popup.js:370-373 | the score, checks, tips and verdict of a page are the evaluator's, the tip table's and the classifier's, with at least one tip |
| Pipeline.LookupInOrder | popup.js:172-173 | in checks that follow the evaluation order, the index finds the check at the rule's position, or nothing when the list stops first |
| Pipeline.LookupsByPosition | popup.js:172-173 | on a list of 14 or 15 checks in rule order, each id's lookup is the check at its position |
| Pipeline.EvaluateLookups | popup.js:172-173 | on a scored page the tip generator finds each rule's own check, and the lazy check only when it was emitted |
| Pipeline.CritTipsOnSignals | popup.js:177-184 | the critical tips in terms of the signals: not secure, empty title, no description, no H1 |
| Pipeline.HighTipsOnSignals | popup.js:185-192 | the high tips in terms of the signals; the alt-text tip exactly when there are images and some lack alt text |
| Pipeline.MedTipsOnSignals | popup.js:193-198 | the medium tips in terms of the signals |
| Pipeline.LowTipsOnSignals | popup.js:199-204 | the low tips in terms of the signals; lazy loading is advised exactly for more than three images without lazy loading |
| Pipeline.PageTips | popup.js:170-209 | every tip of an analysed page, each exactly when its signal condition holds |
| Pipeline.SpotlessPage | popup.js:19-209 | a page with full marks and no image lacking alt text scores 100, is Excellent and gets only the congratulatory tip |
| Pipeline.FullScoreStillAdvised | popup.js:66-75 | a page with full marks but some image lacking alt text still scores 100, and gets the alt-text tip instead of the congratulatory one |
| Pipeline.BrokenEssentials | popup.js:19-209 | a page with no HTTPS, title, description or H1 gets those four critical tips first, in that order, and scores at most 53 |

## Left out

- The rendering code is not part of this model: `renderChecks`, `renderOverview`, `renderTips` and the drawing in `renderResults` (popup.js:212-431). The tabs, `runAnalysis` and the rescan listener (popup.js:434-486) are left out as well. All of it is DOM and browser-messaging I/O.
- The content script's extraction (content.js:1-95) is not part of this model. The page signals are a parameter. The one fact the engine relies on, that every image is counted with or without alt text (content.js:26-28), is `Signals.WellFormed`.
- Check titles, detail text, tip titles and tip bodies are not modelled; they are display strings. A tip's topic records the two values that a tip's title or body quotes: the number of images lacking alt text (quoted in the alt-text tip's title) and the word count (quoted in the content tip's body). The verdict's description text is not modelled either, nor the `ICON`, `PTS_COLOR` and `CIRC` constants.
- Signal groups the engine never reads are not modelled: meta keywords, links, robots and the URL.
- The title rule reads the title's length field independently of its text. The model keeps the two as separate fields. It does not tie the length to the text, which the extractor does.
- Rule ids are an enumeration, not strings. This needs two assumptions: the string ids used at popup.js:29-153 are distinct, and the tip table uses the same ids.
- JavaScript floating point is not modelled; the image rule's `Math.round(8 * (1 - w / t))` (popup.js:72-73) is modelled as exact rational rounding, half up, and `ratio > 0.5` as `2w > t`. The two agree for every realistic image count. A value exactly on a half, `8(1 - w/t) = k + 1/2`, forces `w/t = (15 - 2k)/16`, a fraction with denominator 16, which doubles represent exactly, as they do `1 - ratio` and its product by 8; `Math.round` then sees `k + 0.5` and rounds up, as `Rules.RoundHalfUp` does. Away from a half the exact value is at least `1/(2t)` from it, far more than the rounding error of a double. The same holds for `ratio > 0.5`, where `0.5` is exact. Every other rule's points are integers, so `Math.round(total)` is the identity.
- Rules.Score: the code caps the total only from above (`Math.min`, popup.js:156) and never clamps it below 0. The lower bound 0 is proved in `Rules.ScoreIsPointSum` from the extractor's guarantee.
- Tips.Lookup: its contract states only that the check found has the requested id. What it finds is stated in `Tips.LookupIsLast`.

## Notes

- Because the image points are rounded, a page where at most one image in sixteen lacks alt text still earns all 8 points. At the same time the image check carries a warning, so the alt-text tip fires. A page can therefore score 100 and still be advised to fix alt texts, and then it never gets the congratulatory tip (`Pipeline.FullScoreStillAdvised`). This follows from the code as written and is not treated as a defect.
