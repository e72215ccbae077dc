# frontevents: a verified model of the dashboard's data derivations

The frontevents dashboard tracks live events (concerts and tours) in Latin America. It shows the radio detections of artists, the "buzz" around each event on social networks, and reports that help promoters choose a date. Its pages compute all of this in the browser from a fetched detection feed and a static event catalogue. This project models those computations in Dafny and proves what each one promises.

- **Digital buzz library** (`buzz.dfy`, module `DigitalBuzz`)
  - the seeded linear-congruential generator, as a class with one mutable seed;
  - the twelve-week mention series;
  - sentiment, buzz score and growth;
  - hashtags, influencers, annotations and the platform split;
  - radio compliance.
- **Reports over the event catalogue**
  - `date_comparison.dfy`: the date-viability score, its factors and level;
  - `genre_competition.dfy`: same-city competition within four days;
  - `opportunities.dfy`: quiet days over a 90-day horizon, plus genre and venue opportunities;
  - `saturation_calendar.dfy`: saturation levels, month navigation and the month grid;
  - `temporal_metrics.dfy`: the monthly, weekday, genre and venue histograms.
- **Detection feeds and rankings**
  - `artist_ranking.dfy`: group-by artist, merge and sort;
  - `events_ranking.dfy`: range parsing, query parameters and tabs;
  - `artist_recommendation.dfy`: filter, sort and city reset;
  - `latest_mentions.dfy`, `latest_mentions_per_artist.dfy`: filters, limits, statistics and time-ago buckets;
  - `advertising_compliance.dfy`: the station period filter and pacing classes;
  - `event_detail.dfy`: buzz lookup, suggested influencers, trend normalisation and the comparison list.
- **Validators and lookups**
  - `login_form.dfy`: the sign-up password rule and the mismatch message;
  - `filter_events.dfy`: the catalogue cutoff filter;
  - `event_image_mapper.dfy`: the genre-to-image table.

Shared modules hold the vocabulary the pages have in common:

- `common.dfy`: `Option`, `Math.round`, clamping and JavaScript `slice`;
- `seqs.dfy`: filter, count, sum, distinct values and subsequences;
- `sorting.dfy`: a stable sort with sortedness, permutation and stability lemmas, and take-first-n;
- `text.dfy`: whitespace removal, case mapping over the Basic Latin and Latin-1 blocks, substring search and number-to-text;
- `calendar.dfy`: proleptic Gregorian dates, day numbers and weekdays;
- `catalog.dfy`: the catalogue's event record;
- `detections.dfy`: the detection record, initials, colours and time-ago;
- `tally.dfy`: insertion-ordered counters, as a JavaScript `Map` keeps them.

Dates are calendar triples with a day number counted from 1970-01-01 and a weekday. A date string that does not parse is `None`; every comparison with it is false, as with JavaScript's `NaN`. The wall-clock "now" and "today" are parameters. Detection instants are integer milliseconds. JavaScript's `%` truncates toward zero, `Math.round` is `floor(x + 1/2)`, and `Array.prototype.sort` is stable; each is written out where the source relies on it.

Code that changes things step by step is modelled as methods and classes. The mention, influencer and annotation loops (`DigitalBuzz.WeeklyMentions`, `DigitalBuzz.Influencers`, `DigitalBuzz.Annotations`) are proved against bounds, length and ordering properties of what they build, since their values come from the seeded generator. The others are proved against a specification function:

- the generator's seed;
- the date score's factor list;
- the histogram `forEach` loops;
- the ranking's `Map` updates;
- the query builder;
- the month navigation, city reset and comparison-list state.

The filter/map/sort chains inside `useMemo` are functions.

## Model

| member | source | states |
|---|---|---|
| Common.Round | src/lib/digitalBuzzData.ts:124 | `Math.round`: the integer within half a unit, halves going up |
| Common.RoundWithin | src/components/reports/DateComparison.tsx:70 | a rounded value stays within integer bounds that enclose it |
| Common.RoundMonotone | src/lib/digitalBuzzData.ts:196 | `Math.round` is monotone |
| Common.Clamp | src/components/reports/DateComparison.tsx:70 | `Math.max(lo, Math.min(hi, x))` lies in [lo, hi], is x inside, lo below and hi above |
| Common.ClampOnlyFromAbove | src/components/reports/DateComparison.tsx:70 | a value already at least the lower bound changes only from above: kept up to the upper bound, cut to it beyond |
| Common.Mean | src/components/reports/OpportunitiesReport.tsx:90 | the mean times the number of values gives back their total |
| Common.Slice | src/lib/digitalBuzzData.ts:107 | `slice(start, end)` with negative indices counted from the end; empty when the end falls before the start |
| Common.SliceFrom | src/lib/digitalBuzzData.ts:106 | `slice(start)`: the suffix from the resolved start; a negative start keeps min(-start, length) elements |
| Common.Take | src/components/dashboard/LatestMentions.tsx:79 | `slice(0, n)` is a prefix, of length min(n, length) for a non-negative n |
| Seqs.Filter | src/lib/filterEvents.ts:5 | `filter` keeps exactly the elements satisfying the predicate and is no longer than its input |
| Seqs.FilterFilter | src/components/dashboard/LatestMentions.tsx:76-78 | two chained filters are one filter by the conjunction |
| Seqs.FilterIsSubsequence | src/lib/filterEvents.ts:5 | a filter result is an order-preserving subsequence of its input |
| Seqs.MapSeq | src/components/dashboard/LatestMentionsPerArtist.tsx:91 | `map` keeps the length and applies the function at each index |
| Seqs.Count | src/components/dashboard/LatestMentionsPerArtist.tsx:89-90 | the number of elements satisfying a predicate is at most the length, and 0 iff none does |
| Seqs.Distinct | src/components/dashboard/LatestMentionsPerArtist.tsx:91-92 | `[...new Set(s)]`: the same elements, each once, listed in the order of their first occurrence in `s` |
| Seqs.FilterFirstOrder | src/components/dashboard/LatestMentionsPerArtist.tsx:93 | `.filter(...)` keeps the relative order in which the kept values first occur |
| Seqs.FirstIndex | src/components/dashboard/LatestMentionsPerArtist.tsx:91-92 | the position of the first occurrence: it holds the element and no earlier position does |
| Seqs.DistinctHead | src/components/dashboard/LatestMentionsPerArtist.tsx:91 | the first element comes first after de-duplication |
| Seqs.Occurrences | src/components/reports/TemporalMetrics.tsx:59-63 | the number of occurrences is positive iff the element is present |
| Sorting.SortBy | src/components/reports/OpportunitiesReport.tsx:45 | an ascending numeric `sort`: sorted, a permutation of the input (same multiset), same length |
| Sorting.SortDescBy | src/components/dashboard/EventsRanking.tsx:156 | a descending numeric `sort`: sorted descending and a permutation of the input |
| Sorting.SortByStable | src/components/dashboard/ArtistRanking.tsx:193 | the sort is stable: the elements of any one key keep their input order |
| Sorting.SortByMembers | src/components/reports/OpportunitiesReport.tsx:45 | the sorted sequence holds exactly the input's elements |
| Sorting.PrefixSubMultiset | src/components/reports/OpportunitiesReport.tsx:46 | `slice(0, n)` keeps no element more often than the whole array holds it |
| Sorting.AscPrefixIsTop | src/components/reports/OpportunitiesReport.tsx:45-46 | sort then `slice(0, n)`: ascending, a sub-multiset of the input (no element kept more often than it occurs), and nothing left out ranks lower |
| Sorting.DescPrefixIsTop | src/pages/EventDetail.tsx:115-116 | sort descending then `slice(0, n)`: descending, a sub-multiset of the input (no element kept more often than it occurs), and nothing left out ranks higher |
| Sorting.SortByDistinctKeys | src/lib/digitalBuzzData.ts:303 | sorting elements with pairwise distinct keys gives strictly increasing keys |
| Text.RemoveSpaces | src/lib/digitalBuzzData.ts:141 | `replace(/\s+/g, '')` keeps exactly the non-whitespace characters, in order |
| Text.RemoveSpacesConcat | src/lib/digitalBuzzData.ts:141-143 | removing whitespace distributes over concatenation |
| Text.ToLower | src/components/dashboard/ArtistRanking.tsx:98 | `toLowerCase` keeps the length and lower-cases each character |
| Text.ToLowerIdempotent | src/components/dashboard/LatestMentionsPerArtist.tsx:81 | lower-casing twice is lower-casing once |
| Text.UpperChar | src/components/dashboard/EventsRanking.tsx:54 | `toUpperCase` of one character: a-z become A-Z; the result is one character or "SS" |
| Text.NatToString | src/components/dashboard/EventsRanking.tsx:126 | `String(n)`: a non-empty string of digits whose decimal value is n, with no leading zero except for 0 itself |
| Text.NatToStringInjective | src/components/dashboard/EventsRanking.tsx:126 | different numbers never print the same |
| Text.IntToString | src/lib/digitalBuzzData.ts:192 | `String(n)` for any integer: a minus sign exactly for a negative n, then digits whose decimal value is the magnitude of n |
| Text.IsSpace | src/lib/digitalBuzzData.ts:141 | `\s` matches every line terminator and no ASCII letter or digit |
| Text.LowerChar | src/components/dashboard/ArtistRanking.tsx:98 | `toLowerCase` of one character: A-Z move down by 32 to a-z; a character outside A-Z and the Latin-1 capitals is kept |
| Text.Utf16Units | src/lib/digitalBuzzData.ts:57 | a character's UTF-16 code units: one equal to its code inside the Basic Multilingual Plane, else a high and a low surrogate that decode back to it |
| DigitalBuzz.ParseReach | src/lib/digitalBuzzData.ts:32-35 | a reach in millions is kept, any other reach is read as thousands (divided by 1000); never negative |
| DigitalBuzz.JsRem | src/lib/digitalBuzzData.ts:46 | JavaScript's `%`: in [0, m) for a non-negative dividend, in (-m, 0] for a negative one |
| DigitalBuzz.Lcg | src/lib/digitalBuzzData.ts:46 | the next seed of a non-negative seed lies in [0, 233280) |
| DigitalBuzz.NextBounds | src/lib/digitalBuzzData.ts:45-48 | from a non-negative seed, `next()` leaves the seed in [0, 233280) and returns a value in [0, 1) |
| DigitalBuzz.RangeAt | src/lib/digitalBuzzData.ts:50-52 | from a non-negative seed, `range(lo, hi)` returns a value in [lo, hi) |
| DigitalBuzz.SeededRandom.constructor | src/lib/digitalBuzzData.ts:41-43 | the generator starts at the given seed |
| DigitalBuzz.SeededRandom.Next | src/lib/digitalBuzzData.ts:45-48 | the seed advances by one generator step and the result is the new seed over 233280 |
| DigitalBuzz.SeededRandom.Range | src/lib/digitalBuzzData.ts:50-52 | one generator step, and the result is `min + next() * (max - min)` for the seed before the call |
| DigitalBuzz.CharCodeSum | src/lib/digitalBuzzData.ts:57 | the sum of the id's UTF-16 code units: 0 for the empty id, the code-point sum when every character is inside the Basic Multilingual Plane, and both surrogates for a character outside it |
| DigitalBuzz.CharCodeSumConcat | src/lib/digitalBuzzData.ts:57 | the `reduce` over an id is the sum of the reduces over its parts |
| DigitalBuzz.EmojiSumsSurrogates | src/lib/digitalBuzzData.ts:57 | an emoji id adds its two surrogates 0xD83D and 0xDE00, not its code point 0x1F600 |
| DigitalBuzz.Base | src/lib/digitalBuzzData.ts:59 | the base of the series is at least 600 |
| DigitalBuzz.WeeksUntil | src/lib/digitalBuzzData.ts:63 | `Math.floor` of the days to the event over 7: the whole weeks, rounded down also for a past event |
| DigitalBuzz.FloorIndex | src/lib/digitalBuzzData.ts:186 | `Math.floor(u * n)` for u in [0, 1) is an index below n |
| DigitalBuzz.SigmoidBounds | src/lib/digitalBuzzData.ts:81 | the pre-event factor `1 / (1 + e)` with a positive exponential lies strictly between 0 and 1 |
| DigitalBuzz.WeekValueBounds | src/lib/digitalBuzzData.ts:84 | one week's rounded value never exceeds the base times the largest factor and jitter |
| DigitalBuzz.EventWeekBound | src/lib/digitalBuzzData.ts:77-84 | in the event's week (factor 1) the value is at least the base times the smallest jitter 0.85 |
| DigitalBuzz.WeekMention | src/lib/digitalBuzzData.ts:68-85 | one week of the series: at least 50, at most max(50, base * 1.15), at most max(50, base * 0.6 * 1.15) for a week the event still lies ahead of (positive `weekFromEvent`), at least base * 0.85 in the event's week |
| DigitalBuzz.DrawFactor | src/lib/digitalBuzzData.ts:70-82 | the week's factor lies in [0, 1]: a draw in [0.3, 0.6) when the event is still ahead, exactly 1 in the event's week |
| DigitalBuzz.WeeklyMentions | src/lib/digitalBuzzData.ts:56-89 | `generateWeeklyMentions`: exactly 12 values, each at least 50 and within the bounds of its week's phase |
| DigitalBuzz.Sentiment | src/lib/digitalBuzzData.ts:92-102 | `generateSentiment` lies in [0.66, 0.78) for Pop/Urbano, [0.62, 0.74) for Regional, [0.68, 0.80) otherwise |
| DigitalBuzz.Unit01 | src/lib/digitalBuzzData.ts:119 | `Math.max(0, Math.min(x, 1))` lies in [0, 1] and is `x` itself there |
| DigitalBuzz.VolumeScore | src/lib/digitalBuzzData.ts:106-113 | the volume component is at most 1, and non-negative for non-negative mentions |
| DigitalBuzz.SumOf | src/lib/digitalBuzzData.ts:111 | the `reduce` sum is never negative over non-negative weeks, and is the one value of a one-week slice |
| DigitalBuzz.GrowthScore | src/lib/digitalBuzzData.ts:107-119 | the growth component lies in [0, 1]: 0 when weeks -6..-5 sum to at most 0 or the last two weeks do not exceed them, 1 once the last two weeks double them |
| DigitalBuzz.GrowthScoreWindow | src/lib/digitalBuzzData.ts:107-119 | two series that agree on weeks -6, -5, -2 and -1 have the same growth component, whatever weeks -4 and -3 hold |
| DigitalBuzz.RatioFacts | src/lib/digitalBuzzData.ts:118 | the relative change is at most 0 when the mean did not grow and at least 1 once it doubled |
| DigitalBuzz.BuzzScore | src/lib/digitalBuzzData.ts:105-125 | `calculateBuzzScore` is at most 96, and at least 12 for non-negative mentions |
| DigitalBuzz.ScoreBounds | src/lib/digitalBuzzData.ts:124 | the weighted, rounded sum of components within their ranges lies in [12, 96] |
| DigitalBuzz.Growth | src/lib/digitalBuzzData.ts:128-137 | `calculateGrowth`: 0 when weeks -4..-3 sum to 0; with positive earlier weeks, non-negative iff the last two weeks sum to at least as much, non-positive iff at most as much, never below -100 for non-negative weeks, and 100 for a doubling |
| DigitalBuzz.PercentChange | src/lib/digitalBuzzData.ts:135 | the rounded percentage change from a positive mean has the sign of the change, is at least -100 towards a non-negative mean and 100 for a doubling |
| DigitalBuzz.GrowthUsesLastFourWeeks | src/lib/digitalBuzzData.ts:129-130 | two series with the same last four weeks have the same growth |
| DigitalBuzz.LazyCapture | src/lib/digitalBuzzData.ts:145 | the lazy group `(.+?)` captures a non-empty prefix of the rest without line terminators |
| DigitalBuzz.NoDashNoMatch | src/lib/digitalBuzzData.ts:145 | without "- " in the event name the tour pattern does not match |
| DigitalBuzz.StripTour | src/lib/digitalBuzzData.ts:150 | `replace(/Tour$/, '')` removes a trailing "Tour" and nothing else |
| DigitalBuzz.MakeHashtags | src/lib/digitalBuzzData.ts:140-154 | primary is "#" + artist + city with whitespace removed; secondary starts with "#" and ends with "Tour"; without a match it is "#" + artist slug + "Tour"; neither contains a space |
| DigitalBuzz.InfluencerTypes | src/lib/digitalBuzzData.ts:174-180 | five name patterns |
| DigitalBuzz.EngagementBounds | src/lib/digitalBuzzData.ts:188-196 | the rounded engagement lies between 15 and 45 times the mentions, rounded |
| DigitalBuzz.DrawIndex | src/lib/digitalBuzzData.ts:226 | `Math.floor(next() * n)` is an index below n and the seed stays non-negative |
| DigitalBuzz.DrawReachOf | src/lib/digitalBuzzData.ts:187-196 | mentions in [50, 300], engagement between 15 and 45 times them |
| DigitalBuzz.DrawEngagement | src/lib/digitalBuzzData.ts:188-196 | `Math.round(mentions * range(15, 45))` between 15 and 45 times the mentions |
| DigitalBuzz.MakeInfluencer | src/lib/digitalBuzzData.ts:185-200 | one influencer, drawn in the source's order, is well formed: a platform of the four, mentions in [50, 300], engagement in band, sentiment within 0.05 |
| DigitalBuzz.Influencers | src/lib/digitalBuzzData.ts:169-204 | `generateInfluencers`: `count` influencers (none for a negative count), sorted by engagement descending, each well formed |
| DigitalBuzz.DropKeepsWeeks | src/lib/digitalBuzzData.ts:300 | `splice(idx, 1)` loses at most the removed candidate's week and keeps only candidates |
| DigitalBuzz.AnnotationCount | src/lib/digitalBuzzData.ts:290 | `Math.floor(range(2, 4))` is 2 or 3 |
| DigitalBuzz.Pick | src/lib/digitalBuzzData.ts:292-300 | one pass of the `while`: one candidate fewer, at most one annotation more, weeks of the picks pairwise distinct |
| DigitalBuzz.Annotations | src/lib/digitalBuzzData.ts:273-304 | `generateAnnotations`: exactly 2 or 3 annotations, all candidates, sorted by strictly increasing week |
| DigitalBuzz.PickingCompletes | src/lib/digitalBuzzData.ts:291 | the loop can only run out of candidates once all four weeks are chosen, so it always reaches its count |
| DigitalBuzz.SortedPicks | src/lib/digitalBuzzData.ts:303 | sorting the picks by week gives candidates with strictly increasing weeks |
| DigitalBuzz.Split | src/lib/digitalBuzzData.ts:311-321 | the four rounded parts add up to the total within 2, and shares in their bands give no negative part |
| DigitalBuzz.SharesSum | src/lib/digitalBuzzData.ts:314 | the four shares of a total add up to it |
| DigitalBuzz.SharesNonNegative | src/lib/digitalBuzzData.ts:311-314 | shares in their bands leave a non-negative YouTube share |
| DigitalBuzz.SplitByPlatform | src/lib/digitalBuzzData.ts:307-322 | `splitByPlatform`: no negative part for a non-negative total and seed, and the parts add up to the total within 2 |
| DigitalBuzz.RatioAtLeast | src/lib/digitalBuzzData.ts:247-249 | with a positive expectation, `t / x >= k` iff `t >= k * x` |
| DigitalBuzz.Expected | src/lib/digitalBuzzData.ts:243 | the expected count is never negative |
| DigitalBuzz.RadioComplianceOf | src/lib/digitalBuzzData.ts:241-265 | status OK iff total/expected ≥ 1, Medio iff in [0.7, 1), else Bajo; the rounded percentage; with nothing expected the ratio is not a number and OK iff the total is positive |
| Detections.Initial | src/components/dashboard/LatestMentionsPerArtist.tsx:133-135 | the initial is empty exactly for an empty name, and a lower-case ASCII first letter is raised to its capital |
| Detections.CodeUnit | src/components/dashboard/LatestMentionsPerArtist.tsx:150 | `charCodeAt(0)` is below 0x10000 and equals the character's code inside the Basic Multilingual Plane |
| Detections.ColourIndex | src/components/dashboard/ArtistRanking.tsx:210-224 | a non-empty initial picks one of the eight colours by its code unit modulo 8; an empty one picks none |
| Detections.ColourIgnoresCase | src/components/dashboard/LatestMentionsPerArtist.tsx:133-151 | two names whose first letters differ only in case get the same colour |
| Detections.Elapsed | src/components/dashboard/LatestMentions.tsx:15 | the whole seconds elapsed, rounded down: `e*1000 <= now - at < e*1000 + 1000` |
| Detections.TimeAgo | src/components/dashboard/LatestMentions.tsx:12-23 | invalid exactly for a NaN date; otherwise seconds, minutes, hours, days or the absolute date, each bucket iff the elapsed seconds fall in its range, and each count in its unit's bounds |
| Detections.FutureIsJustNow | src/components/dashboard/LatestMentionsPerArtist.tsx:23-29 | a timestamp later than the current instant reads "Hace unos segundos" |
| Detections.AgoText | src/components/dashboard/LatestMentions.tsx:17-20 | the relative buckets, and only they, have a text, and it starts with "Hace " |
| Detections.Later | src/components/dashboard/ArtistRanking.tsx:133 | `new Date(a) > new Date(b)`: false when either stamp is NaN, otherwise the comparison of instants |
| Detections.LaterStrictOrder | src/components/dashboard/ArtistRanking.tsx:133 | among parseable stamps `Later` is irreflexive, asymmetric and transitive; an unparseable stamp is neither later nor earlier than any |
| Tally.Keys | src/components/reports/DateComparison.tsx:84 | the keys of a tally, one per entry, in entry order |
| Tally.TotalIncrement | src/components/reports/DateComparison.tsx:28 | bumping one entry adds one to the sum of the counts |
| Tally.IndexOf | src/components/reports/DateComparison.tsx:28 | the position of a key among those seen so far, or -1 exactly when it is absent |
| Tally.CountSeenKey | src/components/reports/DateComparison.tsx:27-29 | a key seen before increments its entry and keeps the tally of the keys so far |
| Tally.CountNewKey | src/components/reports/DateComparison.tsx:27-29 | a new key appends an entry with count 1 and keeps the tally |
| Tally.CountByKey | src/components/reports/DateComparison.tsx:26-29 | the `Map` counting pass: each distinct key once in first-occurrence order, with its number of occurrences; the counts add up to the number of keys |
| Tally.CountOne | src/components/reports/DateComparison.tsx:28 | one pass of the counting loop keeps the tally |
| Calendar.DaysInMonth | src/components/reports/SaturationCalendar.tsx:14-15 | a month has 28 to 31 days |
| Calendar.YearLength | src/components/reports/SaturationCalendar.tsx:35-39 | a year has 365 or 366 days |
| Calendar.MonthsMakeYear | src/components/reports/SaturationCalendar.tsx:15 | the twelve months add up to the year |
| Calendar.NextYear | src/components/reports/DateComparison.tsx:22 | day numbers advance by a year's length from one first of January to the next |
| Calendar.Weekday | src/components/reports/SaturationCalendar.tsx:76 | `getDay()` lies in 0..6 and advances with the day number from Thursday, 1 January 1970 |
| Calendar.WeekdayPeriodic | src/components/reports/SaturationCalendar.tsx:67-76 | the weekday repeats every seven days |
| Calendar.WeekdayOf | src/components/reports/DateComparison.tsx:64 | the weekday of a date lies in 0..6 |
| Calendar.NextDay | src/components/reports/OpportunitiesReport.tsx:15 | the next calendar day is a valid date one day number later |
| Calendar.AddDays | src/components/reports/OpportunitiesReport.tsx:61 | `addDays(d, n)` is a valid date `n` day numbers later |
| Calendar.DayNumberInjective | src/components/reports/DateComparison.tsx:17-22 | two valid dates are the same day iff their day numbers agree |
| Calendar.BeforeMeansEarlier | src/lib/filterEvents.ts:9-10 | a date earlier in calendar order has a smaller day number |
| Calendar.MonthBound | src/components/reports/SaturationCalendar.tsx:14 | a month ends inside its year |
| Calendar.MonthsApart | src/components/reports/SaturationCalendar.tsx:14 | a later month starts at least a month's length later |
| Calendar.YearsApart | src/components/reports/SaturationCalendar.tsx:35 | a later year starts at least a year's length later |
| Calendar.OrderAgrees | src/lib/filterEvents.ts:9-10 | calendar order is the order of day numbers, both directions |
| Calendar.PreviousMonthStart | src/components/reports/SaturationCalendar.tsx:34-36 | `new Date(y, m - 1, 1)` is the first of the month before, rolling back into December of the year before |
| Calendar.NextMonthStart | src/components/reports/SaturationCalendar.tsx:38-40 | `new Date(y, m + 1, 1)` is the first of the month after, rolling into January of the next year |
| Calendar.NextAfterPrevious | src/components/reports/SaturationCalendar.tsx:34-40 | back a month then forward a month lands on the first of the starting month |
| Calendar.PreviousAfterNext | src/components/reports/SaturationCalendar.tsx:34-40 | forward a month then back a month lands on the first of the starting month |
| Calendar.MonthDays | src/components/reports/SaturationCalendar.tsx:13-15 | `eachDayOfInterval` over the month gives one date per day, the i-th being day i + 1 |
| Calendar.DaysUpTo | src/components/reports/SaturationCalendar.tsx:15 | the first `n` days of a month, in order |
| Calendar.MonthDaysConsecutive | src/components/reports/SaturationCalendar.tsx:13-15 | the grid runs from the first to the last day of the month, each cell the day after the previous |
| Catalog.CapacityOrZero | src/components/reports/DateComparison.tsx:31 | `e.capacity \|\| 0`: the capacity, or 0 when missing |
| Catalog.OccupancyOrDefault | src/components/reports/DateComparison.tsx:33 | `e.occupancyRate \|\| 75`: the rate, or 75 when missing or 0 |
| Catalog.DayDistance | src/components/reports/DateComparison.tsx:22 | the absolute distance in days is 0 iff the dates are the same day |
| Catalog.TotalCapacity | src/components/reports/DateComparison.tsx:31 | 0 for no events, and positive only if some event has a capacity |
| Catalog.EventsOnDate | src/components/reports/DateComparison.tsx:16-18 | an event is kept iff its date parses and falls on the day, in catalogue order |
| Catalog.EventsOnDateISO | src/components/reports/SaturationCalendar.tsx:17-25 | the same filter on `dateISO`; a date that does not parse is never on the day |
| Catalog.Genres | src/components/reports/DateComparison.tsx:27-28 | the genre of each event, in order |
| EventsRanking.DiasFromContext | src/components/dashboard/EventsRanking.tsx:96-106 | `getDiasFromContext` is one of 0, 7, 14, 30, 60, 90, and 0 for a missing or empty range |
| EventsRanking.FirstMatchWins | src/components/dashboard/EventsRanking.tsx:98-105 | "todos" in any case gives 0; otherwise the first of "7", "14", "30", "60", "90"/"3 meses" contained in the lower-cased text decides, each case an iff |
| EventsRanking.NoDigitNoWindow | src/components/dashboard/EventsRanking.tsx:100-105 | a text without digits (such as "Este mes") gives 0 |
| EventsRanking.AppendIf | src/components/dashboard/EventsRanking.tsx:115-127 | one conditional `params.append`: the parameter is present iff its condition holds, with its value, after every earlier one |
| EventsRanking.QueryParams | src/components/dashboard/EventsRanking.tsx:113-127 | parameters in the order pais, ciudad, venue, dias; each sent exactly when set and not "Todos" (ciudad also not "Todas"), dias exactly when positive, each with its own value |
| EventsRanking.SentAsKept | src/components/dashboard/EventsRanking.tsx:113-127 | appending under one name leaves what is sent under any other name unchanged |
| EventsRanking.LowercaseVenueSent | src/components/dashboard/EventsRanking.tsx:115-123 | a lower-case venue "todos" is still sent, while country "Todos" and city "Todas" are not |
| EventsRanking.EventsOf | src/components/dashboard/EventsRanking.tsx:134-139 | an array response is taken as is; any other response or a failure gives no events |
| EventsRanking.KeepSorted | src/components/dashboard/EventsRanking.tsx:154-160 | filter then sort descending: exactly the kept events, as a permutation of the filter's result, highest key first |
| EventsRanking.Tabbed | src/components/dashboard/EventsRanking.tsx:149-165 | "spots" keeps only Spots > 0 sorted by Spots, "mentions" only Menciones > 0 sorted by Menciones, any other tab every event sorted by Total, all descending and permutations of what is kept |
| EventsRanking.EventsView.constructor | src/components/dashboard/EventsRanking.tsx:87-90 | no events and the "all" tab |
| EventsRanking.EventsView.Load | src/components/dashboard/EventsRanking.tsx:136-139 | `setEvents` stores the response's events and leaves the tab |
| EventsRanking.EventsView.SelectTab | src/components/dashboard/EventsRanking.tsx:484 | `setActiveTab` changes the tab only |
| EventsRanking.EventsView.FilteredAndSorted | src/components/dashboard/EventsRanking.tsx:149-165 | the tab's view of the stored events, which holds no event more often than the store; the store itself is not reordered |
| EventsRanking.FilterSubMultiset | src/components/dashboard/EventsRanking.tsx:155-159 | a filter holds no element more often than its input |
| EventsRanking.Initial | src/components/dashboard/EventsRanking.tsx:53-54 | `getInitial`: "?" for an empty artist, else the upper-cased first character |
| EventsRanking.EveryArtistColoured | src/components/dashboard/EventsRanking.tsx:56-69 | every artist's initial, "?" included, gets a colour index below 8; "?" gets 7 |
| LatestMentions.Matching | src/components/dashboard/LatestMentions.tsx:76-77 | a detection is kept iff it is in the feed, in the selected city (or "todos") and of the selected type (or "todos"), in feed order |
| LatestMentions.Filtered | src/components/dashboard/LatestMentions.tsx:76-78 | `filteredDetecciones` is a prefix of the matching detections of length min(limit, matches), a subsequence of the feed, and every item passes both filters |
| LatestMentions.TabItems | src/components/dashboard/LatestMentions.tsx:321-342 | the "all" tab lists the cut list itself; "mentions" and "spots" list exactly its MENCION and SPOT items, in order |
| LatestMentions.OtherTypesOnlyUnderAll | src/components/dashboard/LatestMentions.tsx:334-341 | a detection of another type appears under "all" and under neither typed tab |
| LatestMentions.TabsWithinAll | src/components/dashboard/LatestMentions.tsx:321-342 | the two typed tabs together hold no more items than the "all" tab |
| LatestMentions.ConfidenceBand | src/components/dashboard/LatestMentions.tsx:38-42 | green iff confidence >= 0.9, amber iff 0.7 <= confidence < 0.9, red iff below 0.7 |
| LatestMentionsPerArtist.ArtistName | src/components/dashboard/LatestMentionsPerArtist.tsx:56 | a non-empty prop wins; otherwise the route parameter, or the empty name when there is none |
| LatestMentionsPerArtist.ArtistDetections | src/components/dashboard/LatestMentionsPerArtist.tsx:80-82 | a detection is kept iff its artist equals the name ignoring case, in feed order |
| LatestMentionsPerArtist.CaseBlind | src/components/dashboard/LatestMentionsPerArtist.tsx:81 | the name written in lower case selects exactly the same detections |
| LatestMentionsPerArtist.NamedVenues | src/components/dashboard/LatestMentionsPerArtist.tsx:93 | the venue list holds every named venue of the matches, only those, never the empty name or the placeholder, each once |
| LatestMentionsPerArtist.NamedVenuesOrder | src/components/dashboard/LatestMentionsPerArtist.tsx:93 | the named venues are listed in the order in which the matches first name them, as the `Set` keeps insertion order |
| LatestMentionsPerArtist.Latest | src/components/dashboard/LatestMentionsPerArtist.tsx:96-107 | the first of the newest-first order is a match no other match is later than |
| LatestMentionsPerArtist.Earliest | src/components/dashboard/LatestMentionsPerArtist.tsx:96-108 | the last of the newest-first order is a match no other match is earlier than |
| LatestMentionsPerArtist.StatsOf | src/components/dashboard/LatestMentionsPerArtist.tsx:88-109 | the total is the number of matches and spots plus mentions never exceed it |
| LatestMentionsPerArtist.ValuesOnce | src/components/dashboard/LatestMentionsPerArtist.tsx:91-92 | `[...new Set(...)]` holds each value some match has, each once, in the order the matches first show them |
| LatestMentionsPerArtist.StatsFacts | src/components/dashboard/LatestMentionsPerArtist.tsx:91-93 | cities and stations are exactly those of the matches, without repeats and in order of first appearance; venues are named and in order of first appearance |
| LatestMentionsPerArtist.Figures | src/components/dashboard/LatestMentionsPerArtist.tsx:88-108 | the total is the number of matches and spots plus mentions never exceed it; each count is zero iff no match has that type; cities and stations are exactly those of the matches, each once, in order of first appearance; venues are named and in order of first naming; `newest` and `oldest` are matches no other match is later or earlier than, and the two stamps are theirs; and the figures are `StatsOf(matches)`, the object ArtistPage stores |
| LatestMentionsPerArtist.Extremes | src/components/dashboard/LatestMentionsPerArtist.tsx:96-108 | `ultimaDeteccion` is the stamp of a latest match and `primeraDeteccion` that of an earliest one |
| LatestMentionsPerArtist.TypedWithinTotal | src/components/dashboard/LatestMentionsPerArtist.tsx:89-90 | the SPOT count plus the MENCION count is at most the number of matches |
| LatestMentionsPerArtist.ArtistPage.constructor | src/components/dashboard/LatestMentionsPerArtist.tsx:58-71 | the page starts with no detections and the zero figures |
| LatestMentionsPerArtist.ArtistPage.Show | src/components/dashboard/LatestMentionsPerArtist.tsx:84-110 | stores the matches, the first `limit` of them and, only when there is a match, their figures; otherwise the figures stay |
| LatestMentionsPerArtist.ArtistPage.Load | src/components/dashboard/LatestMentionsPerArtist.tsx:73-124 | without a name or on a failed fetch nothing changes; otherwise the stored detections are the artist's and the shown list and figures are coherent with them |
| LatestMentionsPerArtist.FirstLoadWithoutMatches | src/components/dashboard/LatestMentionsPerArtist.tsx:62-88 | on a fresh page an artist without detections shows the zero figures and an empty list |
| ArtistRanking.Group | src/components/dashboard/ArtistRanking.tsx:97-100 | the detections filed under key `k` are exactly those whose lower-cased artist is `k`, and the group is non-empty iff `k` is a key of the feed |
| ArtistRanking.GroupSnoc | src/components/dashboard/ArtistRanking.tsx:97-121 | one more detection extends its own artist's group by itself and leaves the rest |
| ArtistRanking.RefreshAsWritten | src/components/dashboard/ArtistRanking.tsx:133-142 | the refresh as written always leaves the venue undefined |
| ArtistRanking.RefreshAsWrittenLosesVenue | src/components/dashboard/ArtistRanking.tsx:136 | as written the refreshed entry's `venue` is undefined, so it never carries all of the newer detection's fields; the corrected refresh always does |
| ArtistRanking.Refresh | src/components/dashboard/ArtistRanking.tsx:133-142 | the refreshed entry carries the newer detection's fields and its stamp, and keeps its counters and identity |
| ArtistRanking.New | src/components/dashboard/ArtistRanking.tsx:100-118 | a new entry counts nothing yet, takes the detection's identity and carries its fields with its `Hora` as the latest |
| ArtistRanking.Spots | src/components/dashboard/ArtistRanking.tsx:124-128 | the number of spots is at most the group's size, and 0 exactly when no detection is a spot |
| ArtistRanking.Summary | src/components/dashboard/ArtistRanking.tsx:97-143 | an artist's entry counts one per detection and keeps its first detection's id, name, `hora` and station id |
| ArtistRanking.Step | src/components/dashboard/ArtistRanking.tsx:121-142 | one pass of the `forEach` body increments `conteo` by one |
| ArtistRanking.StepFacts | src/components/dashboard/ArtistRanking.tsx:121-142 | one pass counts the detection as a spot or else a mention, keeps total = spots + mentions and the identity, and shows the detection iff it is strictly later |
| ArtistRanking.SummaryFacts | src/components/dashboard/ArtistRanking.tsx:97-143 | an artist's entry counts all its detections, splits them into spots and mentions, keeps its first detection's identity, shows one of its detections, and ends on the latest valid stamp when the first stamp is valid |
| ArtistRanking.SummaryCounts | src/components/dashboard/ArtistRanking.tsx:121-130 | an artist's entry has total = spots + mentions = the number of its detections, the spots being those of type "SPOT" |
| ArtistRanking.SummaryShows | src/components/dashboard/ArtistRanking.tsx:132-142 | an artist's entry shows one of its own detections, with that detection's stamp as the latest |
| ArtistRanking.SummaryLatest | src/components/dashboard/ArtistRanking.tsx:132-142 | when the first stamp parses, the entry's latest stamp is at least every parseable stamp of the group |
| ArtistRanking.SummarySnoc | src/components/dashboard/ArtistRanking.tsx:121-142 | the summary of a group plus one detection is one pass over the summary of the group |
| ArtistRanking.SumConteoUpdate | src/components/dashboard/ArtistRanking.tsx:122 | replacing one entry changes the sum of counters by the difference of the two |
| ArtistRanking.SumConteoSnoc | src/components/dashboard/ArtistRanking.tsx:101-122 | adding an entry adds its counter to the sum |
| ArtistRanking.SeenArtist | src/components/dashboard/ArtistRanking.tsx:121-142 | a detection of a known artist keeps the map one summary per key, in first-occurrence order, with counters adding up to the detections |
| ArtistRanking.NewArtist | src/components/dashboard/ArtistRanking.tsx:100-142 | a detection of a new artist appends its key and entry and keeps the same invariant |
| ArtistRanking.NewEntries | src/components/dashboard/ArtistRanking.tsx:100-119 | after a new artist's first detection each entry is the summary of its key's group |
| ArtistRanking.NewKey | src/components/dashboard/ArtistRanking.tsx:100-101 | a new key is appended to the keys in first-occurrence order |
| ArtistRanking.OtherGroup | src/components/dashboard/ArtistRanking.tsx:98-121 | a detection leaves every other artist's group as it was |
| ArtistRanking.OwnGroup | src/components/dashboard/ArtistRanking.tsx:100-119 | the first detection of a key forms its group alone |
| ArtistRanking.AddDetection | src/components/dashboard/ArtistRanking.tsx:97-143 | one pass of the `forEach` keeps the map the grouping of the detections seen so far |
| ArtistRanking.GroupDetections | src/components/dashboard/ArtistRanking.tsx:95-143 | `artistasMap` holds one entry per distinct lower-cased artist, in first-occurrence order, each the summary of its detections, with counters adding up to the number of detections |
| ArtistRanking.TopConteo | src/components/dashboard/ArtistRanking.tsx:146-150 | an entry no top artist names keeps its counter |
| ArtistRanking.MergeTop | src/components/dashboard/ArtistRanking.tsx:146-158 | the merge adds no entry and only replaces `conteo` by the last matching top artist's count; the `total === 0` branch is unreachable |
| ArtistRanking.GroupedReady | src/components/dashboard/ArtistRanking.tsx:146-158 | a grouping has distinct keys and entries whose total is positive and whose counter is their group's size |
| ArtistRanking.Calculate | src/components/dashboard/ArtistRanking.tsx:91-161 | `eventosCalculados` is empty without detections; otherwise one merged summary per artist key, in first-occurrence order |
| ArtistRanking.Merged | src/components/dashboard/ArtistRanking.tsx:91-161 | a merged table is empty exactly when there are no detections |
| ArtistRanking.MergedOnePerArtist | src/components/dashboard/ArtistRanking.tsx:97-101 | a merged table holds one entry per artist compared without case, and every detected artist has one |
| ArtistRanking.CountersAddUp | src/components/dashboard/ArtistRanking.tsx:122-130 | without top-artist counts, `conteo`, `total` and spots plus mentions all equal the size of the artist's group |
| ArtistRanking.FieldOf | src/components/dashboard/ArtistRanking.tsx:180-201 | "date", "spots", "mentions", "confidence" each pick their column, each iff; any other value sorts by total |
| ArtistRanking.SortValue | src/components/dashboard/ArtistRanking.tsx:180-201 | the date column is the instant of `ultimaDeteccion` and 0 when it does not parse; the count columns are never negative; with agreeing counters the total column is spots plus mentions |
| ArtistRanking.Selection | src/components/dashboard/ArtistRanking.tsx:167-177 | an entry is kept iff it passes the city, type and station filters that are not "todos", in order |
| ArtistRanking.Ranked | src/components/dashboard/ArtistRanking.tsx:163-202 | the ranking is a permutation of the selection, sorted highest first on the chosen column |
| ArtistRanking.Ranking.constructor | src/components/dashboard/ArtistRanking.tsx:91 | the component starts from the computed entries |
| ArtistRanking.Ranking.FilteredAndSorted | src/components/dashboard/ArtistRanking.tsx:163-202 | returns the ranking; with no filter active `sort` reorders `eventosCalculados` itself in place, otherwise it is unchanged |
| DateComparison.NearbyEvents | src/components/reports/DateComparison.tsx:20-24 | an event is nearby iff its date parses and lies 1 to 7 days from the selected day, on either side; never on the day itself |
| DateComparison.Nearby | src/components/reports/DateComparison.tsx:20-24 | an event is near the day iff its date parses, is not the day, and lies within 7 days of it on either side |
| DateComparison.AverageOccupancy | src/components/reports/DateComparison.tsx:32-34 | 0 with no events, else the mean of the rates with a missing or zero rate read as 75 |
| DateComparison.SameDayImpact | src/components/reports/DateComparison.tsx:40-49 | +20 iff no event that day, -30 iff 5 or more, -15 iff 3 or 4, 0 iff 1 or 2 |
| DateComparison.NearbyImpact | src/components/reports/DateComparison.tsx:51-57 | +15 iff fewer than 3 nearby events, -20 iff more than 10, 0 iff 3 to 10 |
| DateComparison.CapacityImpact | src/components/reports/DateComparison.tsx:59-62 | -10 iff the committed capacity exceeds 50000, else 0 |
| DateComparison.WeekendImpact | src/components/reports/DateComparison.tsx:64-68 | +10 iff the day is a Friday or Saturday, else 0 |
| DateComparison.RawScore | src/components/reports/DateComparison.tsx:37-68 | the score before clamping lies between 40 and 145 |
| DateComparison.TotalImpactSnoc | src/components/reports/DateComparison.tsx:38 | pushing a factor adds its impact to the total |
| DateComparison.Push | src/components/reports/DateComparison.tsx:41-42 | a push and the matching `recommendationScore` change keep the factors accounting for the score |
| DateComparison.SameDayStep | src/components/reports/DateComparison.tsx:40-49 | the same-day band changes the score by its impact and pushes at most one well-marked factor |
| DateComparison.NearbyStep | src/components/reports/DateComparison.tsx:51-57 | the nearby band changes the score by its impact and pushes at most one well-marked factor |
| DateComparison.CapacityAndWeekendSteps | src/components/reports/DateComparison.tsx:59-68 | the capacity and weekend adjustments change the score by their impacts and push at most two factors |
| DateComparison.Recommend | src/components/reports/DateComparison.tsx:37-70 | the factors' impacts account for the unclamped score, each factor is positive iff it raises the score, at most four are pushed, and the shown score is the clamp to 0..100, always at least 40 |
| DateComparison.LevelOf | src/components/reports/DateComparison.tsx:72-77 | Excelente iff >= 80, Buena iff 60..79, Media iff 40..59, Baja iff below 40 |
| DateComparison.LevelMonotone | src/components/reports/DateComparison.tsx:72-77 | a higher score never gets a lower level |
| DateComparison.Analyze | src/components/reports/DateComparison.tsx:13-92 | nothing iff no day is selected; otherwise the same-day and nearby events, a genre breakdown counting each genre once with its occurrences and adding up to the same-day count, the capacity, occupancy and weekday, and a score in 40..100 whose level is never Baja |
| ArtistRecommendation.CitiesOf | src/components/dashboard/ArtistRecommendation.tsx:104-116 | an unknown country has no cities; a known one gets exactly the cities of its (first) entry |
| ArtistRecommendation.CityNames | src/components/dashboard/ArtistRecommendation.tsx:103-105 | the names of the country's cities, in key order |
| ArtistRecommendation.ArtistsOf | src/components/dashboard/ArtistRecommendation.tsx:117 | an unknown city has no artists; a known one gets exactly the artists of its (first) entry |
| ArtistRecommendation.ByGenre | src/components/dashboard/ArtistRecommendation.tsx:120-122 | "Todos" keeps the list; any other genre keeps exactly its artists, in order |
| ArtistRecommendation.Artists | src/components/dashboard/ArtistRecommendation.tsx:115-131 | the shown artists are a permutation of the city's artists of the genre, sorted highest first on the digital, radio or combined score |
| ArtistRecommendation.UnknownPlaceIsEmpty | src/components/dashboard/ArtistRecommendation.tsx:116-117 | a country or city missing from the table shows no artists |
| ArtistRecommendation.CombinedScore | src/components/dashboard/ArtistRecommendation.tsx:133-135 | the rounded even blend lies between the two scores and equals them when they agree |
| ArtistRecommendation.ShownScoresDescend | src/components/dashboard/ArtistRecommendation.tsx:127-134 | in combined order the displayed rounded scores never increase down the list |
| ArtistRecommendation.Selection.constructor | src/components/dashboard/ArtistRecommendation.tsx:98-101 | the panel starts on México, CDMX, every genre, combined order |
| ArtistRecommendation.Selection.SelectCountry | src/components/dashboard/ArtistRecommendation.tsx:107-113 | a new country keeps the city when the country has it, else moves to its first city, or "" when it has none |
| ArtistRecommendation.Selection.Shown | src/components/dashboard/ArtistRecommendation.tsx:115-131 | the list for the current selection is the permuted, sorted genre selection |
| SaturationCalendar.SaturationOf | src/components/reports/SaturationCalendar.tsx:27-32 | none iff no event, low iff 1 or 2, medium iff 3 or 4, high iff 5 or more |
| SaturationCalendar.SaturationMonotone | src/components/reports/SaturationCalendar.tsx:27-32 | more events never show a lighter level |
| SaturationCalendar.CellOf | src/components/reports/SaturationCalendar.tsx:81-84 | a day's cell holds exactly the events whose `dateISO` falls on it, their saturation, and marks today iff it is today |
| SaturationCalendar.MonthView.constructor | src/components/reports/SaturationCalendar.tsx:11 | the view opens on the current date |
| SaturationCalendar.MonthView.PreviousMonth | src/components/reports/SaturationCalendar.tsx:34-36 | moves to the first of the month before |
| SaturationCalendar.MonthView.NextMonth | src/components/reports/SaturationCalendar.tsx:38-40 | moves to the first of the month after |
| SaturationCalendar.MonthView.Blanks | src/components/reports/SaturationCalendar.tsx:76-78 | the blank cells before the first day number its weekday, at most 6 |
| SaturationCalendar.MonthView.Cells | src/components/reports/SaturationCalendar.tsx:81-84 | one cell per day of the shown month, the i-th the cell of day i + 1 |
| SaturationCalendar.GridColumns | src/components/reports/SaturationCalendar.tsx:66-81 | the blanks and the days fit in six rows of seven, and every day sits in its weekday's column |
| SaturationCalendar.DayColumn | src/components/reports/SaturationCalendar.tsx:76-81 | day i + 1 sits i columns after the first of the month |
| SaturationCalendar.SameColumn | src/components/reports/SaturationCalendar.tsx:67 | moving i days moves i columns, modulo 7 |
| SaturationCalendar.BackAndForth | src/components/reports/SaturationCalendar.tsx:34-40 | back a month then forward a month shows the first of the month one started in |
| GenreCompetition.CompetesSymmetric | src/components/reports/GenreCompetition.tsx:30-42 | competition is mutual: a competes with b iff b competes with a |
| GenreCompetition.Competitors | src/components/reports/GenreCompetition.tsx:30-42 | the competitors of an event are exactly the catalogue events with another id in the same city whose parsed `dateISO` lies within four days, in catalogue order; never the event itself, and none when its own date does not parse |
| GenreCompetition.LevelOf | src/components/reports/GenreCompetition.tsx:44-46 | Baja iff no competitor, Media iff 1 or 2, Alta iff 3 or more |
| GenreCompetition.ScoreOf | src/components/reports/GenreCompetition.tsx:48-74 | a row carries the event, its competitors, their number, its level and the competitors' capacity |
| GenreCompetition.Selected | src/components/reports/GenreCompetition.tsx:21-23 | "todos" selects the whole catalogue; a genre selects exactly its events |
| GenreCompetition.GenreOptions | src/components/reports/GenreCompetition.tsx:15-18 | the selector offers "todos" first, then every genre of the catalogue once, and nothing else |
| GenreCompetition.EveryOptionSelects | src/components/reports/GenreCompetition.tsx:15-23 | every genre offered after "todos" selects at least one event |
| GenreCompetition.CompetitionData | src/components/reports/GenreCompetition.tsx:20-76 | one row per selected event, a permutation of the scored rows, ordered by ascending number of competitors |
| GenreCompetition.RowsScoreWholeCatalog | src/components/reports/GenreCompetition.tsx:25-42 | every row scores a selected event against the whole catalogue, whatever the genre, and never lists the event among its competitors |
| GenreCompetition.LevelCount | src/components/reports/GenreCompetition.tsx:79-82 | a level's count never exceeds the number of rows |
| GenreCompetition.ChartCounts | src/components/reports/GenreCompetition.tsx:78-88 | each chart bar is the number of rows at its level, and the three add up to the number of rows |
| OpportunitiesReport.CandidateDays | src/components/reports/OpportunitiesReport.tsx:11-15 | `eachDayOfInterval` from today to today + 90 gives 91 days, the i-th being today + i |
| OpportunitiesReport.NearDay | src/components/reports/OpportunitiesReport.tsx:24-29 | an event is near the day iff its date parses, is not the day, and lies within 3 days of it on either side |
| OpportunitiesReport.AnalyzeDay | src/components/reports/OpportunitiesReport.tsx:18-39 | a day's entry counts the events on it and the events within three days of it but not on it, and scores the first count plus 0.3 per nearby event |
| OpportunitiesReport.AllDays | src/components/reports/OpportunitiesReport.tsx:15-40 | `dayAnalysis` is the entry of each of the 91 candidate days, in order |
| OpportunitiesReport.Quiet | src/components/reports/OpportunitiesReport.tsx:31-44 | for a day's score, at most 1 means no event and at most three nearby, or one event and none nearby, both directions |
| OpportunitiesReport.Opportunities | src/components/reports/OpportunitiesReport.tsx:43-46 | at most 15 quiet days, min(15, quiet days) of them, ascending by score, a sub-multiset of the quiet candidate days (no day listed twice), and no quiet day left out scores lower than one listed |
| OpportunitiesReport.OpportunitiesFacts | src/components/reports/OpportunitiesReport.tsx:43-46 | the first min(15, quiet days) of the sorted quiet days are sorted, quiet, of a quiet shape and the lowest-scoring |
| OpportunitiesReport.ListedShape | src/components/reports/OpportunitiesReport.tsx:31-44 | every listed quiet day has one of the two quiet shapes |
| OpportunitiesReport.BadgeOf | src/components/reports/OpportunitiesReport.tsx:95-99 | Excelente iff the score is 0, Muy Buena iff it is non-zero and at most 0.5, Buena iff above 0.5 |
| OpportunitiesReport.BadgesOfListedDays | src/components/reports/OpportunitiesReport.tsx:95-116 | on a listed day, Excelente iff nothing on or near the day, Muy Buena iff exactly one nearby event and nothing on the day |
| OpportunitiesReport.FirstFree | src/components/reports/OpportunitiesReport.tsx:60-67 | the first index from `i` whose day has no event of the genre, with every earlier one busy, or none when all are busy |
| OpportunitiesReport.SearchDays | src/components/reports/OpportunitiesReport.tsx:60-61 | the 90 days today + 0 to today + 89 |
| OpportunitiesReport.NextAvailable | src/components/reports/OpportunitiesReport.tsx:57-67 | the `for` loop with `break` finds exactly the first free day of the ninety, or none |
| OpportunitiesReport.SaturationOf | src/components/reports/OpportunitiesReport.tsx:73 | Baja iff the average is below 0.3, Media iff 0.3 to below 0.6, Alta iff 0.6 or more |
| OpportunitiesReport.SaturationByCount | src/components/reports/OpportunitiesReport.tsx:54-73 | over 90 days, fewer than 27 events is Baja, fewer than 54 Media, otherwise Alta |
| OpportunitiesReport.HundredthsStrict | src/components/reports/OpportunitiesReport.tsx:72-76 | rounding the average to hundredths keeps different counts apart |
| OpportunitiesReport.Hundredths | src/components/reports/OpportunitiesReport.tsx:54-72 | the average to two decimals, in hundredths: non-negative and within half a hundredth of count / 90 |
| OpportunitiesReport.GenreEvents | src/components/reports/OpportunitiesReport.tsx:53 | the events of exactly that genre |
| OpportunitiesReport.GenreRowOf | src/components/reports/OpportunitiesReport.tsx:52-75 | the genre's count, rounded average and saturation; `nextAvailable` is today plus the first free offset of the 90-day search, a day with no event of the genre, and absent exactly when every searched day has one |
| OpportunitiesReport.GenreRowFor | src/components/reports/OpportunitiesReport.tsx:52-75 | one pass of the `map` callback computes the genre's row |
| OpportunitiesReport.CountOrder | src/components/reports/OpportunitiesReport.tsx:76 | rows sorted by rounded average are sorted by number of events |
| OpportunitiesReport.GenreRows | src/components/reports/OpportunitiesReport.tsx:52 | the row of each genre, in order |
| OpportunitiesReport.GenreRowsSnoc | src/components/reports/OpportunitiesReport.tsx:52 | one more genre appends its row |
| OpportunitiesReport.SortedGenreRows | src/components/reports/OpportunitiesReport.tsx:76 | the sorted genre rows run from fewest events to most |
| OpportunitiesReport.GenreOpportunities | src/components/reports/OpportunitiesReport.tsx:49-77 | `genreOpportunities` is the rows of the distinct genres in first-appearance order, sorted by rounded average |
| OpportunitiesReport.Venues | src/components/reports/OpportunitiesReport.tsx:80 | the venue of each event, in order |
| OpportunitiesReport.VenueRowOf | src/components/reports/OpportunitiesReport.tsx:82-91 | a venue's row counts its events (at least one), takes the first event's capacity and the mean occupancy with 75 for a missing or zero rate |
| OpportunitiesReport.VenueHasEvents | src/components/reports/OpportunitiesReport.tsx:80-83 | every venue of the catalogue has an event, so the mean never divides by zero |
| OpportunitiesReport.VenueOpportunities | src/components/reports/OpportunitiesReport.tsx:79-93 | one row for every distinct catalogue venue and no venue twice, each its venue's row, fewest events first |
| TemporalMetrics.MonthIndex | src/components/reports/TemporalMetrics.tsx:19-20 | `getMonth` gives a month 0..11 iff `dateISO` parses to a real day |
| TemporalMetrics.WeekdayIndex | src/components/reports/TemporalMetrics.tsx:45-46 | `getDay` gives a weekday 0..6 iff `dateISO` parses to a real day |
| TemporalMetrics.BinCount | src/components/reports/TemporalMetrics.tsx:17-27 | a bin's count is at most the number of events |
| TemporalMetrics.BinCountPositive | src/components/reports/TemporalMetrics.tsx:17-27 | a bin's count is positive iff some event falls in the bin |
| TemporalMetrics.BinTotal | src/components/reports/TemporalMetrics.tsx:22 | an empty month adds up no capacity |
| TemporalMetrics.BinRevenue | src/components/reports/TemporalMetrics.tsx:48 | an empty weekday has no revenue, and a weekday's revenue is never negative when no event's is |
| TemporalMetrics.CountsBelowEmpty | src/components/reports/TemporalMetrics.tsx:11-15 | with no events every bin is empty |
| TemporalMetrics.CountsBelowSnoc | src/components/reports/TemporalMetrics.tsx:17-23 | one more event adds one to the bins below `k` iff its bin is below `k` |
| TemporalMetrics.BinsAddUp | src/components/reports/TemporalMetrics.tsx:17-27 | when every bin index is below `n`, the counts of bins 0..n-1 add up to the events that fall in a bin |
| TemporalMetrics.MonthlyData | src/components/reports/TemporalMetrics.tsx:10-30 | twelve bins named after the months, each counting its month's events and adding up their capacity, 0 when missing |
| TemporalMetrics.MonthsAddUp | src/components/reports/TemporalMetrics.tsx:17-27 | the twelve monthly counts add up to the events whose date parses, never more than all events |
| TemporalMetrics.BinnedBound | src/components/reports/TemporalMetrics.tsx:24-26 | an event whose date throws is skipped, so at most every event is counted |
| TemporalMetrics.EstimatedRevenue | src/components/reports/TemporalMetrics.tsx:48 | capacity (0 when missing) times occupancy (75 when missing or 0) times 50; nothing without a capacity |
| TemporalMetrics.WeekdayData | src/components/reports/TemporalMetrics.tsx:32-56 | seven bins, Sunday first, each counting its weekday's events and adding up their estimated revenue |
| TemporalMetrics.WeekdaysAddUp | src/components/reports/TemporalMetrics.tsx:43-53 | the weekday counts add up to the events whose date parses, the same number the months count |
| TemporalMetrics.SameBinned | src/components/reports/TemporalMetrics.tsx:19-45 | an event falls in a weekday bin iff it falls in a month bin |
| TemporalMetrics.MostPopular | src/components/reports/TemporalMetrics.tsx:140-143 | the `reduce` picks a bin with the largest count, the earliest on ties |
| TemporalMetrics.GenreDistribution | src/components/reports/TemporalMetrics.tsx:58-69 | each genre once, in first-appearance order, with its number of events; the values add up to the number of events |
| TemporalMetrics.Attendance | src/components/reports/TemporalMetrics.tsx:85 | expected attendance is 0 without a capacity and 75% of it without a rate |
| TemporalMetrics.Venues | src/components/reports/TemporalMetrics.tsx:82-83 | the venue of each event, in order |
| TemporalMetrics.VenueCount | src/components/reports/TemporalMetrics.tsx:86 | a venue's number of events is positive iff it is a venue of the catalogue |
| TemporalMetrics.GroupNames | src/components/reports/TemporalMetrics.tsx:90 | the map's keys, in insertion order |
| TemporalMetrics.SnocSums | src/components/reports/TemporalMetrics.tsx:83-87 | one more event adds one event and its attendance to its own venue's sums only |
| TemporalMetrics.SnocVenues | src/components/reports/TemporalMetrics.tsx:82 | one more event appends its venue |
| TemporalMetrics.GroupSeen | src/components/reports/TemporalMetrics.tsx:83-87 | `venues.set` on a known venue keeps every group the sums of its venue |
| TemporalMetrics.GroupNew | src/components/reports/TemporalMetrics.tsx:83-87 | `venues.set` on a new venue appends a group holding that event alone |
| TemporalMetrics.VenueLoad | src/components/reports/TemporalMetrics.tsx:83-86 | a venue with no events has no attendance |
| TemporalMetrics.NamesNew | src/components/reports/TemporalMetrics.tsx:84 | a new venue is appended to the keys in first-occurrence order |
| TemporalMetrics.NamesSeen | src/components/reports/TemporalMetrics.tsx:84 | a known venue leaves the keys as they were |
| TemporalMetrics.AddToGroups | src/components/reports/TemporalMetrics.tsx:82-88 | one pass of the `forEach` keeps the map the distinct venues with their summed attendance and event counts |
| TemporalMetrics.GroupsNonEmpty | src/components/reports/TemporalMetrics.tsx:93 | every group holds an event, so the mean never divides by zero |
| TemporalMetrics.GroupByVenue | src/components/reports/TemporalMetrics.tsx:80-88 | the map holds each distinct venue once, in first-occurrence order, with its summed attendance and its positive number of events |
| TemporalMetrics.Truncate | src/components/reports/TemporalMetrics.tsx:92 | a name of at most 20 characters is kept; a longer one becomes its first 20 characters and "..." |
| TemporalMetrics.RowOf | src/components/reports/TemporalMetrics.tsx:91-95 | a row shows the shortened name, the number of events and the mean attendance rounded to within one half |
| TemporalMetrics.Rows | src/components/reports/TemporalMetrics.tsx:90-95 | the row of each group, in order |
| TemporalMetrics.TopRows | src/components/reports/TemporalMetrics.tsx:96-97 | the first `n` of a descending order are descending, a sub-multiset of the rows (all of them when n is the whole length), and no row left out is higher than one kept |
| TemporalMetrics.RowsFromGroups | src/components/reports/TemporalMetrics.tsx:90-97 | every row drawn from the groups' rows is the row of some venue group |
| TemporalMetrics.VenueCapacityData | src/components/reports/TemporalMetrics.tsx:79-98 | min(8, venues) rows, highest mean attendance first, a sub-multiset of the venues' rows (every venue's row when there are at most eight), and none left out is higher than one kept |
| EventDetail.Find | src/pages/EventDetail.tsx:63-64 | `find` gives nothing iff no event has the id; otherwise the first event with that id |
| EventDetail.BuzzOf | src/pages/EventDetail.tsx:86-98 | an event's buzz is its generated weekly series with the score, growth and hashtags computed from it |
| EventDetail.DescribesSnoc | src/pages/EventDetail.tsx:86 | one more event's buzz extends the position-by-position correspondence |
| EventDetail.AllEventsBuzz | src/pages/EventDetail.tsx:85-100 | `allEventsBuzz` holds the buzz of every event, in catalogue order |
| EventDetail.CurrentEventBuzz | src/pages/EventDetail.tsx:62-82 | nothing iff no event has the route's id; otherwise the buzz of the first such event, with five influencers sorted by engagement and two or three annotations |
| EventDetail.PoolStep | src/pages/EventDetail.tsx:107-111 | one step of the `flatMap` adds the five influencers of an event exactly when it has the current genre and another id |
| EventDetail.TopThree | src/pages/EventDetail.tsx:114-116 | min(3, pool) influencers, highest engagement first, a sub-multiset of the pool (no influencer in two places), and none left out more engaged than one kept |
| EventDetail.SuggestedInfluencers | src/pages/EventDetail.tsx:103-117 | the suggestions are the top three of a pool of five influencers per similar event, each generated for a similar event; there are three of them, or fewer when the pool is smaller |
| EventDetail.Peak | src/pages/EventDetail.tsx:134-135 | the peak is non-negative, at least every week's mentions, and attained when positive |
| EventDetail.Normalized | src/pages/EventDetail.tsx:133-136 | a week's value lies in 0..100 and is 100 at the event's peak |
| EventDetail.Percentage | src/pages/EventDetail.tsx:135-136 | a rounded share of a positive peak lies in 0..100 and is 100 at the peak |
| EventDetail.TrendData | src/pages/EventDetail.tsx:127-140 | one point per week of the range, labelled "W-range" down to "W-1", each with one value per plotted event taken from week 12 - range + idx |
| EventDetail.TrendWithinScale | src/pages/EventDetail.tsx:129-137 | with generated series every plotted value lies in 0..100 |
| EventDetail.SelectedEvents | src/pages/EventDetail.tsx:123-125 | the current event alone when nothing is compared; otherwise exactly the events whose id is the current or a compared one, in catalogue order |
| EventDetail.Candidates | src/pages/EventDetail.tsx:609-611 | exactly the first three other events of the current city in catalogue order, or all of them when fewer: a prefix of that filter, of length min(3, their count) |
| EventDetail.Comparison.constructor | src/pages/EventDetail.tsx:58 | nothing is compared at first |
| EventDetail.Comparison.Add | src/pages/EventDetail.tsx:605-617 | a click on a candidate, offered only while the list is empty, appends its id |
| EventDetail.Comparison.Remove | src/pages/EventDetail.tsx:638 | a click on a compared event drops exactly that id and keeps the others in order |
| EventDetail.Comparison.Clear | src/pages/EventDetail.tsx:647 | "Limpiar" empties the list |
| EventDetail.MusicCatalog | src/pages/EventDetail.tsx:39-45 | five songs, sorted by ascending chart rank |
| EventDetail.RadioData | src/pages/EventDetail.tsx:47-52 | four stations, most spins first |
| AdvertisingCompliance.AllStations | src/components/dashboard/AdvertisingCompliance.tsx:14-22 | the table has seven stations, each with a real calendar date |
| AdvertisingCompliance.PropOr | src/components/dashboard/AdvertisingCompliance.tsx:30-33 | a passed prop wins; the default applies only when it is not passed |
| AdvertisingCompliance.MonthsBefore | src/components/dashboard/AdvertisingCompliance.tsx:50-54 | `setMonth(getMonth() - k)` lands in the month exactly `k` months earlier, carrying into previous years |
| AdvertisingCompliance.Cutoff | src/components/dashboard/AdvertisingCompliance.tsx:48-54 | no month back is now itself; one or more months back always gives a cutoff strictly before now |
| AdvertisingCompliance.CutoffSameDay | src/components/dashboard/AdvertisingCompliance.tsx:48-54 | when the earlier month has the day, the cutoff is that day at the same time of day |
| AdvertisingCompliance.CutoffOverflows | src/components/dashboard/AdvertisingCompliance.tsx:48-54 | when it does not, the cutoff runs on into the following month by the missing days |
| AdvertisingCompliance.EndOfMarch | src/components/dashboard/AdvertisingCompliance.tsx:49-50 | on 31 March 2025 "1month" counts from 3 March, not from February |
| AdvertisingCompliance.MonthsBack | src/components/dashboard/AdvertisingCompliance.tsx:47-55 | "all" means no period; "1month", "3months", "6months" go back 1, 3, 6 months; any other value leaves the cutoff at now |
| AdvertisingCompliance.FilteredStations | src/components/dashboard/AdvertisingCompliance.tsx:36-64 | a station is shown iff it is of the selected country and city and, unless the period is "all", dated between the cutoff and now |
| AdvertisingCompliance.AllKeepsPlaceOrder | src/components/dashboard/AdvertisingCompliance.tsx:40-63 | with "all" the table is every station of the place, in table order |
| AdvertisingCompliance.ShownInOrder | src/components/dashboard/AdvertisingCompliance.tsx:40-63 | whatever the selection, the shown stations keep their table order |
| AdvertisingCompliance.UnknownPeriodIsNow | src/components/dashboard/AdvertisingCompliance.tsx:47-60 | an unknown period keeps only stations dated at the very instant now |
| AdvertisingCompliance.DefaultView | src/components/dashboard/AdvertisingCompliance.tsx:14-44 | the default view with every period lists exactly FM 99.5, La Buena and FM Classic, in that order |
| AdvertisingCompliance.PacingBadge | src/components/dashboard/AdvertisingCompliance.tsx:133-137 | success iff pacing >= 90, warning iff 80..89, destructive iff below 80 |
| AdvertisingCompliance.BadgeMonotone | src/components/dashboard/AdvertisingCompliance.tsx:133-137 | a better pacing never shows a more severe badge |
| AdvertisingCompliance.ComplianceView.constructor | src/components/dashboard/AdvertisingCompliance.tsx:34 | the period starts as "all" |
| AdvertisingCompliance.ComplianceView.SetDateFilter | src/components/dashboard/AdvertisingCompliance.tsx:73 | the selector stores the chosen period |
| AdvertisingCompliance.ComplianceView.Rows | src/components/dashboard/AdvertisingCompliance.tsx:36-64 | the rows are stations of the table, in order, each at the prop's place or the default place |
| LoginForm.Utf16Length | src/components/login/LoginForm.tsx:44 | `length` counts UTF-16 code units: between the number of characters and twice it, equal inside the Basic Multilingual Plane |
| LoginForm.Test | src/components/login/LoginForm.tsx:45-47 | a `/[…]/.test` holds iff some character of the password is in the class |
| LoginForm.SignUpDisabled | src/components/login/LoginForm.tsx:42-48 | an enabled button implies not loading, a matching confirmation, at least 10 code units, a capital, a digit and a non-alphanumeric character |
| LoginForm.EnabledExactly | src/components/login/LoginForm.tsx:42-48 | the button is enabled iff nothing is loading, the password is strong and the confirmation repeats it |
| LoginForm.PasswordError | src/components/login/LoginForm.tsx:24-30 | the mismatch message shows iff a confirmation has been typed and differs; otherwise nothing |
| LoginForm.EnabledShowsNoError | src/components/login/LoginForm.tsx:24-48 | an enabled button never sits beside the mismatch message |
| LoginForm.EmptyConfirmationSilentButDisabled | src/components/login/LoginForm.tsx:24-48 | an empty confirmation shows no message yet keeps the button disabled |
| LoginForm.NonAsciiIsSpecialNotUpper | src/components/login/LoginForm.tsx:45-47 | a character above ASCII counts as special and never as a capital |
| LoginForm.AccentedLetters | src/components/login/LoginForm.tsx:45-47 | "ñ" passes the special-character test; "Ñ" fails the capital test |
| LoginForm.ButtonRuleBinds | src/components/login/LoginForm.tsx:42-48 | a password that enables the button also passes both inputs' `minLength` of 6 |
| LoginForm.MinLengthIsWeaker | src/components/login/LoginForm.tsx:227-246 | a six-character password passes the inputs yet keeps the button disabled |
| FilterEvents.FilteredEvents | src/lib/filterEvents.ts:5-9 | an event is kept iff its date parses and is not before 24 November 2025, in catalogue order |
| FilterEvents.DroppedEvents | src/lib/filterEvents.ts:6-8 | a dropped event has no readable date or falls before the cutoff |
| FilterEvents.NothingToDrop | src/lib/filterEvents.ts:5-9 | a catalogue dated entirely from the cutoff on is kept whole |
| FilterEvents.CutoffByDayNumber | src/lib/filterEvents.ts:6-8 | the comparison of two midnights is the comparison of day numbers |
| FilterEvents.CountsOf | src/lib/filterEvents.ts:11-13 | the logged counts are the original and kept lengths and their difference, which lies between 0 and the original |
| FilterEvents.EliminatedCountsDropped | src/lib/filterEvents.ts:13 | the eliminated count is exactly the number of events the filter drops |
| FilterEvents.FilterSplit | src/lib/filterEvents.ts:11-13 | the kept and dropped events add up to the catalogue |
| EventImageMapper.LookupAsWritten | src/lib/eventImageMapper.ts:43 | an own key gives its image, a prototype member's name gives that member, anything else the pop image |
| EventImageMapper.InheritedKeyIsNoImage | src/lib/eventImageMapper.ts:43 | "constructor" and "toString" give a member, not an image |
| EventImageMapper.ImageByGenre | src/lib/eventImageMapper.ts:16-44 | wherever the lookup as written gives an image it gives the same one, and every unknown genre gets the pop image |
| EventImageMapper.AgreesOffPrototype | src/lib/eventImageMapper.ts:43 | off the prototype's names the two lookups agree |
| EventImageMapper.PopAliases | src/lib/eventImageMapper.ts:20-34 | Pop Latino and R&B share the pop cover |
| EventImageMapper.RegionalAliases | src/lib/eventImageMapper.ts:22-23 | Corridos Tumbados shares the regional Mexican cover |
| EventImageMapper.RockAliases | src/lib/eventImageMapper.ts:25-39 | four more genres share the rock cover; Rock Alternativo has its own |
| EventImageMapper.MetalAndIndieAliases | src/lib/eventImageMapper.ts:32-38 | Rock/Metal shares the death-metal cover, Indie Pop the folk cover |
| EventImageMapper.CaseSensitive | src/lib/eventImageMapper.ts:43 | the match is exact: "rock", "Electronica" and "" get the fallback |
| EventImageMapper.EveryImageUsed | src/lib/eventImageMapper.ts:1-41 | every imported image is the cover of some genre |

## Left out

- Network I/O is not modelled: `fetchAPI`/`getMentionsResume`, the `fetch` of the events ranking, loading and error state, and the 15-minute polling. The fetched feed or parsed response is a parameter.
- ArtistRanking.GroupDetections: built, like ArtistRanking.Calculate, on the corrected `Refresh` rather than the refresh as written; the two differ only in the `venue` field, which the ranking table does not render (see Findings).
- Rendering is not modelled: JSX, CSS classes, `navigate`, `window.open` and `window.location.reload`. This includes the display cut `opportunities.slice(0, 10)` (src/components/reports/OpportunitiesReport.tsx:115); the model's list is the 15 entries the report computes.
- Locale and number formatting are not modelled: `toLocaleString`, `toFixed` and `format(..., { locale: es })`. The absolute-date text that `formatTimeAgo` gives after a week is one of them; the model says only that this case is taken.
- Time of day, time zones and daylight saving are not modelled. Calendar dates are day numbers. Instants such as detection stamps and the compliance "now" are integers on one UTC scale.
- The wall-clock "today" and "now" are parameters.
- `Math.exp` in the mention series' sigmoid is a parameter, required only to be positive. Floating-point rounding is not modelled: arithmetic is exact over `real`.
- `parseFloat` in `parseReach` is not modelled. A reach is given as a non-negative amount plus a millions flag.
- `decodeURIComponent` of the artist route parameter is not modelled: the parameter is given already decoded.
- Strings are sequences of code points. Only `length`, `charCodeAt` and the `split('')` in the seed sums are modelled in UTF-16 code units. Case mapping covers the Basic Latin and Latin-1 blocks only.
- A detection stamp that does not parse (`NaN`) is compared as instant 0 when the per-artist statistics order matches. JavaScript's sort with a `NaN` comparator result is implementation-defined.
- ArtistRanking.SortValue, ArtistRanking.Ranked and ArtistRanking.Ranking.FilteredAndSorted: with the "date" column, an entry whose `ultimaDeteccion` does not parse is ranked as instant 0, so it comes after every entry with a date from 1970 on. The source's comparator (src/components/dashboard/ArtistRanking.tsx:180-181) returns `NaN` for such an entry, and the order the sort then produces is implementation-defined. The model fixes an order that the source does not promise.
- The per-artist newest/oldest stamps are stated by the maximum and minimum they take (`Latest`, `Earliest`), not by a literal copy of the date sort they are read from.
- The `realEventsDatabase` catalogue, the buzz events and the recommendation table are not part of this model. Each is an input sequence of records, so no property depends on their contents.
- ArtistRecommendation.CitiesOf: a country or city named after an `Object.prototype` member (such as "constructor") is treated as unknown. The lookups `artistDataByCountryCity[selectedCountry]` and `countryData[selectedCity]` (src/components/dashboard/ArtistRecommendation.tsx:104,116-117) would read the inherited member instead.
- The `timeWindow` select of the genre competition report (src/components/reports/GenreCompetition.tsx:13,27) does not enter the computation. The model takes no such input, which makes the property that it does not affect the result hold by construction.
- The `kpis` constant of the advertising compliance page (src/components/dashboard/AdvertisingCompliance.tsx:7) and the last-week figure `lastWeekMentions` of the event page (src/pages/EventDetail.tsx:159) are display values read directly from constants or the series and are not modelled further.
- The empty `handleSignIn`/`handleSignUp` handlers (src/components/login/LoginForm.tsx:33-39) have no behaviour and are not modelled.
- Route tables, layout components, static mock pages and the one-line colour lookups of the alerts, radio rotation and digital performance widgets are not part of this model.

## Findings

| source | as written | input that shows it | evidently intended | confidence | as-written member | corrected member |
|---|---|---|---|---|---|---|
| src/components/dashboard/ArtistRanking.tsx:136 | a newer detection copies `det.venue`, but a detection's field is `Venue`, so the venue becomes `undefined` | any artist with two detections, the second later than the first | the entry's `venue` takes the newer detection's `Venue`, like its station, city and type; the ranking table never renders `venue`, so no displayed cell changes | not executed | ArtistRanking.RefreshAsWrittenLosesVenue | ArtistRanking.Refresh |
| src/lib/eventImageMapper.ts:43 | `genreMap[genre] \|\| popImg` also finds the keys the object inherits; their values are truthy functions, so no fallback happens | genre "constructor" or "toString" | every genre outside the table falls back to the pop image | not executed | EventImageMapper.InheritedKeyIsNoImage | EventImageMapper.AgreesOffPrototype |
