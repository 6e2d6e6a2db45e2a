# Köppen climate classifier

A Dafny model of `determine_koppen_classification`, the climate classifier
in the vacationWX climate report script. It takes twelve monthly mean
temperatures (°C) and twelve monthly precipitation totals (mm) and returns
a simplified Köppen–Geiger climate code:

- a group letter, tested in the order B (arid), E (polar), A (tropical),
  D (continental), C (temperate);
- a precipitation letter: W/S for B, f/w/m for A, s/w/f for C and D;
- a temperature letter a/b/c/d, for C and D only.

The model follows the script rather than the textbook scheme. The arid
threshold has only two branches: +280 when more than 70% of the rain falls
in summer, and +0 otherwise, with no +140 middle case. A polar climate is
always "ET", never "EF". Summer is April to September and winter is October
to March, whatever the hemisphere.

Files:

- `climate_stats.dfy` (module `ClimateStats`): `Sum`, `Min`, `Max` and the
  count of months at or above a temperature, over `seq<real>`.
- `koppen.dfy` (module `Koppen`): the month lists, the aggregates the
  script computes, the arid threshold, the three letter choices, how the
  letters are joined, and `Classify`.
- `koppen_properties.dfy` (module `KoppenProperties`): rule precedence,
  letter-by-letter rules, a reference definition (`ObeysKoppenRules`) that
  determines the code uniquely, the season partition, and the Billings
  sample.

The script works on whatever lists it is given. `min` of an empty
temperature list raises, and so does a precipitation list shorter than
twelve entries, because of `precips[i-1]` for months up to 12. `Classify`
returns an error for these two cases, in the order the script hits them.
Longer lists are accepted, as in the script: totals, extremes and counts
range over every entry, the mean temperature is still the total divided by
12, and the seasons use the first twelve entries.

The script's comment expects "Dfb" for its Billings sample. The code
actually answers "BS". Of the 391 mm a year, 275 mm falls in summer, which
is more than 70%. The threshold is therefore 20 · 9.625 + 280 = 472.5, and
391 is below it but not below half of it. `BillingsIsSteppe` records the
code's answer.

## Model

| member | source | states |
|---|---|---|
| `ClimateStats.Sum` | scripts/generate_report.py:37-44 | the total of the values (Python's `sum`); a total of non-negative values is non-negative; additivity is proved in `SumAppend` |
| `ClimateStats.SumAppend` | scripts/generate_report.py:37-44 | the total of two consecutive stretches of months is the sum of their totals |
| `ClimateStats.Min` | scripts/generate_report.py:40 | the coldest/driest value is one of the values and no value is below it |
| `ClimateStats.Max` | scripts/generate_report.py:41 | the hottest/wettest value is one of the values and no value exceeds it |
| `ClimateStats.CountAtLeast` | scripts/generate_report.py:53 | the number of months at or above a temperature is at most the number of months, positive exactly when some month reaches it, and 1 or 0 for a single month as it reaches the temperature or not |
| `ClimateStats.CountAtLeastAppend` | scripts/generate_report.py:53 | the count over two consecutive stretches of months is the sum of their counts; with the single-month case this makes the count exactly the number of months at or above the temperature |
| `ClimateStats.MaxReachesIffCounted` | scripts/generate_report.py:41-53 | the hottest month reaches a temperature exactly when at least one month is counted at or above it |
| `Koppen.Seasonal` | scripts/generate_report.py:43-49 | one value per listed calendar month, taken at 1-based month index; that each is a monthly value is proved in `SeasonalValuesAreMonthly` |
| `Koppen.SeasonalValuesAreMonthly` | scripts/generate_report.py:43-49 | every summer or winter value picked by month number is one of the monthly values |
| `Koppen.ComputeAggregates` | scripts/generate_report.py:37-53 | the aggregates agree with each other: coldest ≤ hottest; driest month ≤ driest of each season ≤ wettest of that season; months ≥ 10 °C exist iff the hottest month is ≥ 10 °C |
| `Koppen.AridThreshold` | scripts/generate_report.py:58-61 | the threshold is 20·mean or 20·mean + 280; which branch applies is proved in `AridThresholdBranches` |
| `Koppen.FirstLetter` | scripts/generate_report.py:55-72 | the group letter is one of B, E, A, D, C |
| `Koppen.SecondLetter` | scripts/generate_report.py:74-96 | there is exactly one precipitation letter for A, B, C and D and none for E |
| `Koppen.ThirdLetter` | scripts/generate_report.py:98-109 | there is exactly one temperature letter for C and D and none for any other group |
| `Koppen.Combine` | scripts/generate_report.py:111-119 | E always gives "ET"; B gives the group letter and the precipitation letter; A, C and D give all three letters; any group letter outside A–E gives "Unknown", and no group letter in A–E does |
| `Koppen.Classify` | scripts/generate_report.py:17-119 | fails exactly on an empty temperature list (checked first) or fewer than twelve precipitation totals; otherwise returns one of ET, BW, BS, Af, Aw, Am, C/D + s/w/f + a/b/c, or D + s/w/f + d, and never the "Unknown" fallback |
| `KoppenProperties.AridThresholdBranches` | scripts/generate_report.py:58-61 | the threshold is 20·mean + 280 iff summer precipitation exceeds 0.7·annual, and 20·mean otherwise |
| `KoppenProperties.AridOverridesTemperature` | scripts/generate_report.py:58-88 | the code starts with B iff annual precipitation is below the threshold; it is BW iff also below half the threshold, BS iff arid and at or above half |
| `KoppenProperties.AridIgnoresMonthlyTemperatures` | scripts/generate_report.py:56-64 | for an arid climate, two temperature records with the same total give the same code |
| `KoppenProperties.PolarIsAlwaysET` | scripts/generate_report.py:112-113 | the code is ET iff the climate is not arid and the hottest month is below 10 °C; an E code is always exactly ET, never EF |
| `KoppenProperties.PolarHasNoWarmMonth` | scripts/generate_report.py:53-66 | an ET climate has no month at or above 10 °C |
| `KoppenProperties.GroupFollowsColdestMonth` | scripts/generate_report.py:67-72 | when not arid and the hottest month is ≥ 10 °C: A iff coldest ≥ 18, D iff coldest < −3, C iff −3 ≤ coldest < 18 |
| `KoppenProperties.GroupDependsOnlyOnColdestMonth` | scripts/generate_report.py:65-72 | two such climates with the same coldest month get the same group letter |
| `KoppenProperties.TropicalLetters` | scripts/generate_report.py:76-82 | A codes have two letters: f iff driest month ≥ 60; w iff driest < 60 and driest < 100 − annual/25; m otherwise |
| `KoppenProperties.DrySeasonLetters` | scripts/generate_report.py:90-96 | C/D codes have three letters; s iff driest summer < wettest winter / 3 and < 40; w iff not s and driest winter < wettest summer / 10; f otherwise |
| `KoppenProperties.TemperatureLetters` | scripts/generate_report.py:100-109 | d iff group D and coldest ≤ −38, so C never ends in d; else a iff hottest ≥ 22; b iff hottest < 22 and ≥ 4 months at or above 10 °C; c otherwise, and a c climate has 1 to 3 such months |
| `KoppenProperties.ClassifyObeysRules` | scripts/generate_report.py:55-117 | the returned code satisfies every group and letter rule at once |
| `KoppenProperties.RulesDetermineCode` | scripts/generate_report.py:55-117 | at most one code satisfies the rules for a given set of aggregates |
| `KoppenProperties.ClassifyIffRules` | scripts/generate_report.py:17-119 | the classifier returns a code exactly when that code satisfies the rules |
| `KoppenProperties.SeasonsCoverEachMonthOnce` | scripts/generate_report.py:34-35 | the summer and winter lists together have 12 entries, all months 1–12, and each month is in exactly one list |
| `KoppenProperties.SeasonsPartitionAnnual` | scripts/generate_report.py:37-44 | with twelve totals, summer precipitation plus winter precipitation equals annual precipitation |
| `KoppenProperties.BillingsIsSteppe` | scripts/generate_report.py:121-131 | the Billings sample has annual 391 mm, summer 275 mm, mean 9.625 °C and threshold 472.5, and is classified "BS" (the comment expects "Dfb") |

## Left out

- Real numbers: temperatures and precipitation are exact reals, and 0.7 is exactly 7/10. The script uses binary floating point, so a value within rounding distance of a threshold could fall on the other side there.
- The dictionary argument: the model takes the two lists directly. A missing `'temperature'` or `'precipitation'` key (a KeyError) and non-numeric entries are not modelled.
- `get_climate_data` (scripts/generate_report.py:7-15): an HTTP request to a climate archive for hard-coded coordinates. This is network I/O.
- `generate_climate_report` (scripts/generate_report.py:134-157): sampled text generation with a pretrained language model. It is a foreign and nondeterministic call, and it relies on helper functions that the script never defines.
- `main` and the module-level call at scripts/generate_report.py:159-170: wiring and printing only. The module-level lines refer to a name that exists only inside a string literal.
- script_template.py: its classifier is a stub that always returns "Dfb", and the rest is the same I/O and text-generation wrapper.
- The browser weather-report form, the location autocomplete and its debounced search are not part of this model.
