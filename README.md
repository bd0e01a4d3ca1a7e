# PyTeslaPowerSet decision logic in Dafny

PyTeslaPowerSet is a script that fetches the Nord Pool hourly spot prices for
price area DK2 and looks at two of them: the first hourly value of the latest
series ("tonight") and its last hourly value ("tomorrow night"). It prints
which night each timestamp belongs to and whether power is cheapest tonight
or tomorrow night, and whether that price is below the threshold
`cheap_power` (28.0). It then connects to the Tesla API and reports where the
car is, by comparing its coordinates with three configured places.

This project models the three decision chains of `main.py` as pure functions
and proves their behaviour:

- `price_verdict.dfy` (module `PriceVerdict`): the five-way price verdict.
  Prices are reals; the threshold is a parameter, and the script's 28.0 is
  the constant `CheapPower`.
- `day_bucket.dfy` (module `DayBucket`): the "tonight" / "tomorrow night"
  label of a price timestamp relative to the current time. Datetimes are
  modelled as Python's subtraction reads them: the `toordinal()` of the date
  plus hour, minute, second and microsecond. Subtracting two datetimes
  builds a timedelta that is normalised by floor division into days,
  seconds (0 to 86399) and microseconds (0 to 999999). From this the model
  proves that `.days` is the floor of the distance in days, which gives
  the exact intervals of the labels.
- `location.dfy` (module `Location`): the home / work 1 / work 2 / unknown
  matcher over coordinate strings. A configured coordinate is optional,
  because an unset environment variable reads as `None`, which equals no
  string.

The decision chains only print in the script; the model returns a value
naming the branch taken instead.

## Model

| member | source | states |
|---|---|---|
| PriceVerdict.Classify | main.py:66-87 | The first matching branch of the chain wins; "same price" is the verdict exactly when the two prices are equal |
| PriceVerdict.ClassifyIsReference | main.py:66-87 | The chain equals an independent description: pick the strictly cheaper night (or "same price" on a tie), then ask whether its price is below the threshold |
| PriceVerdict.NightIsCheaper | main.py:67-84 | The night a verdict names is tonight iff tonight's price is lower, tomorrow iff tomorrow's is lower, neither iff they are equal |
| PriceVerdict.CheapTonightIff | main.py:67-71 | "Cheapest tonight and below threshold" iff tonight < threshold and tonight < tomorrow |
| PriceVerdict.CheapTomorrowIff | main.py:67-76 | "Cheapest tomorrow and below threshold" iff tomorrow < threshold and tomorrow < tonight, so it is never returned when the first branch's condition holds |
| PriceVerdict.NotCheapIff | main.py:77-84 | "Cheapest tonight/tomorrow but not cheap" iff that night is strictly cheaper and its price is not below the threshold |
| PriceVerdict.BelowThresholdIff | main.py:67-76 | A "below threshold" verdict iff the prices differ and the lower one is strictly below the threshold |
| PriceVerdict.ThresholdIsStrict | main.py:19 | A price equal to the threshold (28.0 or any other) never yields the matching "below threshold" verdict |
| PriceVerdict.EqualPricesAreSame | main.py:85-87 | Equal prices always give "same price", whatever the threshold |
| PriceVerdict.SwapMirrors | main.py:67-84 | Swapping the two prices swaps every "tonight" verdict with its "tomorrow" counterpart, keeps "same price", and keeps whether the verdict is "below threshold" |
| PriceVerdict.ThresholdMonotone | main.py:67-76 | Raising the threshold keeps every "below threshold" verdict and never changes which night is cheaper |
| DayBucket.MakeTimedelta | main.py:39-40 | The timedelta built by the subtraction is normalised (seconds in 0..86399, microseconds in 0..999999) and keeps the exact length requested |
| DayBucket.Subtract | main.py:39-40 | `timestamp - now` is a normalised timedelta whose length is the distance between the two instants in microseconds |
| DayBucket.Bucket | main.py:42-57 | On a normalised timedelta, "tomorrow night" iff its length is a day or more and "tonight" iff its length is from zero up to just under a day |
| DayBucket.LabelOf | main.py:39-57 | Labels a timestamp by its distance from now; it is unlabelled exactly when it lies in the past (the full intervals are in LabelByDistance) |
| DayBucket.DaysIsFloor | main.py:42-57 | The `.days` the script tests is the distance floor-divided by one day |
| DayBucket.LabelByDistance | main.py:42-57 | "Tomorrow night" iff the timestamp is a day or more ahead, "tonight" iff 0 to just under a day ahead, no label iff it is in the past |
| DayBucket.LabelsFollowTime | main.py:39-57 | The earliest and latest timestamps are labelled by the same rule, so a later timestamp never gets an earlier label |
| Location.Locate | main.py:107-114 | "Unknown" iff none of the three places matches on both coordinates |
| Location.LocateIsFirstMatch | main.py:107-114 | The result is the first place of the list home, work 1, work 2 that matches on both coordinates, or "unknown" if none does |
| Location.FirstMatch | main.py:107-114 | The index returned matches and no earlier place does, or it is the length of the list when nothing matches |
| Location.HomeIff | main.py:107-108 | Home is reported iff both home coordinates equal the car's |
| Location.WorkIff | main.py:109-112 | Work 1 (work 2) is reported iff it matches and every earlier place does not |
| Location.EarlierPlaceWins | main.py:107-112 | When two places have identical coordinates, the later one in the order home, work 1, work 2 is never reported |
| Location.UnsetNeverMatches | main.py:13-18 | A place whose latitude or longitude is unset is never reported |

## Left out

- Loading the configuration from the environment (main.py:9-18): the values are parameters; unset coordinates are `None`.
- Fetching prices from Nord Pool and indexing the response (main.py:22-29): network access through an external library. The model starts from two prices and two timestamps.
- Reading the clock (main.py:37): `now` is a parameter.
- Every `print`, including the diagnostic hour, date and type printouts (main.py:32-35, 59-64): the model returns the branch taken instead.
- Connecting to Tesla and picking the first vehicle (main.py:90-94) and the commented-out wake and charge calls (main.py:96-98): calls into a foreign API with no decision logic.
- The fixed drive-state record and the conversion of its floats to strings (main.py:101-105): the matcher takes the coordinate strings directly, so Python's float formatting is not modelled.
- Floating-point special values: prices are reals, so `inf` (prices not yet published) and NaN are not modelled. With NaN every comparison is false and the script would fall through to "same price", which `PriceVerdict.Classify` does not reproduce.
- Time zones: both datetimes are taken to be in UTC, as the price feed and `now` are; the UTC offset correction of Python's datetime subtraction is zero then and is not modelled.
- DateTime: the conversion of a calendar date (year, month, day) to its day ordinal, and the ranges of hour, minute, second and microsecond, are not modelled; the datetime is given by its ordinal and time-of-day fields, which may be any integers.
