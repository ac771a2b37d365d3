# EV-charger time-series generator, modelled in Dafny

`TimeValueGenerator` produces a synthetic day of electric-vehicle charger
load. It has three bucket sizes: morning, afternoon and evening. It draws that
many event times from three Gaussians, rounds each to two decimals, and joins
them in the order morning, evening, afternoon. It then expands every time
into a session of five sub-events 0.2 hour apart. Each sub-event time is
turned into a clock time on 5 January 2020 and rendered as
`YYYY-MM-DD HH:MM:SS`. Each sub-event is paired, by position, with a load
drawn from the table `[7200, 11000, 22000, 7200, 7200]` W. The rows are
written after a `date_time,power` header.

Every time is held exactly as an integer number of hundredths of an hour
(9.25 h is `925`). The Gaussian samples and the `randrange(5)` draws are
parameters of the model.

Modules:

- `Wrappers` (`wrappers.dfy`): the `Result`/`Option` types and the exceptions the generator can raise.
- `PyText` (`py_text.dfy`): the Python built-ins the clock normaliser depends on. These are `str()` of a two-decimal float and `int()` of a short string.
- `DateTimes` (`date_time.dfy`): `datetime.replace` with its range checks, `strftime("%Y-%m-%d %H:%M:%S")`, and the inverse of that `strftime`, which reads the six fields back from the text.
- `EvcSpec` (`evc_spec.dfy`): reference definitions of each pipeline stage and the lemmas about them.
- `EvcTimeData` (`evc_time_data.dfy`): the generator class. `AddIncrementalTimeValue`, `ConvertValuesToDatetime` and `GetPowerValues` fill pre-sized arrays slot by slot, as the source fills its lists. Each method's ensures ties its result to `EvcSpec` definitions.

The clock normaliser reads the minute from the third character of
`str(v - hour)`. Below 33 h this is the first decimal digit d of
v − ⌊v⌋ (7 for −0.30 h, whose floor is −1), and the
minute is ceil(59·d/10), which is exactly 6·d. Apart from the signed-zero
case under "## Left out", two inputs make the code raise, and the model
returns an error for both:

- For v in [33, 123) h, `v - 23` has two integer digits. The character is
  then the decimal point, and `int(".0")` raises ValueError.
- For a negative v, the hour is never clamped from below, so
  `datetime.replace` raises ValueError.

Neither case is guarded in the code, so the model returns the error the
code raises.

## Model

| member | source | states |
|---|---|---|
| `EvcTimeData.TimeValueGenerator.constructor` | generate_evc_time_data.py:10-15 | stores the three bucket sizes and the file name; N is their sum |
| `EvcTimeData.TimeValueGenerator.GenerateTimeValues` | generate_evc_time_data.py:18-40 | fails exactly when some expanded time has no timestamp, and then with the first such error; otherwise the rows are the header `['date_time','power']` followed by exactly 5N rows, row i+1 pairing the i-th timestamp with the power of the i-th draw |
| `EvcTimeData.TimeValueGenerator.GetTimeValues` | generate_evc_time_data.py:43-64 | the result has 5N entries and is the expansion of morning ++ evening ++ afternoon |
| `EvcSpec.BaseSamples` | generate_evc_time_data.py:55-63 | the joined list has length m+a+e; its first m entries are the morning samples, the next e the evening samples, the rest the afternoon samples |
| `EvcTimeData.TimeValueGenerator.AddIncrementalTimeValue` | generate_evc_time_data.py:66-75 | fills all 5N slots through the counter, which never passes the allocated size, and the result is the expansion of the input |
| `EvcSpec.Burst` | generate_evc_time_data.py:71-74 | one session has five entries, starts at its sample, and each entry is 0.2 hour after the previous one |
| `EvcSpec.Expand` | generate_evc_time_data.py:66-75 | the expansion has five entries per base time |
| `EvcSpec.ExpandAt` | generate_evc_time_data.py:70-74 | entry 5i+j of the expansion is base time i plus 0.2·j hour |
| `EvcSpec.ExpandConcat` | generate_evc_time_data.py:70-75 | expanding a concatenation expands each part in turn, so base order is preserved |
| `EvcSpec.ExpandSteps` | generate_evc_time_data.py:71-74 | within a session consecutive sub-events differ by exactly 0.2 hour, so each session is strictly increasing |
| `EvcSpec.ExpandedOrigin` | generate_evc_time_data.py:55-75 | the morning sessions come first, then the evening sessions, then the afternoon sessions, each sub-event being its sample plus 0.2·j |
| `EvcSpec.FloorHour` | generate_evc_time_data.py:105 | the floor hour h satisfies 100h ≤ v < 100h+100, negative times included |
| `EvcSpec.ClampedHour` | generate_evc_time_data.py:105-108 | the hour never exceeds 23; below 23 h it is the floor, from 23 h on it is 23; there is no lower bound |
| `EvcSpec.CeilDiv` | generate_evc_time_data.py:113 | `math.ceil(a / b)`: the least q with a ≤ q·b |
| `EvcSpec.MinuteOfDigit` | generate_evc_time_data.py:113 | for a digit d in 1..9, ceil(59·10d/100) = ceil(59d/10) = 6d |
| `EvcSpec.ConvertToHoursAndMinutes` | generate_evc_time_data.py:99-114 | any clock it returns has hour ≤ 23 (the clamped hour) and a minute in {0, 6, ..., 54} |
| `EvcSpec.MinuteCharacter` | generate_evc_time_data.py:109 | the third character of `str(v - hour)` is the first decimal digit of v − ⌊v⌋ below 33 h (7 for −0.30 h), the point for [33, 123) h, and an integer digit from 123 h on |
| `EvcSpec.ClockOfValue` | generate_evc_time_data.py:105-114 | below 33 h the clock is (clamped hour, 6·d) with d the first decimal digit of v − ⌊v⌋ (7 for −0.30 h), and 6·d is 0 for d = 0 and ceil(59d/10) otherwise |
| `EvcSpec.NegativeTimeClock` | generate_evc_time_data.py:105-113 | −0.30 h gives hour −1 and minute 42, from the digit 7 of v − ⌊v⌋ = 0.7 |
| `EvcSpec.ClockDefined` | generate_evc_time_data.py:109-113 | the conversion raises exactly for times in [33, 123) h, with `int(".0")`'s error |
| `EvcSpec.ClockTruncatesToTenth` | generate_evc_time_data.py:105-113 | in [0, 24) h the clock is the time truncated to a tenth of an hour |
| `EvcSpec.ClockMonotone` | generate_evc_time_data.py:105-113 | in [0, 24) h a later time never gets an earlier clock |
| `EvcSpec.ClockWrapsAfterMidnight` | generate_evc_time_data.py:105-113 | past 24 h the saturated hour makes the clock wrap: 23.9 h gives 23:54 but 24.1 h gives 23:06 |
| `EvcSpec.NineOClockSession` | generate_evc_time_data.py:55-114 | a single 9.00 sample expands to 9.0, 9.2, 9.4, 9.6, 9.8 h, on the clock 09:00, 09:12, 09:24, 09:36, 09:48 |
| `EvcSpec.HalfPastTwentyThree` | generate_evc_time_data.py:105-114 | 23.5 h gives 23:30 |
| `EvcSpec.Stamp` | generate_evc_time_data.py:86-94 | every timestamp is 19 characters long |
| `EvcSpec.StampParses` | generate_evc_time_data.py:88-94 | every timestamp reads back as 2020-01-05 at the clock's hour and minute with second 0 |
| `EvcSpec.StampDefined` | generate_evc_time_data.py:88-94 | a time has a timestamp exactly when it lies in [0, 33) h or at or above 123 h; a negative time raises `HourOutOfRange` |
| `EvcSpec.StampText` | generate_evc_time_data.py:88-94 | in [0, 33) h the timestamp is `2020-01-05 HH:MM:00` with HH and MM the zero-padded clamped hour and 6·d |
| `EvcSpec.StrftimeOnReferenceDate` | generate_evc_time_data.py:88-94 | a clock on the reference date renders as `2020-01-05 HH:MM:00` |
| `EvcSpec.ReferenceDateText` | generate_evc_time_data.py:88 | the fixed date renders as `2020`, `01`, `05` |
| `EvcSpec.ConvertEach` | generate_evc_time_data.py:86-94 | converts the times in order and stops at the first exception; a successful result has one entry per time, the last being the conversion of the last time |
| `EvcSpec.StampAll` | generate_evc_time_data.py:86-94 | the timestamps of a whole list, or the first error; on success one 19-character timestamp per time |
| `EvcSpec.ConvertEachOk` | generate_evc_time_data.py:86-94 | the conversion of a list succeeds exactly when every entry converts; the result then has the input's length and entry k is the conversion of entry k |
| `EvcSpec.ConvertEachErr` | generate_evc_time_data.py:86-94 | a failed conversion reports the error of the first entry that raises |
| `EvcSpec.ConvertEachFailsAt` | generate_evc_time_data.py:86-94 | once an entry raises after a converted prefix, the whole conversion ends with that error |
| `EvcSpec.ConvertEachErrPersists` | generate_evc_time_data.py:86-94 | nothing after a failure changes the reported error |
| `EvcSpec.ConvertEachExtends` | generate_evc_time_data.py:86-94 | a converted prefix grows by one timestamp per converted entry |
| `EvcTimeData.TimeValueGenerator.ConvertValuesToDatetime` | generate_evc_time_data.py:77-96 | the slot-by-slot loop returns exactly the list conversion of its input; on success it has the input's length |
| `EvcSpec.PowerDraw` | generate_evc_time_data.py:125-130 | indices 0, 3 and 4 give 7200, index 1 gives 11000, index 2 gives 22000, and nothing else is produced |
| `EvcSpec.PowerWeights` | generate_evc_time_data.py:125 | the table holds 7200 three times and 11000 and 22000 once each, and no other value |
| `EvcTimeData.TimeValueGenerator.GetPowerValues` | generate_evc_time_data.py:117-132 | 5N powers, the i-th being the table entry the i-th draw selects, each one of 7200, 11000, 22000 |
| `EvcSpec.Zip` | generate_evc_time_data.py:38-40 | zipping gives as many rows as the shorter list, row i pairing the i-th timestamp with the i-th power |
| `PyText.NatToString` | generate_evc_time_data.py:109 | `str()` of a natural number is a non-empty string of digits |
| `PyText.NatToStringLength` | generate_evc_time_data.py:109 | the numeral has one character below 10, two from 10 to 99, and at least three from 100 on |
| `PyText.DigitsValueOfNatToString` | generate_evc_time_data.py:109 | reading the numeral back gives the number |
| `PyText.HundredthsToString` | generate_evc_time_data.py:109 | `str()` of a two-decimal float is the integer numeral, a point, then the first decimal digit and the second unless it is zero |
| `PyText.ThirdCharacter` | generate_evc_time_data.py:109 | character 2 of `str(x)` is the first decimal digit below 10, the point for [10, 100), and an integer digit from 100 on |
| `PyText.ParseInt` | generate_evc_time_data.py:113 | `int()` succeeds exactly on non-empty digit strings, returning their decimal value, and otherwise raises with the offending literal |
| `DateTimes.Replace` | generate_evc_time_data.py:93 | succeeds exactly when hour is in 0..23 and minute in 0..59, changes only those two fields and keeps the timestamp valid; a bad hour raises `HourOutOfRange` |
| `DateTimes.Pad` | generate_evc_time_data.py:94 | the zero-padded numeral has exactly the requested width and only digits |
| `DateTimes.DigitsValueOfPad` | generate_evc_time_data.py:94 | a zero-padded numeral reads back as its number |
| `DateTimes.Strftime` | generate_evc_time_data.py:94 | the `%Y-%m-%d %H:%M:%S` text is 19 characters with its separators in fixed places |
| `DateTimes.ParseStrftime` | generate_evc_time_data.py:94 | parsing the rendered text recovers every valid timestamp |

## Left out

- The Gaussian draws (`np.random.normal`, lines 55-60) and `randrange(5)` (line 129) are parameters. The samples arrive already rounded to hundredths. The draws arrive as indices in 0..4.
- Floating point is not modelled. Times are exact hundredths. The model therefore has no drift from the repeated `v = v + 0.2` at line 74, and no `str()` artefacts at line 109. This has a visible cost: a time whose hundredths digit is 0 and whose double difference `v - hour` lies just below the exact value prints a first decimal digit one lower, so the program shows 6 minutes fewer than the model. In IEEE-754 doubles `9.2 - 9` is `0.19999999999999929`, `9.6 - 9` is `0.59999999999999964` and `23.9 - 23` is `0.89999999999999858`, so the program prints 09:06, 09:30 and 23:48 where `EvcSpec.NineOClockSession` and `EvcSpec.ClockWrapsAfterMidnight` give 09:12, 09:36 and 23:54. `EvcSpec.ClockTruncatesToTenth` and `EvcSpec.ClockMonotone` hold for exact hundredths only.
- Signed zero is not modelled. A sample that rounds to `-0.0` has floor 0, and `str(-0.0)` is `'-0.0'`. The program therefore raises `int('.0')`'s ValueError at line 113, where the model, holding 0, gives 00:00.
- `str()` switches to exponent notation at 10^16 and above. `PyText.HundredthsToString` always prints positional digits.
- `PyText.ParseInt` accepts only digit strings. Python's `int()` also takes a sign, surrounding blanks and underscores, none of which can reach it from line 109 below 10^16 hours (above that `str()` uses exponent notation, whose `'+'` is listed above).
- File output is not modelled: `open`, `csv.writer`, `QUOTE_NONNUMERIC` and the written bytes (lines 35-40). The rows are returned as a list, and the file name is only stored.
- A file that cannot be opened is not modelled. The source would raise there.
- The bucket sizes are `nat`. A negative size makes `np.random.normal` raise and is not modelled.
- EvcTimeData.TimeValueGenerator.AddIncrementalTimeValue: requires exactly N input times, which is what its only caller passes. A longer list raises IndexError in the source. A shorter one leaves placeholder slots holding the type object `int`. Neither is modelled.
- EvcTimeData.TimeValueGenerator.ConvertValuesToDatetime: requires exactly 5N input times, for the same reason and with the same two unmodelled cases.
- EvcTimeData.TimeValueGenerator.GetPowerValues: requires exactly 5N draws, which is the number of `randrange(5)` calls its loop makes.
- The intermediate `datetime` object is not modelled. Line 93 stores it in a slot before line 94 overwrites it with its text, and the model stores the text directly.
- Microseconds are not modelled. They are always 0 and `%S` does not print them.
- examples/create_data_and_plot.py is not part of this model. It reads the CSV with pandas and plots it.
