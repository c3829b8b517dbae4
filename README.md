# Cost tracker: record normalisation and monthly aggregation

This project models the core of the Streamlit cost-tracker app (`streamlit_app.py`) and proves
properties of that model. The core has two stages.

- `process_data` turns the uploaded JSON into canonical rows. The JSON maps each user's e-mail
  to a list of usage records; each canonical row holds a month, model, cost, user and token
  total. Each record is checked in order:
  - it must be an object;
  - it must have a non-empty string timestamp;
  - the timestamp must parse with `%Y-%m-%dT%H:%M:%S.%f` or else with `%Y-%m-%dT%H:%M:%S`;
  - its cost must convert to a float.

  A record that fails a check is skipped with a diagnostic, and processing goes on.
- The non-chart part of `plot_data` and the month list of `main` filter the rows by a month. They
  group by model and by user, sum tokens and costs, and sort descending. The two model rankings
  keep the top ten, and the user table ends with a "Total" row. The month list holds the distinct
  months offered for selection.

Modules:

- `Wrappers`: `Option` and `Result`.
- `Json`: the value `json.load` produces, and `dict.get` with last-binding-wins.
- `Digits`: decimal digit strings and zero padding.
- `Timestamp`: a recogniser for the two `strptime` formats.
  - Each numeric field takes one or two characters, `%Y` takes exactly four, and `%f` takes one
    to six digits.
  - `T` is matched case-insensitively.
  - A parsed date is then checked for validity, with the days in the month and leap years.
  - `strftime("%Y-%m")` is modelled as `MonthKey`.
- `Decimal`: the part of `float(str)` the model recognises, and Python's `str` on integers.
- `Normalizer`:
  - the record checks as a specification function `RecordOutcome`;
  - the whole pass as a left fold `Normalize`;
  - the loops of `process_data` as methods (`ProcessData`, `ProcessRecords`, `CheckRecord`,
    `StrptimeFirst`), each proved equal to its specification function.

  Diagnostics are modelled as `SkipReason` values, collected in order beside the rows.
- `Aggregator`: the month filter, grouping, sums, descending sort, top ten, the user table with
  its total, the query with its "no data for month" error, and the month list.

The model is deterministic, with no state kept between calls. Each method's result is a function
of its input, so the same upload always gives the same rows and tables.

In these places the code's behaviour is easy to misread, and the model follows the code:

- Only the grouping-key form is processed, because `process_data` iterates `data.items()`. A
  top-level JSON list is not handled by this code.
- A `total_cost` that is `null`, a list or an object becomes `0.0` without a skip. That is what
  `float(cost) if isinstance(cost, (int, float, str)) else 0.0` does.
- Token counts are not defaulted when they are not numbers (see "Left out").
- The user of a row is always the group's key. A record's own `user` field is ignored.

## Model

| member | source | states |
|---|---|---|
| Json.Get | streamlit_app.py:60 | `record.get(key)`: nothing exactly when no binding has the key; otherwise the value of the last binding of the key |
| Digits.Pad | streamlit_app.py:78 | the zero-padded spelling has exactly the width asked for, is all digits, and reads back as the number |
| Digits.PadDigits | streamlit_app.py:78 | padding inverts reading: any digit string is the padding of its own value at its own width |
| Timestamp.DaysInMonth | streamlit_app.py:69 | every month has 28 to 31 days, and February has 29 exactly in a leap year |
| Timestamp.ReadField | streamlit_app.py:69 | a one-or-two-character field ends at most two characters on, at the next literal of the format or at the end of the string |
| Timestamp.Strptime | streamlit_app.py:67-69 | every string a format accepts gives a valid date and time |
| Timestamp.ParseTimestamp | streamlit_app.py:66-72 | the fractional format wins when it parses; otherwise the result is that of the plain format; any result is a valid date and time |
| Timestamp.MonthKey | streamlit_app.py:78 | the month key is seven characters, a dash at index 4, with four digits spelling the year and two spelling the month |
| Timestamp.MonthKeyInjective | streamlit_app.py:78 | two timestamps share a month key exactly when they share year and month |
| Timestamp.FormatsExclusive | streamlit_app.py:67-72 | no string is accepted by both formats |
| Timestamp.CanonicalTimestamp | streamlit_app.py:66-78 | a valid fixed-width timestamp, with or without 1 to 6 fraction digits, parses to the fields it spells, and its month key is its first seven characters |
| Timestamp.ShortFieldsExample | streamlit_app.py:66-78 | "2024-1-5T1:2:3" is accepted, because strptime reads one-digit fields, and lands in month "2024-01" |
| Timestamp.ExampleTimestamp | streamlit_app.py:66-78 | "2024-11-01T10:00:00" parses to 2024-11-01 10:00:00 and lands in month "2024-11" |
| Decimal.ParseDecimal | streamlit_app.py:83 | `float(s)` on a string: the empty string is refused, and a plain digit string converts to the number it spells |
| Decimal.DotIndex | streamlit_app.py:83 | the index of the first '.' of a numeric string, or its length when there is none |
| Decimal.IntRoundTrip | streamlit_app.py:83 | `float(str(i)) == i` for every integer i |
| Decimal.DecimalExamples | streamlit_app.py:82-86 | "12.5" converts to 12.5 and "abc" is refused |
| Normalizer.CoerceCost | streamlit_app.py:80-84 | the cost conversion fails exactly on a string `float` refuses; every other value converts |
| Normalizer.RecordOutcome | streamlit_app.py:56-98 | the checks of one record: it yields a row exactly when it passes every check, and that row's user is the group key |
| Normalizer.TimestampText | streamlit_app.py:60-61 | a timestamp is taken exactly when the record binds "timestamp" to a non-empty string, and it is that string |
| Normalizer.StrptimeFirst | streamlit_app.py:66-72 | the format loop stops at the first format that parses, and its result is `ParseTimestamp` |
| Normalizer.CheckRecord | streamlit_app.py:56-98 | the checks of one record in the source's order give exactly `RecordOutcome` |
| Normalizer.ProcessRecords | streamlit_app.py:55-98 | the record loop appends exactly the group's rows and skips, in record order, to what was built before |
| Normalizer.ProcessData | streamlit_app.py:48-100 | the whole pass yields exactly the rows and skips of `Normalize` |
| Normalizer.GroupBatchAppend | streamlit_app.py:55-98 | records are processed independently: the outcome of a group made of two parts is that of the first part followed by that of the second |
| Normalizer.NormalizeAppend | streamlit_app.py:50-98 | groups are processed independently and in order: the outcome of two mappings in sequence is the first's followed by the second's |
| Normalizer.InvalidGroupSkipped | streamlit_app.py:50-53 | a group whose value is not a list adds no row and exactly one InvalidGroup skip, and the other groups are unaffected |
| Normalizer.SkippedRecord | streamlit_app.py:55-86 | a record that fails a check adds no row and exactly its own skip, and the other records are unaffected |
| Normalizer.RowOrigin | streamlit_app.py:50-98 | every row is the one some record of a list-valued group emits, and its user is one of those groups' keys |
| Normalizer.EmittedRow | streamlit_app.py:78-98 | an emitted row has the month of the parsed timestamp, a well-formed YYYY-MM month, the group key as user, the record's model or "Unknown Model", and input plus output tokens |
| Normalizer.IsoTimestampMonth | streamlit_app.py:66-78 | a record with a valid fixed-width timestamp that yields a row lands in the month its first seven characters spell |
| Normalizer.RowsHaveWellFormedMonths | streamlit_app.py:78-98 | every row has a YYYY-MM month with a year from 1 and a month from 1 to 12 |
| Normalizer.SkipReasons | streamlit_app.py:56-86 | each skip reason occurs exactly when its check is the first to fail, and a row is emitted exactly when all checks pass |
| Normalizer.Normalize | streamlit_app.py:48-98 | what the whole pass builds: its rows plus its skips number one per record of a list-valued group plus one per other group, so nothing is lost or invented |
| Normalizer.CostRules | streamlit_app.py:80-86 | an absent cost gives 0, a number its value, a bool 1 or 0, a numeric string its number, and null, a list or an object 0; the record is skipped exactly when the cost is a string that does not convert |
| Normalizer.NumericStringCost | streamlit_app.py:83 | a cost written as the string of an integer converts to that integer |
| Normalizer.SingleRecordUpload | streamlit_app.py:50-98 | an upload of one user holding one record yields exactly that record's outcome |
| Normalizer.GroupingKeyExample | streamlit_app.py:50-98 | `{"alice@x.com": [{"timestamp": "2024-11-01T10:00:00", "total_cost": 1}]}` yields one row: month 2024-11, "Unknown Model", cost 1, user alice@x.com, 0 tokens; no skip |
| Aggregator.MonthRows | streamlit_app.py:116 | a row is among the month's rows exactly when it is in the batch and has that month, and there are no more of them than rows |
| Aggregator.MonthRowsCopies | streamlit_app.py:116 | the filter keeps every copy: a row of the month occurs as often among the month's rows as in the batch, and a row of another month not at all |
| Aggregator.Names | streamlit_app.py:126 | the group keys are distinct, and a name is among them exactly when some row has it |
| Aggregator.Groups | streamlit_app.py:126 | one entry per distinct key, holding that key's exact sum, no key twice |
| Aggregator.GroupEntries | streamlit_app.py:126 | one entry per key, holding the sum over the rows with that key |
| Aggregator.Position | streamlit_app.py:128-129 | the insertion point lies after every larger total and before the first total not larger |
| Aggregator.Insert | streamlit_app.py:128-129 | insertion keeps the table descending, adds exactly the entry, adds its total to the sum, and keeps names distinct when the name is new |
| Aggregator.SortDesc | streamlit_app.py:128-129 | the sorted table is descending and a permutation of the input: same entries, same length, same sum, distinct names kept |
| Aggregator.Top | streamlit_app.py:130 | `head(n)` keeps the first min(n, length) entries |
| Aggregator.GroupTotals | streamlit_app.py:159-161 | grouping loses nothing: the group sums add up to the sum over all rows |
| Aggregator.SortedGroups | streamlit_app.py:125-129 | the sorted groups have one entry per distinct key, each holding its group's sum, descending, with no key twice |
| Aggregator.TopKeepsOrder | streamlit_app.py:128-130 | a prefix of a descending table with distinct names is also one, and nothing past it is larger than anything in it |
| Aggregator.ModelRanking | streamlit_app.py:125-147 | a model ranking has at most ten entries, in descending order |
| Aggregator.UserCosts | streamlit_app.py:159-169 | the user table is descending up to one last entry, labelled "Total" |
| Aggregator.Query | streamlit_app.py:116-169 | a failed query reports no data for that month; a successful one has rankings of at most ten entries and a user table ending in "Total" |
| Aggregator.ModelRankingSpec | streamlit_app.py:125-147 | each model ranking has min(10, number of models) entries, each a model with its exact sum, no model twice, descending, and no omitted model sums to more than one shown |
| Aggregator.UserCostsSpec | streamlit_app.py:159-169 | the user table has one entry per user with that user's exact cost, descending and distinct, then exactly one "Total" entry holding the cost of all the month's rows |
| Aggregator.UserCostsExample | streamlit_app.py:159-169 | a month where alice spent 10 and bob 5 ends the user table with a Total of 15 |
| Aggregator.QueryNoData | streamlit_app.py:116-120 | a query reports "no data for" the month exactly when no row has that month |
| Aggregator.QueryOnlyMonth | streamlit_app.py:116 | the tables depend only on the month's rows |
| Aggregator.QueryIgnoresOtherMonths | streamlit_app.py:116 | adding rows of other months changes nothing about a month's answer |
| Aggregator.Months | streamlit_app.py:212 | the month list holds every row's month once and nothing else |
| Aggregator.MonthsAsWritten | streamlit_app.py:212 | the month list as written fails only on an empty batch, with the missing "month" column; otherwise it has no month twice |
| Aggregator.MonthsSpec | streamlit_app.py:212 | the month list holds every row's month once and nothing else, and is empty for an empty batch |
| Aggregator.MonthsHaveData | streamlit_app.py:212-215 | a month is on the list exactly when querying it yields tables |
| Aggregator.MonthsAsWrittenFails | streamlit_app.py:212 | the month list as written fails exactly on an empty batch, and on any other batch equals the corrected list |
| Aggregator.AllSkippedUpload | streamlit_app.py:212 | an upload whose one record is `null` gives no rows and one InvalidRecord skip; the month list as written fails on it, while the corrected list is empty |

## Left out

- Loading (`load_data`, `json.load`, its error message and the `st.cache_data` cache) is not
  modelled. The model starts from the parsed mapping, taken as its sequence of (key, value)
  pairs.
- The page itself is not modelled: layout, file upload, select box, buttons, bar charts and the
  data-frame expander. Diagnostics (`st.error`) are `SkipReason` values instead of messages. The
  empty-result warning (`st.warning`, line 104) is not emitted, but the condition behind it is
  `Normalize(data).rows == []`.
- A top-level JSON list and per-record `user` fields are not modelled; this code takes the
  mapping form only.
- Floating point is not modelled: costs are exact reals, and float rounding in sums is left out.
- Decimal.ParseDecimal: recognises an optional sign and decimal digits with at most one '.'.
  Python's `float` also accepts exponents, `inf`, `nan`, surrounding whitespace, underscores
  between digits and non-ASCII Unicode decimal digits (such as full-width "１２"). The model skips
  such strings where Python would convert them.
- Normalizer.CoerceCost: an integer `total_cost` too large for a double (about 310 digits or
  more) makes `float(cost)` raise OverflowError. `except ValueError` does not catch it, so
  `process_data` stops there. The model converts every integer exactly and emits the row. A
  numeric string that large becomes `inf` in Python and an exact real in the model.
- Timestamp.Strptime: accepts ASCII digits only, while Python's `\d` also matches other Unicode
  decimal digits.
- Timestamp.MonthKey: always pads the year to four digits. The C library's `%Y` may write years
  below 1000 without padding.
- Normalizer.RecordOutcome: requires (`Supported`) a string or absent `model`, and integer or
  boolean token counts, for records that pass every check. Other values are not modelled:
  - Python keeps a non-string model as is.
  - It adds float token counts as floats.
  - It concatenates two string counts (`"3" + "4"` gives `"34"`), and likewise two lists.
  - It raises TypeError when a string, a list or `null` is added to a number, or a `null` to
    anything.
- Aggregator.SortDesc: orders tied totals by insertion, and its contract fixes only order and
  permutation. Groups enter the sort in first-appearance order, while `groupby` hands them over
  sorted by key, and pandas' default sort is not stable. So the source's order of ties, and which
  tied model is kept at the tenth place, is unspecified.
- The auxiliary `total` column that line 161 adds to every user row is not modelled; only the
  trailing "Total" entry is.
- Repeated keys in the top-level mapping are not merged: json.load keeps the last one, and the
  model processes each pair it is given.

## Findings

| source | as written | input that shows it | evidently intended | confidence | as-written member | corrected member |
|---|---|---|---|---|---|---|
| streamlit_app.py:212 | `processed_data["month"].unique()` on the frame `process_data` returns; when no record survives, `pd.DataFrame([])` has no `month` column and the lookup raises KeyError | `{"alice@example.com": [null]}`: the record is skipped, there are no rows, and the month list fails | an empty month list after the "no valid data" warning | not executed | Aggregator.MonthsAsWritten (Aggregator.MonthsAsWrittenFails, Aggregator.AllSkippedUpload) | Aggregator.Months (Aggregator.MonthsSpec) |
