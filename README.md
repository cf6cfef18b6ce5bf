# Sauna dashboard: data loading, upload handling and file classification

This project models, in Dafny, the deterministic core of a sauna business
dashboard. The core has four parts:

- **`SaunaDataProcessor`** (`data_processor.dfy`, module `DataProcessor`). It
  loads the member, reservation, lesson-slot ("frame") and sales CSV exports of
  the booking system and derives statistics from them:
  - member status counts and the gender distribution;
  - reservations per month and ticket category;
  - monthly occupancy per room;
  - monthly and total sales.
- **The dashboard upload API** (`api.dfy`, module `Api`):
  - the global dashboard state;
  - the `upload_csv` handler, which checks the extension, dispatches on the
    data type, validates the exact required column names and replaces one
    section of the state;
  - the rule that every error inside the handler leaves as a 500.
- **The batch script** (`run_processor.dfy`, module `RunProcessor`):
  - which files of the data directory are loaded, and in which order;
  - the merge of the monthly reservation counts of all ticket types;
  - the top-5, recent-6 and first-10 month listings.
- **The browser upload form** (`upload_form.dfy`, module `UploadForm`):
  - the guess of a data type from the first selected file name;
  - the state changed by the change, cancel, submit and `finally` handlers.

Three support modules carry shared definitions:

- `Tables` (`tables.dfy`): tables as a column list plus rows mapping column
  names to cells. A cell is missing (pandas NaN/NaT), text, an exact real
  number, an instant or a monthly period. The module also holds filter,
  `value_counts`, sums, means and substring tests.
- `Numeric` (`numeric.dfy`): the decimal parser behind `pd.to_numeric`, and the
  plain and thousands-separated renderings of naturals.
- `Sorting` (`sorting.dfy`): Python's `sorted` as an insertion sort by a strict
  total order, and Python's order on strings.

These pieces come from outside and are modelled as parameters:

- reading a CSV file: `readCsv: string -> Option<Frame>`, where `None` means
  the read raised;
- parsing a date: `parse: DateReader`, one reader for text and one for
  numbers (pandas reads a number as nanoseconds since the epoch); `None`
  means the cell does not convert;
- the current instant: `now`;
- the directory listing: a sequence of names;
- the uploaded table: already decoded, or the reader's error message;
- writing the uploaded file: the error message when the write raises.

The processor and the dashboard state are classes whose methods assign their
fields, as the Python objects do. The `load_*` loops are `for` loops proved
against the specification functions `AcceptedFrames` and `FailedPaths`. The
`monthly_totals` merge is a nested loop over maps. The analyses are stated as
functions of the stored tables, and lemmas prove what the code promises about
them.

Where the dashboard's design notes and the code disagree, the model follows
the code:

- Columns are matched by exact name (api.py:107-109), not by substring or
  bilingual candidates.
- A utilization upload replaces the section wholesale (api.py:164-168); it is
  not merged by month.
- `profit / sales` with zero sales is not forced to 0. With numeric `sales`
  and `costs` columns pandas yields inf or NaN there, and the model makes that
  cell missing. With a text `sales` or `costs` column the division is done on
  Python numbers and a zero sales figure raises ZeroDivisionError, which
  becomes a 500.
- An empty finance table raises at `iloc[-1]` (api.py:208). That error
  becomes a 500 like every other.
- The upload form sends its data type as a form field (static/js/upload.js:86),
  but the handler reads `data_type` as a query parameter defaulting to
  `members` (api.py:60). A form upload is therefore processed as members
  data, and the model keeps that.
- The no-show reinterpretation through `special_member_ids` does not exist in
  the code (data_processor.py:54 is never read).

## Model

| member | source | states |
|---|---|---|
| Tables.SetColumn | data_processor.py:149-150 | assigning a column gives it the new values, puts a new column last and leaves every other cell unchanged |
| Tables.ConvertDates | data_processor.py:70-77 | after `pd.to_datetime(errors='coerce')` the column holds only instants or missing cells: text becomes the instant the text reader gives, a number the instant the number reader gives, and either becomes missing when its reader gives none; an instant stays itself and a missing cell stays missing; other columns are unchanged |
| Tables.ToDatetime | data_processor.py:77 | one cell's conversion: an instant or missing, text and numbers through their readers, an instant unchanged, missing stays missing |
| Tables.CountBy | data_processor.py:118 | `value_counts` maps exactly the values that occur to their positive multiplicities |
| Tables.CountByTotal | data_processor.py:216 | the counts of a distribution add up to the number of elements counted |
| Tables.CountNonNullTotal | api.py:116-122 | a distribution of the non-missing cells totals the number of non-missing cells, which is at most the number of rows |
| Tables.FilterAll | data_processor.py:60-68 | filtering keeps the whole sequence if and only if every element passes |
| Tables.CountPartition | data_processor.py:102-113 | two disjoint predicates that cover a third split its count |
| Tables.ContainsAt | static/js/upload.js:31-42 | `includes`/`in` holds exactly when the word occurs at some position |
| Tables.ContainsWithin | static/js/upload.js:32-33 | a word inside a string is still inside it after text is added on both sides |
| Numeric.ParseDecimal | data_processor.py:243 | text read as a number consists only of digits, sign and point |
| Numeric.ParseNatToString | data_processor.py:243 | reading back the decimal rendering of a natural gives that natural |
| Numeric.RemoveChar | data_processor.py:325 | `replace(c, '')` removes every `c` and keeps every other character |
| Numeric.RemoveCharFilter | data_processor.py:325 | removing a character is filtering the string by every other character, so the kept characters stay in order |
| Numeric.StripThousands | data_processor.py:325 | removing the commas from a thousands-separated rendering gives the plain rendering |
| Sorting.Sort | run_processor.py:51 | `sorted` returns a permutation of its input |
| Sorting.SortSorted | run_processor.py:51 | the result of `sorted` is in order |
| Sorting.SortDistinct | run_processor.py:148 | sorting keeps a repetition-free list free of repetitions |
| Sorting.StringOrder | run_processor.py:51 | Python's string order is a strict total order |
| DataProcessor.RemoveMembers | data_processor.py:60-68 | the kept rows are exactly the member rows whose id is not on the delete list, in the original order |
| DataProcessor.RemoveMembersAppend | data_processor.py:60-68 | deleting members from two blocks of rows is deleting from each block, in order |
| DataProcessor.RemoveMembersRow | data_processor.py:60-68 | a single row is kept exactly when its member id is not on the delete list |
| DataProcessor.RemoveMembersCount | data_processor.py:60-68 | kept rows plus deleted rows make up all member rows |
| DataProcessor.RemoveMembersNoneListed | data_processor.py:60-68 | a delete list naming no member keeps the table unchanged |
| DataProcessor.ConvertAll | data_processor.py:70-77 | each listed member date column that is present holds, in every row, the conversion of its old cell; every other column is untouched |
| DataProcessor.LoadedMembersExcludeDeleted | data_processor.py:60-77 | after loading with a delete list, no row has an id from the delete list |
| DataProcessor.CurrentFormerPartition | data_processor.py:99-113 | row by row, no member is both current and former, and a member is one of them exactly when it has a plan start; so the two counts split the members with a plan start |
| DataProcessor.CategorizeTicket | data_processor.py:177-187 | the category is one of the four; a missing or non-text ticket is その他 |
| DataProcessor.CategorizeTicketPriority | data_processor.py:177-187 | each category holds if and only if its keyword occurs and no higher-priority keyword does |
| DataProcessor.TrialKeywordWins | data_processor.py:182-183 | a ticket name containing 体験 anywhere is 初回体験 |
| DataProcessor.CombineDateTime | data_processor.py:149-150 | joins day and time with a space; missing stays missing; raises TypeError exactly when the day column is not text or a row mixes text and numbers |
| DataProcessor.CleanRate | data_processor.py:242-243 | a rate cell becomes a number or missing, never an error |
| DataProcessor.CleanRatePercent | data_processor.py:242-243 | `n%` becomes n/100 |
| DataProcessor.CleanRates | data_processor.py:242-247 | the `.str` cleaning raises exactly when the rate column holds no text; otherwise every rate cell is cleaned and nothing else changes |
| DataProcessor.CleanAmount | data_processor.py:323-325 | an amount cell becomes a number or missing; a number stays itself |
| DataProcessor.CleanAmountThousands | data_processor.py:323-325 | `1,234`-style text reads as its value |
| DataProcessor.CleanAmounts | data_processor.py:323-325 | every amount cell is cleaned and nothing else changes |
| DataProcessor.Prepare | data_processor.py:147-150 | per-file preparation keeps the required columns and the row count; a reservation or frame file with a start time gains the combined `day time` column, and raises exactly when that join raises; a frame file also raises when its rates are not text, and otherwise its rates are cleaned with every other cell unchanged; a sales file only has its amounts cleaned and never raises |
| DataProcessor.IntakeOf | data_processor.py:143-154 | a file lacking a required column is skipped; a file is warned about exactly when reading or preparing it raises; an accepted file has the required columns and its table is the prepared one |
| DataProcessor.NumericRatesFail | data_processor.py:242-243 | a frame file whose rates are all numbers fails the `.str` cleaning and is warned about, not loaded |
| DataProcessor.Intakes | data_processor.py:137-155 | each path's fate depends only on that path |
| DataProcessor.AcceptedFrames | data_processor.py:143-152 | the collected tables are exactly those of the accepted files |
| DataProcessor.FailedPaths | data_processor.py:153-154 | the warned paths are exactly the paths whose file raised |
| DataProcessor.AcceptedHaveColumns | data_processor.py:143-147 | every collected table has the required columns |
| DataProcessor.AcceptedFramesAppend | data_processor.py:137-155 | the tables of two path lists are those of each list, in order |
| DataProcessor.RejectedFileIsolated | data_processor.py:153-157 | a skipped or failing file does not affect the files before or after it |
| DataProcessor.MergeColumns | data_processor.py:157 | the concatenated columns are the union of the inputs' columns |
| DataProcessor.Concat | data_processor.py:156-157 | `pd.concat` has a column exactly when some input has it |
| DataProcessor.ConcatRows | data_processor.py:156-157 | `pd.concat` keeps exactly the rows of the inputs |
| DataProcessor.ConcatSingle | data_processor.py:156-157 | concatenating one table keeps its rows |
| DataProcessor.ConcatAppend | data_processor.py:156-157 | `pd.concat` lists the rows of the earlier tables first, each table's rows in their order |
| DataProcessor.ConcatNumbersReady | data_processor.py:249-250 | a column numeric in every input is numeric after concatenation |
| DataProcessor.FinishLoad | data_processor.py:159-167 | after loading, the analysis' date column (the combined column when present, else the configured one) holds in every row the conversion of its concatenated cell, so only dates or missing cells; every other cell and the column list are unchanged |
| DataProcessor.Categories | data_processor.py:189-195 | the category column holds each row's ticket category, or その他 when there is no ticket column |
| DataProcessor.MonthlyStats | data_processor.py:204-212 | the unstacked table has a column per category and a row per dated month, each cell counting that pair, zero-filled |
| DataProcessor.TicketDistributionTotal | data_processor.py:216 | the ticket distribution totals the number of reservations |
| DataProcessor.TicketDistributionCategories | data_processor.py:177-195 | the distribution counts only the four categories |
| DataProcessor.MonthColumnTotal | data_processor.py:204-212 | a month's counts over the categories total the rows dated in that month |
| DataProcessor.MonthColumnCounts | data_processor.py:204-212 | a month's cells read with a zero fill are the category counts of that month |
| DataProcessor.MonthlyStatsRowTotals | data_processor.py:204-216 | for every month, the per-category counts sum to the rows dated in that month |
| DataProcessor.PeriodOf | data_processor.py:277 | a period exists exactly for an instant, and is the instant's month |
| DataProcessor.RoomMonthly | data_processor.py:292-295 | a room's monthly means cover exactly the months with a row of that room; a mean is missing exactly when no rate is numeric |
| DataProcessor.Unique | data_processor.py:286 | `unique()` lists each room once and every room that occurs |
| DataProcessor.MonthlySales | data_processor.py:357 | monthly sales have a key for exactly the months present |
| DataProcessor.MonthlySplit | data_processor.py:357-361 | sums over months covering the rows, plus undated amounts, give the total |
| DataProcessor.SalesTotalSplit | data_processor.py:354-362 | the total is the sum of the monthly sales plus the amounts of rows whose date did not parse; they agree when every date parsed |
| DataProcessor.SaunaDataProcessor.constructor | data_processor.py:7-12 | a new processor holds no data |
| DataProcessor.SaunaDataProcessor.LoadMemberData | data_processor.py:56-77 | read failures, a delete list with or without the id column, and the plain load each leave the fields as the code does; the loaded table drops the deleted members and converts the date columns |
| DataProcessor.SaunaDataProcessor.AnalyzeMemberStatus | data_processor.py:79-118 | no data gives zero counts; a missing date column raises KeyError; otherwise the trial, current and former counts, with current + former = members with a plan start, and a gender distribution that totals the non-missing genders |
| DataProcessor.SaunaDataProcessor.CollectFrames | data_processor.py:137-155 | the loop collects exactly the accepted tables in path order and warns exactly for the failing paths |
| DataProcessor.SaunaDataProcessor.LoadReservationData | data_processor.py:135-167 | with accepted files, the reservations become their concatenation with dates converted; otherwise they are unchanged |
| DataProcessor.SaunaDataProcessor.LoadFrameData | data_processor.py:224-260 | with accepted files, the lesson slots become their concatenation, with numeric rates and converted dates; otherwise they are unchanged |
| DataProcessor.SaunaDataProcessor.LoadSalesData | data_processor.py:309-339 | with accepted files, the sales become their concatenation, with numeric amounts and converted dates; otherwise they are unchanged |
| DataProcessor.SaunaDataProcessor.AnalyzeReservations | data_processor.py:169-222 | no data gives empty maps; otherwise the category column is added in place and the statistics are those of the updated table |
| DataProcessor.SaunaDataProcessor.OccupancyByRoom | data_processor.py:283-303 | one entry per non-missing room, holding that room's monthly mean rates |
| DataProcessor.SaunaDataProcessor.AnalyzeOccupancy | data_processor.py:262-307 | no data or no date column gives `{}`; otherwise the month column is added in place and each room's monthly means are reported |
| DataProcessor.SaunaDataProcessor.AnalyzeSales | data_processor.py:341-369 | no data or no date column gives zeros; otherwise the month column is added in place, with the monthly sums, the total and the mean of the amounts |
| Api.Wrap500 | api.py:101-102 | every caught error becomes a 500 whose detail is the processing-error prefix followed by the error's message |
| Api.Records | api.py:181 | `to_dict('records')` gives one record per row with exactly the table's columns |
| Api.Distribution | api.py:116-122 | a distribution counts only non-missing values, and its total is at most the number of rows |
| Api.MembersUpdate | api.py:104-140 | fails exactly when a required column is missing, with the missing-column 400; total is the row count; active counts `'active'` rows, or is the total without a status column; the gender, age-group and region distributions are the value counts of those columns; metrics exist exactly when active > 0, with join rate in (0, 100] and join + churn = 100 |
| Api.RatesSum | api.py:134-140 | join and churn rates add up to 100, and the join rate lies in (0, 100] |
| Api.RoomAverages | api.py:155 | the averages cover exactly the non-missing rooms, each with the mean of its rates |
| Api.UtilizationUpdate | api.py:142-168 | a missing column gives the 400; otherwise it fails exactly when a date does not parse or a rate is text; success covers every room |
| Api.PriceComparison | api.py:178 | there is a price for exactly the names that occur |
| Api.PriceComparisonLastWins | api.py:178 | a repeated name takes the price of its last row |
| Api.CompetitorsUpdate | api.py:170-194 | fails exactly when a required column is missing; the price comparison is the name-to-rate table of the rows; the details are the records of every row; the area distribution is the value count of the area column, or empty without one |
| Api.WithProfit | api.py:204-205 | every row's profit is sales minus costs, missing when either is missing; the two profit columns are added |
| Api.SalesByMemberType | api.py:214-217 | there is a sum for exactly the non-missing member types, each the sum of the numeric sales of that type's rows (text sales count as 0) |
| Api.FinanceUpdate | api.py:196-224 | a missing column gives the 400, the only HTTP error; otherwise it fails exactly on an empty table, a non-numeric subtraction, or a zero sales figure reached by the row-by-row division that a text `sales` or `costs` column forces (ZeroDivisionError); the trend is the records of the table with its profit columns and the latest month is its last row; the member-type sales are the per-type sums of that table, or empty without a member type column |
| Api.ZeroSalesBesideTextCostsFails | api.py:204-205 | a text costs figure beside a missing sales figure, then a sales figure of 0 with missing costs: the upload fails with ZeroDivisionError although no profit is present |
| Api.FinanceTrend | api.py:204-211 | the trend carries each row's profit, and the reported columns gain `profit` and `profit_rate` |
| Api.DataTypeOf | api.py:75-84 | each section is selected by exactly its own data-type name, and any other name selects none |
| Api.OutcomeErrors | api.py:75-84 | an unknown type raises the 400 naming it; a known type lacking its required columns raises that type's missing-column 400, the only HTTP error a known type raises; otherwise the chain succeeds exactly when the section's processing does and raises what it raises |
| Api.MissingColumnsReportedAs500 | api.py:101-110 | a members upload lacking a column reaches the client as a 500 whose detail embeds `400: ` and the missing-column message, not as a 400 |
| Api.BadRequestMessage | api.py:101-102 | `str()` of a 400 HTTPException is `400: ` followed by its detail |
| Api.RequestedType | api.py:60 | the data type is the `data_type` query parameter, `members` when the request has none |
| Api.Dashboard.constructor | api.py:37-48 | the dashboard starts with the fixed labels and every section empty |
| Api.Dashboard.ProcessMembersData | api.py:104-140 | on success members are replaced, and metrics only with an active member; on failure nothing changes |
| Api.Dashboard.ProcessUtilizationData | api.py:142-168 | on success the utilization section is replaced wholesale; on failure nothing changes |
| Api.Dashboard.ProcessCompetitorsData | api.py:170-194 | on success the competitors section is replaced; on failure nothing changes |
| Api.Dashboard.ProcessFinanceData | api.py:196-224 | on success the finance section is replaced; on failure nothing changes |
| Api.Dashboard.Dispatch | api.py:75-84 | the result is exactly the chain's outcome (an unknown type: its 400; a known type: its processing's error); only the named section can change, and only on success, to the section its processing computes; metrics change only with an active member |
| Api.Dashboard.UploadCsv | api.py:59-102 | a non-`.csv` name gets a 400 before anything else; after that every error is a 500 embedding the original message: the read error, the chain's error or the save error; the data type defaults to members; the state is unchanged unless processing succeeded; a failed save after processing is a 500 that keeps the new section; success reports rows, columns and the save path |
| RunProcessor.FirstIndex | run_processor.py:25-26 | the first position satisfying the test, or the length when there is none |
| RunProcessor.CsvFiles | run_processor.py:19 | exactly the listed names ending in `.csv` |
| RunProcessor.MemberPaths | run_processor.py:23-35 | the main file is the first member CSV without `delete`, and the delete file the first one with it; either may be absent; nothing is loaded without a main file |
| RunProcessor.SortedNames | run_processor.py:51 | the CSV names containing the word, each as often as listed, in ascending order |
| RunProcessor.PathsOf | run_processor.py:53 | each name joined to the data directory, in the same order |
| RunProcessor.SelectFiles | run_processor.py:19-133 | the member paths and the sorted reservation, frame and sales lists the script loads |
| RunProcessor.MergeType | run_processor.py:69-74 | the inner loop adds one ticket type's counts to the running totals |
| RunProcessor.MonthlyTotals | run_processor.py:68-74 | a key for every month under any ticket type, holding the sum of that month's counts over all types |
| RunProcessor.MonthsOfTable | run_processor.py:148 | a table's months, each once |
| RunProcessor.ItemsAt | run_processor.py:148 | `items()` pairs each listed month with its value |
| RunProcessor.SortedItems | run_processor.py:148 | sorted items list every entry of the table once, strictly in order |
| RunProcessor.DistinctCardinality | run_processor.py:148 | a repetition-free list of a set's members is as long as the set |
| RunProcessor.Ranked | run_processor.py:148 | ranking by sales lists every month once: higher sales first, ties earlier first |
| RunProcessor.TopPrefix | run_processor.py:148 | the first k ranked items rank above every month left out |
| RunProcessor.TopMonths | run_processor.py:148 | at most five months, best first, each ranking above every month left out |
| RunProcessor.SortedKeys | run_processor.py:154 | the months of a table in ascending order, each once |
| RunProcessor.MonthSuffix | run_processor.py:154 | the last months of the ascending list come after every month left out |
| RunProcessor.MonthPrefix | run_processor.py:77 | the first months of the ascending list come before every month left out |
| RunProcessor.RecentMonths | run_processor.py:154 | the last six months in ascending order; every month left out is earlier |
| RunProcessor.FirstMonthlyTotals | run_processor.py:77 | the first ten merged months in ascending order; every month left out is later |
| UploadForm.ToLower | static/js/upload.js:31 | lower-casing keeps the length and leaves no upper-case ASCII letter |
| UploadForm.ToLowerIdempotent | static/js/upload.js:31 | lower-casing twice is lower-casing once |
| UploadForm.ContainsLower | static/js/upload.js:31 | a lower-case word in a name is still there after lower-casing |
| UploadForm.DetectDataType | static/js/upload.js:31-42 | each guess holds exactly when its word occurs in the lower-cased name and no earlier word does (frame/occupancy, sales, member, reservation), otherwise `auto` |
| UploadForm.DetectIgnoresCase | static/js/upload.js:31 | letter case never changes the guess |
| UploadForm.FrameWins | static/js/upload.js:32-33 | `frame` anywhere in a name gives `occupancy`, whatever else the name contains |
| UploadForm.SalesWins | static/js/upload.js:34-35 | without frame or occupancy, `sales` anywhere wins over member and reservation |
| UploadForm.FrameFilesGuessedAsOccupancy | static/js/upload.js:32-33 | a file the batch script loads as frame data is guessed as occupancy data |
| UploadForm.FormTypesNotDispatched | static/js/upload.js:83-86 | no value of the data-type select names a section of the handler, and a request without the query parameter is handled as members |
| UploadForm.SelectionLabel | static/js/upload.js:19-28 | one file shows its name; no file shows なし |
| UploadForm.Form.constructor | static/js/upload.js:3-12 | the form starts with no files, type `auto`, label なし, no error and the button enabled |
| UploadForm.Form.OnFilesChanged | static/js/upload.js:18-46 | a selection sets the label, clears the error and guesses the type from the first file; an empty selection only resets the label |
| UploadForm.Form.Cancel | static/js/upload.js:49-55 | the selection, label, error and type return to their start, and the progress bar to 0% when there is one |
| UploadForm.Form.Submit | static/js/upload.js:58-77 | no files: an error and no request; one file: the single upload; more: the multiple upload; with files the button is disabled |
| UploadForm.Form.Settle | static/js/upload.js:139-143 | after any upload outcome the button is enabled again |

## Left out

- Age statistics (`describe`, data_processor.py:120-125): floating-point summaries that are only reported.
- Hourly and weekday occupancy means (data_processor.py:278-279, 296-297), and the utilization monthly and weekday means (api.py:150-161): these depend on hour and weekday extraction from dates, which is left abstract.
- The `profit_rate` column (api.py:205): its cells are computed, but where the columns are numeric a zero sales figure gives a missing cell instead of pandas' inf or NaN.
- Api.WithProfit: states the `profit` column but not the values of `profit_rate`, because that is a floating-point division with an inf/NaN hazard.
- Writing the uploaded file (api.py:86-91): file-system I/O. Only its error message, the parameter `save`, and the returned save path are modelled.
- The success and error handlers of the uploads and the simple-upload fallback (static/js/upload.js:80-137, 146-284): network requests and asynchronous UI updates.
- Floating-point numbers are exact reals: rounding is not modelled, so sums and rates are exact.
- pandas' own exceptions are modelled by kind only (`PandasError("TypeError")` and so on). Their message text, which the 500 detail embeds, is not modelled.
- Date parsing and CSV reading are the parameters `parse` and `readCsv`: pandas' formats, encodings, delimiter handling and the epoch-nanosecond reading of numbers are not modelled beyond those readers.
- Numeric.ParseDecimal: reads an optional sign and digits with an optional point. Exponents, `inf`/`nan` spellings and surrounding whitespace, which `pd.to_numeric` also accepts, are treated as unparsable.
- UploadForm.ToLower: lower-cases ASCII letters only, because JavaScript's full Unicode case mapping is not modelled.
- In the processor's sales, an amount that stays text after cleaning cannot occur, because cleaning makes every amount a number or missing (data_processor.py:323-325). The `groupby().sum()` behaviour on text is therefore not needed there.
- Api.SalesByMemberType: the finance upload's `sales` column is not cleaned (api.py:196-217), and a text cell there is summed as 0. pandas' object-column `groupby('member_type')['sales'].sum()` instead joins the texts of a group and raises TypeError when a group mixes text and numbers. That object-dtype arithmetic is not modelled, so `FinanceUpdate` does not fail in the mixed case either.
- `special_member_ids` (data_processor.py:54) is never read, so it has no model.
- DataProcessor.Concat: the concatenated column order is the first table's columns followed by new ones. pandas may order a union of differing columns differently, and only the set of columns is stated.
- UploadForm.Form.constructor: the page's select is taken to start at `auto` and to offer only the five values the detection chain sets.
- Printing in the batch script and the processors' warning messages: output only. A warned path is modelled, but its message text is not.
- The iteration order of Python dictionaries in the `monthly_totals` merge: the merge is proved for every order of ticket types and months.
- The `os.makedirs` of the data directory and `os.listdir` (run_processor.py:13-19): the listing is a parameter.
