# Telegram transfer-slip ledger: a verified model

This project models the core of a small money-transfer back office. A
Telegram bot receives messages in a group chat. The messages hold transfer
slips as text, photos of slips and identity cards, and documents. The bot:

- parses the slip text;
- merges it with what the image and document analysis services read from the files;
- links a customer's identity card sent in an earlier message;
- archives every message;
- records a transaction in the ledger, with its settlement in USDT.

The bot also answers three commands: the 查账 read-only link, `/process_batch`
and `/reanalyze`.

Around the ledger sit the reports that read it:

- the dashboard's metrics, profit totals and account statistics;
- the periodic profit report;
- the CSV export;
- the status overview and the charts;
- the data summary behind the AI report.

Smaller pieces are modelled too:

- the maintenance countdown and the date display of the transaction list;
- the dashboard's date-range filter;
- the read-only view and the global search;
- two admin functions that rewrite stored transactions.

Every module follows one source file or function. JavaScript's loose values are
modelled explicitly:

- An absent field, and the `NaN` of an unparseable number, are `None`.
- `x || d` is a function per type: `OrText`, `OrNum`, `OrInt`.
- Truthiness is a predicate (`Truthy`, `TruthyNum`, `TruthyInt`).
- Money is `real`.

Dates are values that carry their local calendar fields and their epoch
milliseconds. The caller supplies "now", today's midnight, the current year and
the date library's parsing and formatting. The AI services, file uploads and
the store's answers are parameters of the handler (`Webhook.Services`,
`Batch.Env`), so each message is handled by a function of its inputs. The admin
functions update a `TxnStore.Store` object in place, one record at a time, as
the source does.

The reports are meant to agree. `Reconcile` proves, transaction by
transaction, where they agree and by how much they differ. Three differences
are proved:

- The dashboard adds the transfer fee as stored; the profit report converts it
  at the rate.
- The dashboard adds the penalty; the export subtracts it.
- The bot's stored settlement subtracts the 25 USDT fee after conversion; the
  export's recomputation subtracts it before conversion.

Three behaviours of the code that the model keeps as written:

- Fields from the text-analysis service overwrite the parsed ones (the `{...textData, ...llmData}` spread); they do not merely fill the fields the parser left unset.
- A currency read from the evidence overwrites the parsed one only when it normalises to a known label.
- An analysed document supplies only amount, currency and bank name, because its keys differ from the image analysis keys.

## Model

| member | source | states |
|---|---|---|
| Currency.FirstKeyIn | functions/telegramWebhook.ts:189-195 | the index found is the first table entry whose key the text contains; none means no key is contained |
| Currency.NormalizeNone | functions/telegramWebhook.ts:189-195 | `normalizeCurrency` returns null exactly when the upper-cased token contains no table key |
| Currency.NormalizeFirstKey | functions/telegramWebhook.ts:189-195 | a result is the label of the first table key contained in the upper-cased token |
| Currency.NormalizeCanonical | functions/telegramWebhook.ts:10-26 | every non-null result is one of the canonical labels |
| Currency.IsoBeforeHan | functions/telegramWebhook.ts:10-26 | a token containing an ISO code normalises to the label of that code or of an earlier ISO entry, before any Chinese key is tried |
| Currency.NormalizeIgnoresCase | functions/telegramWebhook.ts:189-195 | lower-casing the token does not change the result |
| Currency.NormalizeLabel | functions/telegramWebhook.ts:10-26 | each canonical label normalises to itself |
| Currency.NormalizeIdempotent | functions/telegramWebhook.ts:189-195 | normalising a normalised label gives it back |
| Pattern.Match | functions/telegramWebhook.ts:207-256 | a captured value has the shape its capture group allows: a full date is four digits, `-` or `/`, then a month-day; a month-day is one or two digits, `-` or `/`, one or two digits; a currency token is three ASCII letters or a run of Chinese characters; digits, decimal, number and account captures hold only their characters |
| Pattern.MonthDayEnd | functions/telegramWebhook.ts:208-212 | a `\d{1,2}[-/]\d{1,2}` match spans at least three characters and has the month-day shape |
| Pattern.FullDateAt | functions/telegramWebhook.ts:208 | a full-date capture is four digits, a separator and a month-day |
| Pattern.MatchHasLabel | functions/telegramWebhook.ts:207-256 | a label regex matches only a line that contains one of its labels |
| SlipParser.FirstBranch | functions/telegramWebhook.ts:207-257 | a branch guarded by the remitter exclusion is never chosen for a line mentioning 汇款 or 客户 |
| SlipParser.LineBranch | functions/telegramWebhook.ts:230-235 | the receiving account name and number branches never fire on a line mentioning 汇款 or 客户 |
| SlipParser.PartialDateText | functions/telegramWebhook.ts:214-215 | the year, `-`, two digits reading as the captured month, `-`, two digits reading as the captured day |
| SlipParser.DateValueCases | functions/telegramWebhook.ts:208-217 | a full date is stored with `/` turned into `-`; else a month-day is completed with the year and padded; else the date stays |
| SlipParser.DateLineWrites | functions/telegramWebhook.ts:207-217 | a line of the date branch writes the full date with `/` turned into `-`, else the year-completed month-day with two-digit month and day, else leaves the date unchanged |
| SlipParser.SlashToDash | functions/telegramWebhook.ts:210 | the date keeps its length and characters, with every `/` replaced by `-` |
| SlipParser.StripNumber | functions/telegramWebhook.ts:239 | the amount text is left without commas or whitespace |
| SlipParser.LineMode | functions/telegramWebhook.ts:259-261 | a line sets the mode exactly when it contains 进算 or 拖算, and sets 拖算 exactly when it contains 拖算 |
| SlipParser.ApplyBranch | functions/telegramWebhook.ts:207-257 | each branch leaves every field but its own unchanged |
| SlipParser.ApplyLine | functions/telegramWebhook.ts:203-261 | a blank trimmed line changes nothing; the mode follows the line's keyword; the amount changes only to the amount the line parses |
| SlipParser.ParseWaterSlip | functions/telegramWebhook.ts:197-264 | the loop over the lines computes the parse of the whole text, each line applied as `DateLineWrites`, `OneFieldPerLine` and `ParseLinesMode` describe |
| SlipParser.BranchWritesItsField | functions/telegramWebhook.ts:207-257 | a branch changes only the field it is named for |
| SlipParser.OneFieldPerLine | functions/telegramWebhook.ts:203-257 | apart from the mode, a line changes at most one field, the one of the first matching branch of the else-if chain |
| SlipParser.BlankLinesEmpty | functions/telegramWebhook.ts:198-205 | empty text, or only blank lines, gives the empty record |
| SlipParser.RemitterLineKeepsAccount | functions/telegramWebhook.ts:230-235 | a line mentioning 汇款 or 客户 never writes the receiving account name or number |
| SlipParser.AmountFromSomeLine | functions/telegramWebhook.ts:236-241 | a parsed amount is the non-NaN number of some line with its commas and whitespace removed |
| SlipParser.ParseLinesMode | functions/telegramWebhook.ts:259-261 | the mode is the last one any line sets |
| SlipParser.LastModeWins | functions/telegramWebhook.ts:259-261 | the last line mentioning a mode decides it |
| SlipParser.NoModeLine | functions/telegramWebhook.ts:259-261 | without a mode keyword the mode stays unset |
| Evidence.IfTruthy | functions/telegramWebhook.ts:170-180 | a string field is kept exactly when truthy |
| Evidence.IfTruthyNum | functions/telegramWebhook.ts:170-180 | a number is kept exactly when truthy (non-zero and not NaN) |
| Evidence.IfTruthyInt | functions/telegramWebhook.ts:170-180 | an integer is kept exactly when non-zero |
| Evidence.TextAnalysisFields | functions/telegramWebhook.ts:141-185 | the text service's fields exist exactly when it answered |
| Evidence.TextAnalysisFieldsShape | functions/telegramWebhook.ts:170-180 | each field the text service returns is truthy and is the service's own value |
| Evidence.Over | functions/telegramWebhook.ts:775 | a field of the spread's right side wins when present, else the left one stays |
| Evidence.OverlayLaws | functions/telegramWebhook.ts:775 | the spread has the empty record as its identity on both sides and is idempotent |
| Evidence.TextAnalysisOverwrites | functions/telegramWebhook.ts:771-776 | the service's truthy amount and currency replace the parsed ones; mode, rate and commission stay as parsed |
| Evidence.DocumentEvidence | functions/telegramWebhook.ts:114-139 | a document's analysis counts exactly when it answered with a truthy amount |
| Evidence.FillUnset | functions/telegramWebhook.ts:268-289 | an evidence field fills the field only when the field is not truthy and the evidence value is |
| Evidence.EvidenceCurrency | functions/telegramWebhook.ts:268-289 | the currency changes only to the normalised label of a truthy evidence currency |
| Evidence.MergeTransferData | functions/telegramWebhook.ts:268-289 | the copy-then-assign code computes the merge |
| Evidence.MergePrecedence | functions/telegramWebhook.ts:268-289 | with no evidence the text record is returned; a truthy evidence amount always overwrites; the currency changes only to a normalised evidence currency |
| Evidence.MergeFillsUnset | functions/telegramWebhook.ts:268-289 | recipient name, account number (into both account fields), bank name and transfer date fill only unset fields |
| Evidence.MergeIdempotent | functions/telegramWebhook.ts:268-289 | merging the same evidence twice changes nothing more |
| Evidence.MergeCurrencyCanonical | functions/telegramWebhook.ts:268-289 | a canonical currency stays canonical after the merge |
| Evidence.DocumentEvidenceFields | functions/telegramWebhook.ts:268-289 | document evidence changes only amount, currency and bank name |
| Evidence.ExtractIdCardInfo | functions/telegramWebhook.ts:293-305 | no analysis gives no information, and an age is only ever derived from an analysis |
| Evidence.AgeFromBirthYear | functions/telegramWebhook.ts:293-305 | with a birth date the age is the current year minus its first four digits |
| Text.ParseIntDigits | src/pages/Dashboard.jsx:87-89 | `parseInt` reads a non-empty string of decimal digits back as its value |
| Evidence.BirthDateBeforeAge | functions/telegramWebhook.ts:293-305 | a birth date takes precedence over a stated age |
| Evidence.ExtractAfterAgeWriteBack | functions/telegramWebhook.ts:293-305 | writing the extracted age back into the analysis and extracting again gives the same information |
| Identity.FirstWhere | functions/telegramWebhook.ts:607-612 | the index found is the first element satisfying the predicate; none means no element satisfies it |
| Identity.LinkIdCardInfo | functions/telegramWebhook.ts:594-629 | the field-by-field updates compute the linked candidate and document URL |
| Identity.LinkChangesOnlyCustomer | functions/telegramWebhook.ts:594-629 | linking changes only the customer's name, age and nationality |
| Identity.ExtractedInfoSuppressesSearch | functions/telegramWebhook.ts:598-601 | a name or age from the current message is written and the archive is not consulted |
| Identity.OtherChatsNeverLink | functions/telegramWebhook.ts:607-612 | archived messages of other chats never link; the data and URL are unchanged |
| Identity.MostRecentMatchWins | functions/telegramWebhook.ts:602-626 | the first match among the thirty most recent gives the URL and the identity |
| Identity.SearchSeesOnlyWindow | functions/telegramWebhook.ts:604 | messages beyond the thirty most recent are never consulted |
| Identity.ArchivedAgeRoundTrip | functions/telegramWebhook.ts:564-574 | an identity payload archived with an age gives that age back when linked in the same year |
| Persist.SettlementParts | functions/telegramWebhook.ts:354-356 | settlement plus fee, converted back at the rate, is the deposit less the commission; more commission leaves less; it never exceeds D/R − 25 |
| Persist.CreateTransaction | functions/telegramWebhook.ts:309-359 | the in-place normalisation and the record construction compute the new record, or the failure on an unusable date |
| Persist.NewRecordDefaults | functions/telegramWebhook.ts:310-352 | defaults 0.96, 13.5, 15 days and count 1; 待完善 for missing names; today's date; end of maintenance = deposit date + days; failure exactly when that date cannot be formed |
| Persist.NewRecordOpening | functions/telegramWebhook.ts:323-356 | a new record is waiting, with fee 25, no penalty, no acceptance, source telegram, its chat and message, and a settlement that with commission and fee makes up D/R |
| Archive.CategoryFor | functions/telegramWebhook.ts:547-557 | a greeting is an inquiry; otherwise a transfer mention is a transaction; otherwise other |
| Archive.TagsMembership | functions/telegramWebhook.ts:547-562 | each tag is present exactly when its condition holds |
| Archive.EmptyTextUntagged | functions/telegramWebhook.ts:547-557 | an empty text earns no text tag |
| Archive.Payload | functions/telegramWebhook.ts:564-574 | transfer evidence wins; with none, an identity payload exists exactly when an identity photo was seen |
| Archive.Classify | functions/telegramWebhook.ts:547-562 | the step-by-step code computes the category and the tags |
| Archive.ArchiveMessage | functions/telegramWebhook.ts:546-590 | the record written is the archived form of the message, with status `processed` |
| Batch.BatchSelection | functions/telegramWebhook.ts:441-446 | at most ten messages, each a waiting message of the chat among the fifty most recent; fewer than ten means every such message |
| Batch.ProcessedNeverBatched | functions/telegramWebhook.ts:444 | processed messages, including every message the webhook archives, are never batched |
| Batch.FileUrlsCover | functions/telegramWebhook.ts:454-455 | messages that each carry a file give at least as many files as messages |
| Batch.Items | functions/telegramWebhook.ts:459-465 | one analysed item per file |
| Batch.FirstSuch | functions/telegramWebhook.ts:467-485 | the first index satisfying the test, or none |
| Batch.Classify | functions/telegramWebhook.ts:467-485 | the loop picks the identity document and the slip as the first-match definitions say |
| Batch.MarkAll | functions/telegramWebhook.ts:520-522 | every batch message, in order, is marked processed |
| Batch.HandleProcessBatch | functions/telegramWebhook.ts:439-542 | the step-by-step handler computes the reply |
| Batch.NeverWithoutFiles | functions/telegramWebhook.ts:448-455 | a non-empty batch always has files to analyse |
| Batch.DoneNeedsSlip | functions/telegramWebhook.ts:487-522 | a record is created only from a slip with a truthy amount and currency, with rate 0.96, commission 13.5 and 15 days, only when the store accepts it, and exactly the batch is marked |
| Batch.CreateFailureMarksNothing | functions/telegramWebhook.ts:514-541 | when the store refuses the record, the batch fails instead of completing, no message is marked, and every earlier outcome (nothing to process, no slip) is unchanged |
| Batch.IdentityFromFirstIdCard | functions/telegramWebhook.ts:489-495 | the identity document's truthy name, age and nationality win over the slip |
| Batch.PicksFirst | functions/telegramWebhook.ts:467-485 | the first identity document is picked; the slip is the first other recognised file |
| Webhook.CollectFiles | functions/telegramWebhook.ts:674-739 | the photo and document steps compute the collected media |
| Webhook.AttemptTransaction | functions/telegramWebhook.ts:771-805 | parse, text service, merge, link and create compute the attempt's outcome |
| Webhook.ReadTextData | functions/telegramWebhook.ts:770-775 | the slip parse, with the text service's fields spread over it only when the amount or currency is falsy and the text is over ten UTF-16 units long |
| Webhook.HandleMessage | functions/telegramWebhook.ts:646-807 | the handler computes the outcome and the archived record of one message |
| Webhook.AnswerCommand | functions/telegramWebhook.ts:657-671 | the commands, tried in order, compute their answers |
| Webhook.FindTrigger | functions/telegramWebhook.ts:759 | the keyword loop decides the trigger test |
| Webhook.HandleOtherMessage | functions/telegramWebhook.ts:674-807 | the path past the commands computes its outcome |
| Webhook.CommandsComeFirst | functions/telegramWebhook.ts:657-671 | a command is answered before any file: nothing archived, no transaction attempted |
| Webhook.AttemptOutcomes | functions/telegramWebhook.ts:787-805 | an attempt ends in missing fields, a created record or a failed creation |
| Webhook.CreateFailureReported | functions/telegramWebhook.ts:796-805 | when the store refuses the record, an attempt that would have created it reports a failed creation, an attempt missing fields still reports the missing fields, and a created record is one the store accepted |
| Webhook.OtherArchivedWhenStored | functions/telegramWebhook.ts:742-750 | a non-command message is archived exactly when the store accepts the write |
| Webhook.OtherNotAnswered | functions/telegramWebhook.ts:673-807 | a non-command message never gets a command's answer |
| Webhook.OthersArchived | functions/telegramWebhook.ts:742-750 | through the whole handler, a non-command message is archived exactly when the write succeeds |
| Webhook.CreatedByAttempt | functions/telegramWebhook.ts:759-805 | a created record comes from an attempt on the message's own files and archive record |
| Webhook.LinkLastsADay | functions/telegramWebhook.ts:385-387 | the 查账 link expires a day after it is asked for |
| Webhook.AttemptNeedsTrigger | functions/telegramWebhook.ts:755-765 | a transaction is attempted only with a trigger keyword or transfer evidence |
| Webhook.AttemptCreates | functions/telegramWebhook.ts:787-797 | a created record has a non-zero amount and a currency, is waiting, points at its chat and message, and deposits the evidence's truthy amount |
| Webhook.CreatedHasAmountAndCurrency | functions/telegramWebhook.ts:787-793 | no record without an amount and a currency, for the whole handler |
| Webhook.TextServiceOnlyWhenNeeded | functions/telegramWebhook.ts:772 | without a missing amount or currency and a text over ten units, the service's answer makes no difference |
| Webhook.TextServiceOverwrites | functions/telegramWebhook.ts:771-776 | once consulted, the service's truthy amount and currency replace the parsed ones |
| Webhook.EvidenceAmountRecorded | functions/telegramWebhook.ts:779-797 | a created record deposits the evidence's truthy amount, whatever the text said |
| Webhook.TriggerIgnoresCase | functions/telegramWebhook.ts:759 | the trigger test ignores ASCII case |
| Webhook.EvidenceSources | functions/telegramWebhook.ts:694-739 | an identity photo is never evidence; a document is evidence only without photo evidence and with an amount |
| Ledger.Num | src/pages/Dashboard.jsx:149-153 | `parseFloat(x) \|\| 0`: 0 for absent or NaN, the value otherwise |
| Ledger.StatusGroupsDisjoint | src/pages/AIReport.jsx:71-74 | completed, pending, returned and frozen never overlap, and both frozen statuses count as frozen |
| Ledger.StatusCountsWithinTotal | src/pages/AIReport.jsx:71-74 | the four group counts add up to at most the number of transactions |
| Ledger.DepositOrCreated | src/pages/Dashboard.jsx:82 | the deposit date when set, else the creation date |
| Ledger.UsdtValueConverts | src/components/dashboard/StatusOverview.jsx:50-54 | a USDT value is 0 without a positive rate and converts back to the deposit at the rate |
| Ledger.Filter | src/pages/Dashboard.jsx:111-113 | a filter keeps exactly the elements satisfying the predicate, and no more of them |
| Dashboard.FilteredTransactions | src/pages/Dashboard.jsx:77-92 | `all` keeps everything; another mode keeps, in order, exactly the transactions in the period |
| Dashboard.PeriodsNest | src/pages/Dashboard.jsx:87-89 | a transaction of a day is one of its month and its year |
| Dashboard.InvalidDateOnlyInAll | src/pages/Dashboard.jsx:82-83 | an unparseable date is shown only in `all` |
| Dashboard.StripHan | src/pages/Dashboard.jsx:101 | no Chinese character is left, and a text without any is unchanged |
| Dashboard.CurrencyCode | src/pages/Dashboard.jsx:101 | the key is never empty and has no Chinese character; `OTHER` for no currency or an all-Chinese one |
| Dashboard.DepositsByCurrency | src/pages/Dashboard.jsx:97-108 | one bucket per currency key |
| Dashboard.DepositCounts | src/pages/Dashboard.jsx:97-114 | the buckets' counts add up to `totalTransactions` |
| Dashboard.DepositAmounts | src/pages/Dashboard.jsx:97-108 | the buckets' amounts add up to the counted transactions' deposits |
| Dashboard.CalculateMetrics | src/pages/Dashboard.jsx:94-128 | totals over the non-special transactions of the period, with USDT only where the rate is positive |
| Dashboard.CalculateProfitMetrics | src/pages/Dashboard.jsx:130-241 | each profit is commission + fee + exchange + penalty; completed ≤ estimated; both penalty totals agree |
| Dashboard.ProfitTotals | src/pages/Dashboard.jsx:148-220 | the loop over eleven accumulators computes the totals |
| Dashboard.ReturnedOnlyPenalty | src/pages/Dashboard.jsx:156-160 | a returned transaction adds only its penalty |
| Dashboard.FrozenOnlyPenaltyAndFunds | src/pages/Dashboard.jsx:163-180 | a frozen transaction adds its penalty and D/R to frozen funds when both are positive, and no profit |
| Dashboard.InvalidContributesNothing | src/pages/Dashboard.jsx:183 | a non-special transaction with deposit or rate ≤ 0 adds nothing, not even its penalty |
| Dashboard.ValidShare | src/pages/Dashboard.jsx:185-219 | commission (D·C/100)/R, the fee unconverted, exchange acceptance − D/R (0 without acceptance), counted as actual only when completed |
| Dashboard.CompletedWithinEstimated | src/pages/Dashboard.jsx:197-219 | completed count ≤ estimated count, and the two penalty totals are equal |
| Dashboard.FrozenFundsOnlyFromFrozen | src/pages/Dashboard.jsx:163-180 | with no frozen transaction there are no frozen funds |
| Dashboard.CurrencyKey | src/pages/Dashboard.jsx:305 | the currency key has one to three characters |
| Dashboard.TallyConsistent | src/pages/Dashboard.jsx:300-332 | one tally keeps every company/currency total equal to the sum over its accounts |
| Dashboard.AccountStats | src/pages/Dashboard.jsx:296-335 | the `forEach` computes the table, and every company/currency total is the sum of its account details |
| Dashboard.TallyAccounts | src/pages/Dashboard.jsx:300-333 | the `forEach` over the filtered transactions computes the table of the non-special ones, and every company/currency total stays the sum of its account details |
| Dashboard.SpecialNotTallied | src/pages/Dashboard.jsx:302 | a special-status transaction leaves the table unchanged |
| ProfitReport.YearText | src/components/dashboard/ProfitReportTable.jsx:24-34 | at least four digits, and exactly the year for years 1 to 9999 |
| ProfitReport.MonthText | src/components/dashboard/ProfitReportTable.jsx:24-25 | two digits that read as the month |
| ProfitReport.Quarter | src/components/dashboard/ProfitReportTable.jsx:28 | months 1-3 are quarter 1, and so on |
| ProfitReport.KeysFollowPeriods | src/components/dashboard/ProfitReportTable.jsx:23-37 | keys are equal exactly for the same period, and order as the calendar |
| ProfitReport.MonthKeysEqual | src/components/dashboard/ProfitReportTable.jsx:24 | month keys are equal exactly for the same year and month |
| ProfitReport.QuarterKeysEqual | src/components/dashboard/ProfitReportTable.jsx:28-30 | quarter keys are equal exactly for the same year and quarter |
| ProfitReport.ProfitOf | src/components/dashboard/ProfitReportTable.jsx:65-76 | a profit exists exactly for a completed transaction with a positive rate |
| ProfitReport.CompletedProfit | src/components/dashboard/ProfitReportTable.jsx:76-89 | commission (D·C/100)/R, fee f/R, exchange acceptance − D/R or 0; the deposit is not checked |
| ProfitReport.BuildReport | src/components/dashboard/ProfitReportTable.jsx:12-103 | the `forEach` and the sort compute the report, or its failure |
| ProfitReport.GroupTransactions | src/components/dashboard/ProfitReportTable.jsx:16-99 | the `forEach` computes the grouping of the whole list, which fails from the first set but unparseable creation date on |
| ProfitReport.AddTransaction | src/components/dashboard/ProfitReportTable.jsx:17-98 | one callback: no creation date leaves the groups alone, an unparseable one throws, otherwise the transaction is filed under its period |
| ProfitReport.FailureStays | src/components/dashboard/ProfitReportTable.jsx:16-37 | once `format` has thrown, the report has failed |
| ProfitReport.GroupingFailsOnInvalidDate | src/components/dashboard/ProfitReportTable.jsx:17-24 | the report fails exactly when some creation date is set but unparseable |
| ProfitReport.StepFails | src/components/dashboard/ProfitReportTable.jsx:17-24 | one pass throws exactly on a set but unparseable creation date |
| ProfitReport.GroupedWellFormed | src/components/dashboard/ProfitReportTable.jsx:39-99 | each line is filed under its key, one per key, with total = penalty + commission + fees + exchange |
| ProfitReport.GroupedTotals | src/components/dashboard/ProfitReportTable.jsx:56-92 | the penalties add up over every dated transaction; the count is the dated completed ones with a positive rate |
| ProfitReport.ReportLines | src/components/dashboard/ProfitReportTable.jsx:102 | lines are balanced, one per key, strictly newest key first, with the totals above |
| CsvExport.Headers | functions/exportTransactionsToCsv.ts:17-23 | 22 titles in order |
| CsvExport.DeriveColumns | functions/exportTransactionsToCsv.ts:30-60 | the `let` reassignments compute the derived columns |
| CsvExport.ColumnsConvertAtRate | functions/exportTransactionsToCsv.ts:37-60 | all zero but the stored settlement for rate ≤ 0; otherwise conversions at R, a settlement of 0 replaced by (D − f − D·C/100)/R, exchange against acceptance or settlement, total net of penalty |
| CsvExport.Quoted | functions/exportTransactionsToCsv.ts:63-68 | a text cell is wrapped in double quotes |
| CsvExport.Row | functions/exportTransactionsToCsv.ts:62-85 | every row has 22 cells |
| CsvExport.Lines | functions/exportTransactionsToCsv.ts:26-87 | a header line, then one line per transaction |
| CsvExport.ExportTransactionsToCsv | functions/exportTransactionsToCsv.ts:3-103 | 401 without a user; 500 when listing fails; otherwise a BOM and the lines joined by line breaks |
| CsvExport.BuildLines | functions/exportTransactionsToCsv.ts:26-87 | the push loop computes the lines in input order |
| CsvExport.ExportReadsBack | functions/exportTransactionsToCsv.ts:26-89 | split back by lines and commas, the output gives the header and each transaction's cells in order |
| StatusOverview.StatOfMeaning | src/components/dashboard/StatusOverview.jsx:48-55 | an entry holds exactly its status's transactions, in order, with their number and summed USDT value |
| StatusOverview.Entries | src/components/dashboard/StatusOverview.jsx:48-55 | one entry per configured status, in order |
| StatusOverview.NonEmptyKeepsOccurring | src/components/dashboard/StatusOverview.jsx:56 | the filter keeps exactly the entries with a positive count, in order |
| StatusOverview.NonEmptySums | src/components/dashboard/StatusOverview.jsx:56 | dropping empty entries changes neither total |
| StatusOverview.EntriesSums | src/components/dashboard/StatusOverview.jsx:48-56 | over distinct statuses the counts and USDT values add up to those of the transactions with one of them |
| StatusOverview.ConfiguredDistinct | src/components/dashboard/StatusOverview.jsx:8-19 | the eight statuses are distinct |
| StatusOverview.CountsWithinTotal | src/components/dashboard/StatusOverview.jsx:48-65 | the counts add up to at most `totalCount`, equal exactly when every status is configured, and then the USDT totals agree |
| StatusOverview.Find | src/components/dashboard/StatusOverview.jsx:154 | the entry found has the status; none means no entry has it |
| StatusOverview.ListView | src/components/dashboard/StatusOverview.jsx:153-154 | one row per configured status |
| StatusOverview.ListViewShowsEveryStatus | src/components/dashboard/StatusOverview.jsx:153-154 | row k is the entry of status k, empty when absent |
| StatusOverview.StatusDataInConfigurationOrder | src/components/dashboard/StatusOverview.jsx:8-56 | the chart lists the occurring statuses in configuration order, none missing |
| Charts.RatesPositive | src/components/transactions/TransactionCharts.jsx:12-18 | every listed rate is positive |
| Charts.ToUsdKeepsSign | src/components/transactions/TransactionCharts.jsx:20-23 | an unlisted currency counts as dollars; the sign of the amount is kept |
| Charts.FilteredKeepsRecent | src/components/transactions/TransactionCharts.jsx:44-52 | `all` keeps everything; another range keeps, in order, exactly those dated at or after the cutoff: the calendar's instant 7, 30 or 90 days back for `7d`, `30d`, `90d`, now for any other range |
| Charts.LongerRangeKeepsMore | src/components/transactions/TransactionCharts.jsx:47-51 | in a calendar where going further back never gives a later instant, a longer range keeps everything a shorter one keeps |
| Charts.TallyBy | src/components/transactions/TransactionCharts.jsx:57-64 | the `forEach` computes the tally |
| Charts.TallyContents | src/components/transactions/TransactionCharts.jsx:57-64 | one entry per occurring key, filed under it, with its count and dollar value; none for other keys |
| Charts.TallyTotals | src/components/transactions/TransactionCharts.jsx:57-64 | the counts and dollars add up to those of the keyed transactions |
| Charts.TopTenLargest | src/components/transactions/TransactionCharts.jsx:65 | at most ten entries of the tally, in decreasing dollars, none left out larger than one kept |
| Charts.CurrencyCode | src/components/transactions/TransactionCharts.jsx:60 | the currency key is never empty |
| Charts.ByCurrency | src/components/transactions/TransactionCharts.jsx:55-66 | the top ten currency tallies |
| Charts.ByCustomer | src/components/transactions/TransactionCharts.jsx:69-78 | the top ten customer tallies |
| Charts.ByMonth | src/components/transactions/TransactionCharts.jsx:81-92 | the month tallies in key order |
| Charts.ByMonthInOrder | src/components/transactions/TransactionCharts.jsx:81-92 | one entry per month with a valid date, strictly increasing keys, counts adding up to the valid dates |
| Charts.MonthKeyIsReportKey | src/components/transactions/TransactionCharts.jsx:86 | for four-digit years the chart's month key is the profit report's, so it orders as the calendar |
| Charts.ByStatus | src/components/transactions/TransactionCharts.jsx:95-103 | the status slices in tally order |
| Charts.StatusSlicesCountAll | src/components/transactions/TransactionCharts.jsx:97-101 | the status tally counts every transaction once, under distinct keys |
| Charts.ByStatusSumsToCount | src/components/transactions/TransactionCharts.jsx:95-103 | the slice values add up to the number of transactions shown |
| AiReport.QuarterStart | src/pages/AIReport.jsx:58 | the quarter's first month holds the month |
| AiReport.FilteredDataSince | src/pages/AIReport.jsx:52-65 | exactly the records created at or after the start, in order; even `all` drops undated ones |
| AiReport.RateOrOne | src/pages/AIReport.jsx:79 | the rate used is never 0 |
| AiReport.CompletedProfit | src/pages/AIReport.jsx:76-87 | the loop computes the profit totals |
| AiReport.ProfitShare | src/pages/AIReport.jsx:78-86 | rate defaults to 1; commission and fee converted at it; no acceptance gives no exchange profit |
| AiReport.NoAcceptanceNoExchange | src/pages/AIReport.jsx:82-85 | without acceptances there is no exchange profit |
| AiReport.CurrencyCode | src/pages/AIReport.jsx:92 | at most three characters, or `OTHER` |
| AiReport.CurrencyDistribution | src/pages/AIReport.jsx:90-94 | the loop computes the distribution |
| AiReport.CurrencyMapTotal | src/pages/AIReport.jsx:91-94 | the amounts add up to the deposits of the non-special transactions |
| AiReport.CurrencyMapKeys | src/pages/AIReport.jsx:91-94 | every key is the code of a non-special transaction |
| AiReport.Ages | src/pages/AIReport.jsx:97 | only positive ages are kept |
| AiReport.ElderlyWithin | src/pages/AIReport.jsx:99 | the elderly count is at most the number of ages, equal exactly when all are ≥ 70 |
| AiReport.AgeSummary | src/pages/AIReport.jsx:97-99 | no average exactly without a positive age; otherwise positive, and ≥ 70 when all are elderly |
| AiReport.BuildDataSummary | src/pages/AIReport.jsx:67-123 | counts, profit parts, total = their sum, net = rounded total − expenses |
| Maintenance.CeilDiv | src/components/transactions/TransactionList.jsx:66 | the ceiling of the quotient |
| Maintenance.GetMaintenance | src/components/transactions/TransactionList.jsx:62-68 | no countdown exactly without an end date |
| Maintenance.CountdownFlags | src/components/transactions/TransactionList.jsx:64-67 | expired and expiring in terms of the gap between midnights, never both |
| Maintenance.WholeDays | src/components/transactions/TransactionList.jsx:66 | midnights k days apart give k days |
| Maintenance.SafeFormatDate | src/components/transactions/TransactionList.jsx:50-60 | `-` for an unset date |
| Maintenance.SafeFormatDateCases | src/components/transactions/TransactionList.jsx:50-60 | the ISO parse formatted, else `new Date` formatted, else `-` |
| DateRange.GenerateYears | src/components/dashboard/DateRangeFilter.jsx:7-12 | 2024 through the year after the current one, ascending |
| DateRange.DaysIn | src/components/dashboard/DateRangeFilter.jsx:15 | 28 to 31 days; February has 29 exactly in leap years |
| DateRange.LastDay | src/components/dashboard/DateRangeFilter.jsx:15 | day 0 of the next month is the month's last day |
| DateRange.GenerateDays | src/components/dashboard/DateRangeFilter.jsx:14-17 | 1 through the month's length; nothing for an unparseable year or month |
| DateRange.FebruaryFollowsLeapRule | src/components/dashboard/DateRangeFilter.jsx:14-17 | February lists day 29 exactly in leap years |
| DateRange.Set | src/components/dashboard/DateRangeFilter.jsx:23 | replaces the one key named |
| DateRange.SetReplacesOneKey | src/components/dashboard/DateRangeFilter.jsx:23 | the key gets the value and the other three keep theirs |
| DateRange.ChangeMode | src/components/dashboard/DateRangeFilter.jsx:33 | the mode changes and year, month and day are kept |
| ReadOnly.FromUrlSafe | src/pages/ReadOnlyView.jsx:23 | `-` and `_` become `+` and `/`, every other character kept |
| ReadOnly.TokenExpiry | src/pages/ReadOnlyView.jsx:20-28 | a missing, undecodable or unexpiring token is never valid; any other is valid exactly before its deadline |
| ReadOnly.ValidEarlier | src/pages/ReadOnlyView.jsx:24 | a token valid now was valid at every earlier instant |
| ReadOnly.VisibleSelects | src/pages/ReadOnlyView.jsx:61-68 | exactly the transactions passing search and status filter, in order; everything for an empty term and `all` |
| ReadOnly.SearchIgnoresCase | src/pages/ReadOnlyView.jsx:62-65 | the term's letter case does not matter |
| ReadOnly.NameMatchFound | src/pages/ReadOnlyView.jsx:62-65 | a name containing the term is found |
| ReadOnly.Counts | src/pages/ReadOnlyView.jsx:111-116 | waiting + completed + frozen ≤ total |
| ReadOnly.FrozenCardCovers | src/pages/ReadOnlyView.jsx:115 | both frozen statuses count as frozen; waiting and completed do not |
| GlobalSearch.Search | src/components/GlobalSearch.jsx:32-65 | at most five of each kind, or the previous results |
| GlobalSearch.BlankClears | src/components/GlobalSearch.jsx:33-36 | a blank query clears; a failed fetch keeps the previous results |
| GlobalSearch.SearchFindsFirstMatches | src/components/GlobalSearch.jsx:41-58 | each list is the leading part of all matches, in fetched order, short of five only when complete |
| GlobalSearch.TrimmedQuerySame | src/components/GlobalSearch.jsx:41 | surrounding whitespace does not change the search |
| GlobalSearch.CustomerNameHit | src/components/GlobalSearch.jsx:47-51 | a name containing the trimmed query matches, whatever the case |
| GlobalSearch.ExpenseTitleHit | src/components/GlobalSearch.jsx:53-56 | a title containing the trimmed query matches, whatever the case |
| TxnStore.Patched | functions/recalculateFrozenReturned.ts:23-28 | an update rewrites the records with that id and no others |
| TxnStore.PatchedOne | functions/recalculateFrozenReturned.ts:23-28 | with unique ids an update rewrites exactly one record and keeps ids unique |
| TxnStore.Store.Update | functions/recalculateFrozenReturned.ts:23-28 | the stored records become the patched ones |
| RecalcFrozen.ClearedAll | functions/recalculateFrozenReturned.ts:16-28 | each target is cleared and every other record kept |
| RecalcFrozen.ClearedAllIdempotent | functions/recalculateFrozenReturned.ts:16-28 | a second run changes nothing |
| RecalcFrozen.ClearedAllMeaning | functions/recalculateFrozenReturned.ts:21-28 | targets have the four fields at 0 and keep status and deposit; the rest is unchanged |
| RecalcFrozen.TargetsAreSpecial | functions/recalculateFrozenReturned.ts:16-17 | the targets are exactly the statuses the books exclude |
| RecalcFrozen.ClearEach | functions/recalculateFrozenReturned.ts:21-42 | the loop clears each target by id and reports its old values |
| RecalcFrozen.RecalculateFrozenReturned | functions/recalculateFrozenReturned.ts:3-58 | 500 without a user; 403 for a non-admin, store unchanged; otherwise all targets cleared, counts and old values reported |
| RecalcUsd.RecomputedAll | functions/recalculateUsdAcceptance.ts:23-43 | each selected stale record gets the new acceptance, every other record kept |
| RecalcUsd.RecomputedAllSettles | functions/recalculateUsdAcceptance.ts:24-32 | only the acceptance of a selected positive deposit changes; afterwards no selected record is stale |
| RecalcUsd.ReportedStale | functions/recalculateUsdAcceptance.ts:29-40 | the details are those of the stale records, in selection order |
| RecalcUsd.RecomputeEach | functions/recalculateUsdAcceptance.ts:23-43 | the loop updates and reports each stale record |
| RecalcUsd.RecalculateUsdAcceptance | functions/recalculateUsdAcceptance.ts:3-59 | 403 for a non-admin, store unchanged; otherwise all stale records updated, `updated_count` = number of details, `total_checked` = number selected |
| Reconcile.SettlementsDifferByFee | functions/exportTransactionsToCsv.ts:50-55 | the bot's and the export's settlements differ by 25/R − 25: equal exactly at rate 1 |
| Reconcile.DashboardFeeUnconverted | src/components/dashboard/ProfitReportTable.jsx:76-98 | dashboard and report agree on commission and exchange; their fees agree only for a zero fee or rate 1 |
| Reconcile.ReportCountsEmptyDeposits | src/components/dashboard/ProfitReportTable.jsx:73-76 | the report counts a completed transaction without a deposit; the dashboard does not |
| Reconcile.PenaltySignsDiffer | functions/exportTransactionsToCsv.ts:59 | the dashboard's total exceeds the export's by the fee's conversion and twice the penalty |
| Reconcile.ExportExchangeFallsBackOnSettlement | functions/exportTransactionsToCsv.ts:57-58 | without acceptance the export's exchange profit is settlement − D/R, a loss of commission and fee for the bot's settlement |
| Reconcile.SummaryAgreesWithReport | src/pages/AIReport.jsx:78-85 | summary and report agree except on a negative acceptance |

## Left out

- Text.ParseInt: the `0x` prefix that makes `parseInt` read base 16 is not modelled; such a string reads as 0. The date filter's values are written by `String(number)` and never start with `0x`; a birth date from the image analysis that did (telegramWebhook.ts:299) would give a different age in the model.
- Network and store I/O: Telegram downloads and replies, the broadcast, file uploads and the store's calls. Their results are parameters; a reply's text is not modelled.
- The AI services (image, document and text analysis, the AI report's prompt and the language model call) are function parameters; the prompt text is not modelled.
- The identity-card question sent for a lone photo (`TRANSACTION_KEYWORDS`, telegramWebhook.ts:28, 675, 710-716) only sends a message, so it is not modelled.
- `buildSuccessMessage` and the `/reanalyze` reply text (telegramWebhook.ts:361-381, 423-436): message text only.
- The two-second wait for a media group (telegramWebhook.ts:753) and the `Promise.all` / `Promise.allSettled` fan-out: the model handles the files in source order.
- The GlobalSearch debounce: the model gives the results for the final query.
- The HMAC link signature, base64 and JSON decoding: the 查账 link is modelled by its expiry; the read-only token decoder is a parameter. functions/getReadOnlyToken.ts and functions/getPublicTransactions.ts are not part of this model.
- The request-level fallbacks of the webhook: a request without a message (644) and the outer catch (809-811) answer `ok` and are not modelled.
- A failure to list the batch's messages is modelled as the store's answer, not as an exception.
- Whether the store accepts a new record is the parameter `Batch.Env.createSucceeds`. It is `false` exactly when `generateTransactionNumber` or `Transaction.create` throws (telegramWebhook.ts:314, 358). A refusal gives `Failed` in the batch command and `CreateFailed` in the webhook, as an unusable date does.
- `bank_address` and `bank_location` are written empty by the bot and are not modelled as fields.
- Dates: "now", today and the current year are parameters. Each local-calendar step is a function parameter: `setDate` for the maintenance end (`Persist.AddDays`) and for the chart cutoff (`Charts.DaysBefore`); `new Date(y, m, d)` in the AI report (`AiReport.Midnight`); `setHours(0,0,0,0)` in the maintenance countdown (`Maintenance.LocalMidnight`); `parseISO` in the date display. Time zones and daylight saving exist only inside these parameters. A date is a value holding its local calendar fields and its epoch milliseconds. The date-fns `format` is a parameter in `Maintenance.SafeFormatDate`.
- Number formatting: `toFixed`, `toLocaleString` and the rounding in `parseFloat(x.toFixed(2))` are function parameters (`round2`, `show`, `fixed2`). IEEE floating point is modelled as exact `real` arithmetic.
- CsvExport.ExportReadsBack: proved only for cells without commas or line breaks; the export does not escape quotes inside quoted text, and CSV quoting is not modelled.
- `localeCompare` is modelled as code-unit order on keys; the keys compared are digits, `-` and `Q`, so the orders agree.
- Case folding is ASCII-only (`toLowerCase` / `toUpperCase` on letters A-Z); other scripts are compared as they are.
- `Object.values` and `Object.entries` order is modelled as the order of first insertion. JavaScript lists integer-like keys first, in increasing numeric order. Such keys do occur: a year-mode report key such as `2024` (ProfitReportTable.jsx:34), an all-digit account number (Dashboard.jsx:307) and an all-digit customer name (TransactionCharts.jsx:72-73). The report is not affected, because its keys are distinct and it is sorted afterwards. The difference changes only the display order of the dashboard's account details and which entries win ties in the top ten by customer.
- Webhook.TextServiceOnlyWhenNeeded: the ten-character test uses the UTF-16 length through `Utf16Length`, which counts characters outside the Basic Multilingual Plane twice; no finer model of JavaScript strings is made.
- The `cur` variable of `byCurrency` (TransactionCharts.jsx:58) is never used and is not modelled.
- The StatusOverview comment "excluding returned" (StatusOverview.jsx:58): the code sums every transaction, and the model follows the code.
- TxnStore.Store.Update: the store's update never fails in the model; in the source a failed update ends the admin function with 500.
- Unique record ids are an invariant of the store (`Store.Valid`), not something the model checks the store for.
