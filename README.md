# Customs delegation documents: a Dafny model

This project models the core of a customs-declaration web application. Its
delegation pipeline works in five stages:

1. **Classify.** Each worksheet of the uploaded Excel files is classified as enterprise,
   customer/supplier, invoice, packing list, manifest ("核注清单") or unknown. A file
   gets a priority from its sheets.
2. **Extract.** The enterprise record, the customer list, the manifest record and the
   goods lines are read from the classified sheets. Header rows and columns are found
   by keyword and alias.
3. **Merge.** The extracts of several files are merged by file priority:
   - the highest-priority file wins a single record;
   - customers are de-duplicated by customs code, else by name;
   - goods lines are merged field by field under their match key.
4. **Map.** The merged data is mapped to an electronic customs delegation letter and to
   one delegation agreement per goods line, with warnings for missing parts.
5. **Export.** The letter and the agreements are laid out as spreadsheet rows.

The model also covers the parts around this pipeline:
- the bookkeeping of the two AI extractors: preparing a model's reply for JSON parsing,
  filling defaults, merging fields by confidence, checking required fields, and the
  overall confidence;
- the dispatch of the file parsers and the local-file search;
- the checks of the upload endpoint;
- the file-name helpers;
- the rule-based material recogniser and the material configuration.

The model has one Dafny module per source file, plus four shared helper modules (`Wrappers`, `Strings`, `Cells`, `Sightings`) that no single source file corresponds to:

| Module | What it holds |
|---|---|
| `Wrappers` | `Option` and `Result` |
| `Strings` | the JavaScript string operations the code relies on |
| `Cells` | spreadsheet cells and their JavaScript conversions |
| `SheetParser` | classification and file priority |
| `Extractor` | record extraction |
| `Sightings` | the first-best-by-priority choice shared by the merges |
| `Merger` | file merging |
| `DelegationTypes` | the delegation record types |
| `Mapper` | the mapping |
| `Exporter` | the spreadsheet rows |
| `AiResponse` | reply preparation |
| `FieldExtractor` | the field extractor |
| `DeclarationExtractor` | the declaration extractor |
| `Parsers` | parser dispatch and the local-file search |
| `Upload` | the upload route |
| `Utils` | the file-name helpers |
| `MaterialRecognizer` | the material recogniser |
| `MaterialConfig` | the material configuration |

The source's loops are methods whose `ensures` tie them to a recursive specification
function, and the properties are proved as lemmas about those functions.

Some things the model receives as parameters:
- number formatting and parsing (`String(n)`, `Number(s)`) are the `NumberText`
  parameter;
- `JSON.parse` is a `parse` function that returns `None` when it throws;
- the language-model call is a `callModel` function;
- the current date is a `today` argument;
- file existence and reading are a `readable` predicate with a `sizeOf` function;
- `process.cwd()` is a `cwd` argument.

## Model

| member | source | states |
|---|---|---|
| Cells.Text | lib/delegation/extractor.ts:91-92 | `String(cell \|\| '')`: an empty cell and the number 0 both read as "" |
| Cells.ParseNumber | lib/delegation/extractor.ts:258-262 | an empty cell gives no number (never 0); a numeric cell gives its own value |
| SheetParser.DataRowCountIsContentRows | lib/delegation/parser.ts:34-36 | the data-row count is exactly the number of rows holding a non-empty cell |
| SheetParser.ClassifySheet | lib/delegation/parser.ts:30-75 | keeps the name and the data-row count. Confidence is 1.0 exactly for the three exact names, 0.9 exactly for a 发票/装箱 name rule, and 0 exactly when the type is unknown. A non-exact name holding 发票 gives an invoice sheet; one holding 装箱 but not 发票 gives a packing sheet |
| SheetParser.ExactNamesIgnoreContent | lib/delegation/parser.ts:39-47 | the sheets named 企业, 客户供应商 and 核注清单 are typed by name whatever their rows hold |
| SheetParser.InvoiceNameBeforePacking | lib/delegation/parser.ts:48-53 | a name holding both 发票 and 装箱 is an invoice sheet |
| SheetParser.ContentRulesReadFirst20Rows | lib/delegation/parser.ts:56 | rows after the 20th never change a sheet's type or confidence |
| SheetParser.EnterpriseContentNeedsOneKeyword | lib/delegation/parser.ts:58-60 | either of the two enterprise header keywords is enough to give an enterprise sheet with confidence 0.8 |
| SheetParser.FirstFiringRule | lib/delegation/parser.ts:58-74 | the first rule of a list that fires on a text, with no earlier rule firing; -1 exactly when none fires |
| SheetParser.ContentRulesRead | lib/delegation/parser.ts:58-72 | the enterprise rule needs either of its keywords; the customer, manifest, invoice and packing rules need both of theirs |
| SheetParser.ClassifyByFirstContentRule | lib/delegation/parser.ts:55-74 | without a name rule, the sheet gets the type and confidence of the first content rule firing on its first 20 rows, in the order enterprise, customer, manifest, invoice, packing; Unknown with 0 when none fires |
| SheetParser.EmptySheetIsUnknown | lib/delegation/parser.ts:74 | a sheet with no rows and no name rule is unknown and has 0 data rows |
| SheetParser.SheetPriority | lib/delegation/parser.ts:80-99 | no sheets score 0; a manifest sheet guarantees at least 100; every identified sheet adds at least 10 |
| SheetParser.PriorityMonotoneInDataRows | lib/delegation/parser.ts:95-96 | giving a sheet more data rows never lowers the file's priority |
| SheetParser.ParseExcelFile | lib/delegation/parser.ts:104-123 | one classification per sheet, in workbook order; the priority is computed from those classifications |
| Extractor.FirstHeaderFrom | lib/delegation/extractor.ts:192-205 | the first header row at or after a position inside the 20-row window, or -1 when none |
| Extractor.HeaderRow | lib/delegation/extractor.ts:189-208 | a positive result is the first row within the window that matches the keywords, and the first matching row at a positive index is always the result; no match gives 0 |
| Extractor.FindHeaderRow | lib/delegation/extractor.ts:189-208 | the scanning loop returns the header row the specification function defines |
| Extractor.ColumnIndexIsFirstMatch | lib/delegation/extractor.ts:290-307 | the resolved column is the first header cell matching an alias; -1 exactly when no header cell matches |
| Extractor.FindColumnIndex | lib/delegation/extractor.ts:290-307 | the loop returns the column the specification function defines |
| Extractor.BlankHeaderMatchesEveryAlias | lib/delegation/extractor.ts:299-304 | a blank header cell is contained in every alias, so it captures any field with no earlier matching column |
| Extractor.OptTextAt | lib/delegation/extractor.ts:100-101 | the optional field is absent exactly when its column is missing |
| Extractor.NumberAt | lib/delegation/extractor.ts:267-273 | a missing column or an empty cell leaves the numeric field unset |
| Extractor.EnterpriseOfRow | lib/delegation/extractor.ts:85-101 | no record exactly when both name and code are empty; otherwise each field is the untrimmed text of its column |
| Extractor.ExtractEnterpriseInfo | lib/delegation/extractor.ts:72-103 | fewer than 2 rows, or a header on the last row, gives no record. Otherwise the result is the record of the row under the header row, which is null exactly when its name and code cells are both empty |
| Extractor.DeclarationOfRow | lib/delegation/extractor.ts:163-183 | no record exactly when mode and record number are both blank; the fields are the trimmed texts of their columns |
| Extractor.ExtractDeclarationInfo | lib/delegation/extractor.ts:150-184 | same guards as the enterprise record. Otherwise the result is the record of the row under the header row, which is null exactly when its trimmed supervision mode and record number are both empty |
| Extractor.CustomerOfRow | lib/delegation/extractor.ts:126-142 | a row gives a customer exactly when its trimmed name or code is non-empty; the optional fields are present exactly when their columns are |
| Extractor.CustomersInAppend | lib/delegation/extractor.ts:126-142 | extraction distributes over row concatenation, so customers keep row order |
| Extractor.CustomersInFromRows | lib/delegation/extractor.ts:126-142 | every extracted customer has a name or code and comes from one of the rows |
| Extractor.CustomersOfSheet | lib/delegation/extractor.ts:108-145 | fewer than 2 rows give no customers; there are never more customers than rows after the header |
| Extractor.ExtractCustomerInfo | lib/delegation/extractor.ts:108-145 | the method returns the customers of the rows after the header row, in row order |
| Extractor.ReadCustomerRows | lib/delegation/extractor.ts:126-142 | the row loop returns exactly the customers the specification function defines |
| Extractor.GenerateMatchKey | lib/delegation/extractor.ts:312-324 | the key is never empty. It is "HS:" plus the trimmed HS code when there is one, else "CODE:" plus the trimmed item code, else "NAME:" plus the trimmed name; "UNKNOWN" exactly when all three are blank |
| Extractor.MatchKeyIdentifiesHsCode | lib/delegation/extractor.ts:312-316 | a line with an HS code shares its key with another line exactly when their trimmed HS codes agree, whatever the other fields |
| Extractor.GoodsOfRow | lib/delegation/extractor.ts:241-281 | a row is a goods line exactly when it passes the content and summary filters. The line carries the row's fields and the match key computed from it, never "UNKNOWN" |
| Extractor.NumericFieldsNeverDefaulted | lib/delegation/extractor.ts:258-273 | quantity, total price and net weight stay unset, never 0, when the column is missing or the cell is empty |
| Extractor.GoodsInAppend | lib/delegation/extractor.ts:237-282 | goods extraction distributes over row concatenation, so goods keep row order |
| Extractor.GoodsInFromRows | lib/delegation/extractor.ts:237-282 | every goods line comes from one goods row and has an HS code or a name |
| Extractor.GoodsOfSheet | lib/delegation/extractor.ts:213-285 | fewer than 2 rows give no goods; never more lines than rows after the header |
| Extractor.ExtractGoodsItems | lib/delegation/extractor.ts:213-285 | the method returns the goods lines after the header row, in row order |
| Extractor.ReadGoodsRows | lib/delegation/extractor.ts:237-282 | the row loop returns exactly the goods lines the specification function defines |
| Extractor.ClassifyWorkbook | lib/delegation/extractor.ts:329-343 | every sheet is paired with the classification the parser gives it, in workbook order |
| Extractor.AddYield | lib/delegation/extractor.ts:344-375 | one pass of the loop adds the sheet's data rows to the total |
| Extractor.ExtractDataFromFile | lib/delegation/extractor.ts:329-379 | the sheet loop computes the fold the specification function defines |
| Extractor.AddSheet | lib/delegation/extractor.ts:344-373 | the switch on the sheet type adds what that sheet's extractor yields |
| Extractor.ExtractFileTotalRows | lib/delegation/extractor.ts:375 | the row total is the sum of the data-row counts over all sheets, whatever their type |
| Extractor.ExtractFileGoods | lib/delegation/extractor.ts:344-373 | goods are unset exactly when no sheet is an invoice or packing sheet; otherwise they are every goods sheet's lines, in sheet order |
| Extractor.ExtractFileCustomers | lib/delegation/extractor.ts:344-373 | the first customer sheet fixes the customer list, even when it yields none |
| Extractor.ExtractFileEnterprise | lib/delegation/extractor.ts:344-373 | the enterprise comes from the first enterprise sheet that yields one, and later sheets cannot replace it |
| Extractor.ExtractFileDeclaration | lib/delegation/extractor.ts:344-373 | the manifest record comes from the first declaration sheet that yields one |
| Sightings.Dedup | lib/delegation/merger.ts:130 | the distinct keys, each at its first occurrence, which is the value order of a JavaScript `Map` |
| Sightings.WinnersDomain | lib/delegation/merger.ts:111-116 | every key met has a winner, and only those keys |
| Sightings.WinnerIsFirstBest | lib/delegation/merger.ts:115-116 | the winner of a key is the first sighting of highest priority, since only a strictly higher priority replaces |
| Merger.FilePriority | lib/delegation/merger.ts:30-60 | the score is at least a tenth of the row count, and at least 100 with a manifest record |
| Merger.PriorityIncrements | lib/delegation/merger.ts:37-57 | a manifest adds exactly 100, an enterprise exactly 20, one more goods line exactly 5 |
| Merger.FirstHighest | lib/delegation/merger.ts:72-80 | the file chosen is the earliest of maximum priority among those holding the entity; -1 exactly when none holds it |
| Merger.MergeEnterpriseInfo | lib/delegation/merger.ts:66-93 | no result and no log exactly when no file has an enterprise. Otherwise the first highest-priority file's record, with one log naming that file |
| Merger.MergeDeclarationInfo | lib/delegation/merger.ts:138-165 | the same choice and log for the manifest record |
| Merger.InsertByPriority | lib/delegation/merger.ts:106 | inserting keeps the multiset of files |
| Merger.SortByPriority | lib/delegation/merger.ts:106 | the ascending sort is a permutation of its input |
| Merger.SortIsSorted | lib/delegation/merger.ts:106 | the result is in ascending priority |
| Merger.SortIsStable | lib/delegation/merger.ts:106 | files of equal priority keep their input order |
| Merger.Values | lib/delegation/merger.ts:130 | the map's records in key-insertion order |
| Merger.CustomerFoldIsWinners | lib/delegation/merger.ts:108-128 | the customer map keeps its keys in first-seen order and holds, under each key, the winning customer with its file and priority |
| Merger.CustomerLogsNeedLargerMap | lib/delegation/merger.ts:118-125 | the map never exceeds the customers met. A sweep whose files each hold at least as many customers as the whole sweep logs nothing |
| Merger.MergeGoodsItem | lib/delegation/merger.ts:200-216 | the merged line keeps the key, every populated field of the newer line, and the older line's fields where the newer is empty |
| Merger.MergeLosesNothing | lib/delegation/merger.ts:200-216 | no populated field of either line is lost, and merging a line into itself changes nothing |
| Merger.GoodsFoldKeys | lib/delegation/merger.ts:180-229 | the goods map has an entry for every key met, in first-seen order |
| Merger.GoodsFoldEntry | lib/delegation/merger.ts:187-218 | the entry under a key has the winning line's source and priority, its populated fields, and the key |
| Merger.FoldGoodsFromStale | lib/delegation/merger.ts:198 | lines whose keys are stored at least at their priority change nothing |
| Merger.GoodsSweepIdempotent | lib/delegation/merger.ts:187-226 | sweeping the same lines twice at one priority gives the same map and log as sweeping them once |
| Merger.CustomerSightingSource | lib/delegation/merger.ts:108-112 | every customer sighting is a customer of one of the files, with that file's name and priority |
| Merger.CustomerSightingOfFile | lib/delegation/merger.ts:108-112 | every customer of every file is sighted with its file's priority |
| Merger.GoodsSightingSource | lib/delegation/merger.ts:180-184 | every goods sighting is a line of one of the files, with that file's name and priority |
| Merger.GoodsSightingOfFile | lib/delegation/merger.ts:180-184 | every goods line of every file is sighted with its file's priority |
| Merger.CustomerMergeKeyAt | lib/delegation/merger.ts:99-132 | the merged customers follow the first-seen key order of the sorted sweep |
| Merger.CustomerMergeKeysDistinct | lib/delegation/merger.ts:99-132 | no two merged customers share a key |
| Merger.CustomerMergeCoversKey | lib/delegation/merger.ts:99-132 | every customer of every file has its key among the merged customers |
| Merger.CustomerMergeChoice | lib/delegation/merger.ts:99-132 | each merged customer comes from a file holding it, and no file holding a customer with that key has a higher priority |
| Merger.CustomerMergeOneFile | lib/delegation/merger.ts:118-125 | a single file never produces a customer log |
| Merger.GoodsMergeKeyAt | lib/delegation/merger.ts:171-233 | the merged goods follow the first-seen key order of the sorted sweep |
| Merger.GoodsMergeKeysDistinct | lib/delegation/merger.ts:171-233 | no two merged goods lines share a match key |
| Merger.GoodsMergeCoversKey | lib/delegation/merger.ts:171-233 | every goods line of every file has its key among the merged lines |
| Merger.GoodsMergeChoice | lib/delegation/merger.ts:171-233 | each merged line keeps every populated field of a line with its key from a file that no file holding that key outranks |
| Merger.MergeCustomerInfo | lib/delegation/merger.ts:99-132 | the nested loops compute the customers and logs of the fold over the priority-sorted files |
| Merger.StoreCustomer | lib/delegation/merger.ts:112-126 | one customer of the inner loop performs one step of the fold |
| Merger.SweepFileCustomers | lib/delegation/merger.ts:111-127 | the inner loop folds the customers of one file onto the map |
| Merger.MergeGoodsItems | lib/delegation/merger.ts:171-233 | the nested loops compute the goods and logs of the fold over the priority-sorted files |
| Merger.SweepFileGoods | lib/delegation/merger.ts:183-228 | the inner loop folds the goods lines of one file onto the map |
| Merger.MergeExcelData | lib/delegation/merger.ts:238-274 | customers and goods are always present, the customers being the customer merge over the ranked files. Enterprise and manifest are absent exactly when no file has them. The logs are enterprise, customer, manifest and goods logs in that order; totalRows is the sum over the inputs; the source files are the inputs' names, in order |
| Merger.MergeOneFile | lib/delegation/merger.ts:238-274 | merging one file keeps its enterprise, manifest and row count, and logs no customer |
| Merger.TwoLinesOneKey | lib/delegation/merger.ts:198-218 | with two one-line files under one key, the higher-priority line is merged into the other |
| Merger.GoodsMergeSameFileTwice | lib/delegation/merger.ts:183-226 | listing a file twice gives the goods and goods log of listing it once |
| Merger.MergeSameFileTwice | lib/delegation/merger.ts:238-274 | listing a file twice changes neither the goods nor the single records, while its rows are counted twice |
| Merger.SumRowsAppend | lib/delegation/merger.ts:263 | the row total of two lists of files is the sum of their totals |
| Merger.ManifestFileWins | lib/delegation/merger.ts:30-60 | for a packing list and a manifest file with the same HS code, the manifest file's name, quantity and origin win |
| Merger.EmptyFieldsFallBack | lib/delegation/merger.ts:204-206 | a later, higher-priority line fills in its name and keeps the quantity only the earlier line has |
| DelegationTypes.PeriodCode | lib/delegation/types.ts:199 | a validity period is stored as one of "3", "6", "9", "12" |
| DelegationTypes.PeriodCodeInjective | lib/delegation/types.ts:199 | different periods have different codes |
| Mapper.Client | lib/delegation/mapper.ts:28-36 | the client is the first customer, present exactly when the list is non-empty |
| Mapper.MapToDelegationLetter | lib/delegation/mapper.ts:21-71 | at most two warnings. The no-customer warning appears exactly when there is no client, and the no-enterprise warning exactly when the enterprise is missing. No warnings exactly with one customer and an enterprise; several customers put the many-customers warning first, and it is absent with zero or one customer. The list has one client entry unless there is exactly one customer, plus one agent entry when the enterprise is missing, with the client entry first and the no-enterprise warning last |
| Mapper.LetterFields | lib/delegation/mapper.ts:43-67 | the client fields (customs code, name, credit code) come from the first customer and the agent fields (name, customs code, credit code, signer, phone) from the enterprise; each is empty when its source is missing. The client signer and phone are always empty; the letter is long-term, 12 months, with the five default content items, dated today and initiated |
| Mapper.TradeMode | lib/delegation/mapper.ts:90 | the manifest's supervision mode when it has a non-empty one, else 一般贸易 |
| Mapper.ImportExportDate | lib/delegation/mapper.ts:91 | the manifest's entry date when it is filled; today's date when there is no manifest or its entry date is empty |
| Mapper.AgreementOf | lib/delegation/mapper.ts:94-110 | the serial number is the index plus 1 and the value is the total price or 0. The currency is the line's when filled, else USD; the origin is the line's when filled, else 未知. Name, HS code, quantity and unit are the line's; trade mode and date are the ones given; the status is pending confirmation |
| Mapper.MapToDelegationAgreements | lib/delegation/mapper.ts:76-117 | no goods give no agreements and the no-goods warning. Otherwise there is one agreement per line, warned exactly when the manifest is missing. Each agreement carries its line's fields, the total price or 0, the USD and 未知 defaults, and the shared trade mode and date |
| Mapper.SerialNumbersAreOneToN | lib/delegation/mapper.ts:94-110 | serial numbers run 1..N with no gap and no repeat |
| Mapper.MapDelegationData | lib/delegation/mapper.ts:122-131 | the letter's warnings come before the agreements', at most three in all |
| Mapper.NoWarningsIffComplete | lib/delegation/mapper.ts:21-131 | no warnings exactly with one customer, an enterprise, at least one goods line and a manifest |
| Mapper.MergedClientWarning | lib/delegation/mapper.ts:29-33 | after a merge the no-customer warning appears exactly when the merge found no customer |
| Exporter.LetterStatusText | lib/delegation/excel-exporter.ts:135-144 | an empty label exactly when there is no status |
| Exporter.AgreementStatusText | lib/delegation/excel-exporter.ts:146-162 | an empty label exactly when there is no status |
| Exporter.StatusTextsAreDistinct | lib/delegation/excel-exporter.ts:135-162 | different statuses get different labels |
| Exporter.LetterRows | lib/delegation/excel-exporter.ts:15-38 | 22 rows: a title, blank separators at rows 1, 8 and 15, label/value pairs elsewhere |
| Exporter.LetterRowsShowFields | lib/delegation/excel-exporter.ts:15-38 | every field of the letter appears at its fixed row: the client fields in rows 3-7, the agent fields in rows 10-14, and type, period, content joined with '；', date and status in rows 17-21. A missing field shows as empty text |
| Exporter.AgreementRow | lib/delegation/excel-exporter.ts:83-95 | 11 cells, one per header, each the agreement's field in header order. A zero or missing quantity and a missing unit show as empty text, and a missing currency as USD |
| Exporter.AgreementRows | lib/delegation/excel-exporter.ts:64-102 | the title row, a blank row, the 11 header labels, then one 11-cell row per agreement, in order |
| Exporter.ExportedAgreementsNumbered | lib/delegation/excel-exporter.ts:83-102 | mapped goods are exported with data rows numbered 1..N, each pending confirmation |
| AiResponse.Substring | lib/ai/field-extractor.ts:257 | `substring` takes the slice between its arguments, swapping them when the first is larger |
| AiResponse.BraceSlice | lib/ai/field-extractor.ts:250-257 | an error exactly when a '{' or a '}' is missing. With braces in order, the result runs from the first '{' to the last '}' |
| AiResponse.PrepareJsonText | lib/ai/field-extractor.ts:237-257 | the trim-unfence-slice steps compute the brace slice of the unfenced reply |
| AiResponse.FencedObjectRoundTrip | lib/ai/field-extractor.ts:237-257 | an object in a ```json fence, with brace-free text around it, comes out unchanged |
| AiResponse.ClosingBeforeOpening | lib/ai/field-extractor.ts:257 | when a '}' comes before every '{', the text between them is kept rather than rejected |
| FieldExtractor.FillDefaults | lib/ai/field-extractor.ts:266-271 | a field keeps its name and value; a missing confidence becomes 0.5 and a missing source "" |
| FieldExtractor.ReadReply | lib/ai/field-extractor.ts:262-292 | a missing header gives no header fields and a missing body no rows; otherwise every member is filled with defaults, in order |
| FieldExtractor.ParseExtractionResponse | lib/ai/field-extractor.ts:230-297 | a reply without braces fails with the no-JSON error, a slice that does not parse fails with the parse error, and anything else is read |
| FieldExtractor.FoldHeaderKeys | lib/ai/field-extractor.ts:331-335 | the merged header has one key per field name met, in first-seen order |
| FieldExtractor.MergedHeaderChoice | lib/ai/field-extractor.ts:331-335 | a merged header field is the first of highest confidence among fields of its name; a later tie does not replace it |
| FieldExtractor.BodiesKeepAllRows | lib/ai/field-extractor.ts:338-340 | every body row of every material is kept |
| FieldExtractor.StoreField | lib/ai/field-extractor.ts:332-334 | storing one field performs one step of the confidence merge |
| FieldExtractor.MergeMaterialHeader | lib/ai/field-extractor.ts:331-335 | the loop folds one material's header fields onto the merged header |
| FieldExtractor.ExtractFromMultipleMaterials | lib/ai/field-extractor.ts:302-341 | one source entry per material; the header is merged by confidence and the body rows appended in material order |
| FieldExtractor.MissingFields | lib/ai/field-extractor.ts:372-375 | a field is reported exactly when it is required and absent from the header |
| FieldExtractor.MissingFieldsCount | lib/ai/field-extractor.ts:372-375 | an absent field is reported as often as it is required; a present one never |
| FieldExtractor.LowConfidenceLines | lib/ai/field-extractor.ts:376-378 | every required field present with confidence below 0.8 gets its line, and there are at most as many lines as required fields |
| FieldExtractor.LowConfidenceLineSource | lib/ai/field-extractor.ts:376-378 | every line is the line of a required field present with confidence below 0.8 |
| FieldExtractor.CheckListsPartition | lib/ai/field-extractor.ts:372-382 | no required field is listed twice across the two lists; both are empty exactly when every required field is present with confidence at least 0.8 |
| FieldExtractor.ValidateExtractionResult | lib/ai/field-extractor.ts:361-386 | the lists are the missing fields and the below-0.8 fields, in order; valid exactly when every required field is present and confident |
| DeclarationExtractor.TypeLabel | lib/ai/declaration-extractor.ts:112-125 | a known type shows its label, which differs from the code; an unknown type shows itself |
| DeclarationExtractor.SectionEndsWithContent | lib/ai/declaration-extractor.ts:126-127 | a section ends with the material's content, or with the placeholder when the content is absent or empty |
| DeclarationExtractor.MaterialListSnoc | lib/ai/declaration-extractor.ts:124-128 | a further material adds its section, numbered after the others, at the end |
| DeclarationExtractor.MaterialListShowsEveryMaterial | lib/ai/declaration-extractor.ts:124-128 | every material's section is in the list |
| DeclarationExtractor.ParsedReply | lib/ai/declaration-extractor.ts:199-228 | only the two parse errors occur. The no-JSON error occurs exactly when a brace is missing; a success is the parse of the brace slice |
| DeclarationExtractor.ParseAIResponse | lib/ai/declaration-extractor.ts:194-229 | the method gives the outcome the specification function defines |
| DeclarationExtractor.ExtractDeclaration | lib/ai/declaration-extractor.ts:69-98 | the empty-materials error occurs exactly for an empty list; otherwise the result is the parsed reply to the material list |
| DeclarationExtractor.Positive | lib/ai/declaration-extractor.ts:241-243 | only positive confidences are kept |
| DeclarationExtractor.PositiveEmptyIffNone | lib/ai/declaration-extractor.ts:241-245 | nothing is kept exactly when no confidence is positive |
| DeclarationExtractor.OverallPositiveIffSomeConfident | lib/ai/declaration-extractor.ts:234-249 | the overall confidence is positive exactly when some confidence is |
| DeclarationExtractor.OverallWithinUnit | lib/ai/declaration-extractor.ts:234-249 | confidences at most 1 give an overall confidence within [0, 1] |
| DeclarationExtractor.OverallIgnoresNonPositive | lib/ai/declaration-extractor.ts:241-248 | a confidence of 0 or below does not move the overall confidence |
| Parsers.ParseExtension | lib/parsers/index.ts:154 | with a '.', the lower-cased last segment is the utility extension; without one it is the whole lower-cased name |
| Parsers.ParseFile | lib/parsers/index.ts:149-191 | the first of PDF, spreadsheet, image and Word whose extension or MIME test passes, else the fallback notice |
| Parsers.FallbackNoticeNamesFile | lib/parsers/index.ts:188-190 | the fallback notice names the file and its MIME type |
| Parsers.CsvGoesToSpreadsheetParser | lib/parsers/index.ts:116-118 | a CSV name in any letter case goes to the spreadsheet parser unless the MIME type names PDF |
| Parsers.PdfMimeWins | lib/parsers/index.ts:157 | a MIME type naming PDF wins over any extension |
| Parsers.BareNameIsItsOwnExtension | lib/parsers/index.ts:154-158 | a name without '.' is its own extension, so a file named "PDF" goes to the PDF parser |
| Parsers.CandidatePaths | lib/parsers/index.ts:202-209 | six candidates, the given path first |
| Parsers.UploadsPrefixDropped | lib/parsers/index.ts:205 | an /uploads/ path is also looked for in the persistent directory without that prefix |
| Parsers.FirstExisting | lib/parsers/index.ts:214-225 | none exactly when no path can be read; otherwise the first readable path |
| Parsers.GivenPathPreferred | lib/parsers/index.ts:202-203 | a readable given path is always the one used |
| Parsers.FindLocalFile | lib/parsers/index.ts:211-229 | the search loop returns the first readable candidate, else the error listing all six paths |
| Parsers.ParseFromLocalPath | lib/parsers/index.ts:196-232 | an error exactly when no candidate can be read; otherwise the parse of the first readable one |
| Upload.InferFileType | app/api/upload/route.ts:44-64 | the type of the first keyword group the lower-cased name contains, and Other exactly when none matches |
| Upload.InferredFromGroup | app/api/upload/route.ts:44-64 | a name matching a group and no earlier group gets that group's type |
| Upload.AppleIsPackingList | app/api/upload/route.ts:53 | the two-letter keyword "pl" catches ordinary words: "apple.pdf" is a packing list |
| Upload.SelectFileType | app/api/upload/route.ts:120-126 | a form type listed in the table wins; otherwise the type is inferred from the name |
| Upload.UploadExtension | app/api/upload/route.ts:108 | a '.' followed by the lower-cased last segment, the whole name when it has no '.' |
| Upload.UploadExtensionAgrees | app/api/upload/route.ts:108 | with a '.' the route and the utility check see the same extension. A bare name "pdf" passes the route but fails the utility check |
| Upload.CheckUpload | app/api/upload/route.ts:66-126 | the checks come in order (file, task id, task, size, extension), each error exactly in its case; acceptance records the extension and the selected type |
| Utils.FileExtension | lib/utils.ts:22-25 | empty without a '.'; otherwise the lower-cased text after the last '.', free of dots |
| Utils.FileExtensionOf | lib/utils.ts:22-25 | the extension of `base.ext` is `ext` lower-cased, whatever the base holds |
| Utils.FirstRule | lib/utils.ts:28-81 | the first rule with a keyword in the text, -1 exactly when none has one |
| Utils.IdentifyFileType | lib/utils.ts:28-81 | the label of the first matching rule, 其他 exactly when none matches |
| Utils.IdentifyIgnoresCase | lib/utils.ts:29 | only the lower-cased name matters |
| Utils.BillOfLadingWins | lib/utils.ts:31-34 | a name mentioning 提单 is a bill of lading whatever else it says |
| Utils.DownloadFileName | lib/utils.ts:84-87 | the name starts with the type, "_", the task number and "." |
| Utils.DownloadNameKeepsExtension | lib/utils.ts:84-87 | the download name keeps the original's extension, an empty one too |
| Utils.ValidateFile | lib/utils.ts:90-104 | valid exactly when no error and exactly when within 50 MB with an accepted extension; size is checked first |
| Utils.ValidateFileByExtension | lib/utils.ts:90-104 | an accepted extension in any letter case passes when small enough; a name without '.' never passes |
| MaterialConfig.RequiredMaterials | lib/material-config.ts:22-31 | an empty or unknown business type gives empty lists; a known one gives its configured lists |
| MaterialConfig.MaterialTypeLabel | lib/material-config.ts:36-49 | a known code shows its label, which differs from the code; an unknown code shows itself |
| MaterialConfig.MaterialTypeLabelsDistinct | lib/material-config.ts:37-46 | the eight known codes have eight different labels |
| MaterialRecognizer.CodesAreDistinct | lib/ai/material-recognizer.ts:11-55 | different types have different codes, and every code has a label of its own |
| MaterialRecognizer.RecognizeByFilenameRule | lib/ai/material-recognizer.ts:106-122 | none exactly when no rule fires; otherwise the type of the first firing entry in table order, never OTHER |
| MaterialRecognizer.RecognizeMaterialType | lib/ai/material-recognizer.ts:71-101 | a filename-rule result with confidence 1 exactly when a rule fires. Otherwise OTHER with confidence 0, through the vision stub with a buffer and manual without one |
| MaterialRecognizer.MissingLines | lib/ai/material-recognizer.ts:201-206 | at most one line per required item |
| MaterialRecognizer.NothingMissingIffSatisfied | lib/ai/material-recognizer.ts:201-209 | nothing is missing exactly when every required item is satisfied |
| MaterialRecognizer.UnsatisfiedIsListed | lib/ai/material-recognizer.ts:201-206 | each unsatisfied required item gets a line naming it with its required and current counts |
| MaterialRecognizer.ValidateRequiredMaterials | lib/ai/material-recognizer.ts:180-213 | the counts are the multiplicities of the recognised codes; the missing lines and validity are as the specification functions define |

## Left out

- Null rows and the `!row` guards are not modelled: rows are always sequences of cells.
- `toLowerCase` is modelled on the ASCII letters only; other cased letters are left unchanged.
- Characters outside the Basic Multilingual Plane count as one character, not two UTF-16 code units.
- JavaScript floating-point numbers are exact reals; `String(n)` and `Number(s)` are a parameter.
- Object members are assumed to carry no prototype names. The integer-like-key-first order of JavaScript objects is not modelled; keys keep insertion order.
- FieldExtractor.ReadReply: a parsed object is a sequence of members, so duplicate member names are not collapsed as `JSON.parse` collapses them.
- FieldExtractor.ValidateExtractionResult: `Math.round(confidence * 100)` is a `percent` parameter.
- The fixed prompt texts are left out. So are the language-model requests, the field extractor's `buildExtractionPrompt`, `extractFields` and `loadFieldMapping`. Extraction results are passed in.
- FieldExtractor.ExtractFromMultipleMaterials: the `overallConfidence` it computes (a float mean, NaN on no fields) is not returned.
- Reading and writing XLSX files is not modelled: workbook lookup by sheet name, `sheet_to_json`, column widths and cell merges. Sheets are given as (name, rows) pairs and exported sheets as rows.
- PDF text extraction and the spreadsheet parser's output are not modelled; `ParseFile` says only which parser runs.
- `parseFromUrl` (object storage and HTTP download) is not modelled.
- Parsers.FindLocalFile: the `existsSync`/`readFileSync` pair and its try/catch are one `readable` predicate.
- `process.cwd()` is a `cwd` parameter, and the current date is a `today` parameter.
- Upload.CheckUpload: storage upload, database writes, the task-status update and the operation log are left out. A thrown error (status 500) is not modelled. The GET and DELETE handlers of the route are outside the model.
- The `sheetType` argument of `extractGoodsItems` is unused in the source and is dropped.
- `batchRecognizeMaterialTypes` only maps `recognizeMaterialType` over a list without buffers and is not modelled separately.
- `recognizeByAI` is a stub that always answers OTHER with confidence 0, and that answer is what the model returns.
- The `businessType` argument of `validateRequiredMaterials` is unused in the source and is dropped.
- MaterialConfig.RequiredMaterials: the JSON configuration file is a map parameter.
- DelegationTypes: record fields that the modelled code never sets or reads are left out.
- Merger.MergeEnterpriseInfo: the in-place sort of the filtered list is modelled by its first element, the earliest file of maximum priority.
- Console logging is not modelled.
