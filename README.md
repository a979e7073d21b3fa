# Painel — verified model of the dashboard's computational core

The dashboard of a coffee farm ("Painel") is mostly React rendering over Supabase queries. The pieces
modelled here are the self-contained logic inside it:

- **Stock grouping** (`agruparProdutos`). Product names are normalised. Their edit distance is
  computed by a dynamic-programming matrix, and a length-banded similarity test built on it decides
  grouping. Each stock item joins the first group whose founding name is similar, or it founds a new
  group. Every group is then summarised: items sorted oldest first, most common name, weighted mean
  price in the reference unit, stock total, distinct attribute lists and per-supplier aggregates.
- **Currency input** (`currencyFormatter.ts`): digits only, leading zeros stripped, cents and decimals
  converted both ways, and the field's initial value taken from the database.
- **Allocation validation** (`validateAllocations`): an ordered list of error conditions.
- **Unit labels** (`formatUnit.ts`): two lookup tables with a pass-through fallback.
- **Debt totals by status** (`getTotalPorSituacao`): a fold into three buckets, done by an object
  whose fields are updated in place.
- **Component state** of the cost-per-field panel, the pests-and-diseases panel with its occurrence
  form, the "my farm" panel and the stock filter label:
  - list reducers (mark resolved, delete, edit, create with a fresh id, add and remove applied products,
    toggle a field);
  - the state transitions of the component handlers, modelled as classes whose fields are the
    component's `useState` slots.

Each module follows one source file. Two modules hold shared helpers:

- `Common` holds `Option`, filters and sums with their lemmas.
- `JsText` holds the JavaScript string built-ins the source calls: `trim`, `padStart`, `parseInt`
  and number-to-string.

Loops in the source are methods with loop invariants, proved equal to functional specifications:

- the Levenshtein matrix fill;
- the grouping loop;
- the in-place stable sort;
- the weighted-mean, stock and supplier `forEach` folds;
- the debt totals fold.

Foreign calls are function-valued parameters (the locale formatter, `parseFloat`, `toFixed`, the unit
converter). Current-time reads are explicit arguments.

## Model

| member | source | states |
|---|---|---|
| NameNormalizer.NormalizeName | src/services/agruparProdutosService.ts:5-16 | a missing or empty name gives `""`; every result contains only `[a-z0-9]` and single spaces, with no space at either end |
| NameNormalizer.FoldChar | src/services/agruparProdutosService.ts:10-12 | lower-casing plus accent stripping of one character yields at most one character, and leaves lower-case letters, digits and spaces alone |
| NameNormalizer.CleanChar | src/services/agruparProdutosService.ts:10-13 | after folding, anything outside `[a-z0-9]` becomes a space, so only alphabet characters or spaces come out |
| NameNormalizer.CollapseWhitespace | src/services/agruparProdutosService.ts:15 | the result never has two spaces in a row |
| NameNormalizer.CollapseTrimmedIsCanonical | src/services/agruparProdutosService.ts:13-15 | collapsing a trimmed string over the alphabet gives the canonical shape |
| NameNormalizer.NormalizeCanonical | src/services/agruparProdutosService.ts:9-15 | a name already in canonical shape is its own normal form |
| NameNormalizer.NormalizeIdempotent | src/services/agruparProdutosService.ts:9-15 | normalising a normalised name changes nothing |
| EditDistance.LevenshteinDistance | src/services/agruparProdutosService.ts:18-39 | the matrix algorithm returns exactly the recursive edit distance; an empty argument gives the other's length |
| EditDistance.FillRow | src/services/agruparProdutosService.ts:28-35 | after one pass of the inner loop, row `i` holds the edit distances of `a[..i]` to every prefix of `b`, and the rows above are kept |
| EditDistance.LevenshteinZero | src/services/agruparProdutosService.ts:22-38 | the distance is 0 exactly when the two strings are equal |
| EditDistance.LevenshteinSymmetric | src/services/agruparProdutosService.ts:22-38 | d(a, b) == d(b, a) |
| EditDistance.LevenshteinUpperBound | src/services/agruparProdutosService.ts:22-38 | d(a, b) never exceeds the longer length |
| EditDistance.DistZero | src/services/agruparProdutosService.ts:27-36 | the distance between two prefixes is 0 iff they have the same length and content |
| EditDistance.DistSymmetric | src/services/agruparProdutosService.ts:27-36 | the distance between prefixes does not depend on argument order |
| EditDistance.DistUpperBound | src/services/agruparProdutosService.ts:27-36 | the distance between prefixes is at most the longer prefix length |
| ProductGrouping.AreSimilar | src/services/agruparProdutosService.ts:41-44 | a missing or empty raw name on either side is never similar to anything |
| ProductGrouping.SimilarByNormalForm | src/services/agruparProdutosService.ts:46-50 | equal normal forms are similar, even when both are empty; different forms of which one is empty are not |
| ProductGrouping.SimilarReflexive | src/services/agruparProdutosService.ts:49 | every non-empty name is similar to itself |
| ProductGrouping.SimilarSymmetric | src/services/agruparProdutosService.ts:41-60 | the similarity test is symmetric in its two arguments |
| ProductGrouping.SimilarBoundsDistance | src/services/agruparProdutosService.ts:52-59 | two similar names with different normal forms average at least four characters, and their distance is under 30 % of the longer length (the loosest band, 0.7) |
| ProductGrouping.ThresholdBounds | src/services/agruparProdutosService.ts:56-59 | any length band that is passed implies an average length of at least 4 and a distance under 3/10 of the longer length |
| ProductGrouping.ValidNameNonEmpty | src/services/agruparProdutosService.ts:89-93 | every product that passes the validity filter has a non-empty name |
| ProductGrouping.FitsReflexive | src/services/agruparProdutosService.ts:105 | the grouping test accepts a valid name against a group key equal to it |
| ProductGrouping.FirstSimilar | src/services/agruparProdutosService.ts:104-110 | the index returned is the first group whose key fits the name; `None` means no group fits |
| ProductGrouping.FindGroup | src/services/agruparProdutosService.ts:102-110 | the `for … of` scan with `break` finds exactly that first fitting group |
| ProductGrouping.AssignNewKey | src/services/agruparProdutosService.ts:113 | assigning a key not yet present appends a new group at the end of the insertion order |
| ProductGrouping.GroupProducts | src/services/agruparProdutosService.ts:97-115 | the grouping loop (seeded with the first product) computes the functional grouping of all valid products |
| ProductGrouping.InsertPreserves | src/services/agruparProdutosService.ts:100-115 | one step of the loop keeps the grouping invariant: distinct keys, founders first, members fit their group, no member fits an earlier group, and the members are a permutation of the products processed |
| ProductGrouping.GroupAllInvariant | src/services/agruparProdutosService.ts:100-115 | the invariant holds after all products |
| ProductGrouping.GroupingPartitions | src/services/agruparProdutosService.ts:87-116 | every valid product lands in exactly one group, and the group sizes sum to the number of valid products |
| ProductGrouping.GroupsNonEmpty | src/services/agruparProdutosService.ts:98-113 | no group is empty |
| ProductGrouping.GroupingFirstFit | src/services/agruparProdutosService.ts:100-115 | group keys are distinct and each is its founder's name; every member is similar to its key and to no earlier key, so no group is ever overwritten |
| StableSort.SortInPlace | src/services/agruparProdutosService.ts:119-123 | the in-place sort by creation time leaves the array equal to the stable sort of its old contents |
| StableSort.InsertInPlace | src/services/agruparProdutosService.ts:119-123 | one outer step moves the element left past strictly later items and leaves the rest of the array alone |
| StableSort.SortPermutes | src/services/agruparProdutosService.ts:119-123 | sorting loses and duplicates nothing |
| StableSort.SortIsSorted | src/services/agruparProdutosService.ts:119-123 | the result is ordered oldest first |
| StableSort.SortedLastIsMax | src/services/agruparProdutosService.ts:126-128 | after sorting, the last element (the one `pop` takes) is an input element with the greatest key |
| StableSort.InsertStable | src/services/agruparProdutosService.ts:119-123 | one insertion places the new element after every element of its key and keeps the order within each key |
| StableSort.SortStable | src/services/agruparProdutosService.ts:119-128 | the sort is stable: the elements of any one key come out in the order they went in |
| GroupSummary.MostCommonNameIsMostFrequent | src/services/agruparProdutosService.ts:125-128 | the chosen name occurs in the group, and no name in the group occurs more often |
| GroupSummary.MostCommonName | src/services/agruparProdutosService.ts:125-128 | the name is blank or one of the group's names, and it is non-blank whenever the oldest item's name is; `MostCommonNameIsMostFrequent` adds that no name occurs more often |
| GroupSummary.WeightedMeanPrice | src/services/agruparProdutosService.ts:147-219 | the `forEach` accumulation followed by the guarded division equals the weighted mean (total cost / total converted quantity, or 0) |
| GroupSummary.ItemContribution | src/services/agruparProdutosService.ts:150-201 | an item contributes iff its price and initial quantity are positive; its quantity and cost are then converted to the reference unit |
| GroupSummary.MeanWithinPrices | src/services/agruparProdutosService.ts:217-219 | when the quantity sum is positive, the weighted mean lies between the lowest and highest converted unit prices |
| GroupSummary.MeanWithoutContribution | src/services/agruparProdutosService.ts:217-219 | with no contributing item the mean is 0 |
| GroupSummary.MeanOrderIndependent | src/services/agruparProdutosService.ts:147-219 | the mean does not depend on the order of the priced items |
| GroupSummary.TotalStock | src/services/agruparProdutosService.ts:230-248 | the stock fold returns the functional stock total and the standard unit (mg, mL or none) chosen from the first unit |
| GroupSummary.RawStockPositive | src/services/agruparProdutosService.ts:247 | summing the stock with no unit family gives a non-negative total, positive exactly when some item is in stock |
| GroupSummary.DistinctValues | src/services/agruparProdutosService.ts:261-265 | `Array.from(new Set(…))` keeps exactly the values of the list, without repetition |
| GroupSummary.DistinctIdempotent | src/services/agruparProdutosService.ts:261-265 | removing duplicates twice changes nothing |
| GroupSummary.FindSlot | src/services/agruparProdutosService.ts:269-270 | the slot found holds the key; `None` means no slot does |
| GroupSummary.AggregateSuppliers | src/services/agruparProdutosService.ts:267-281 | the `forEach` over stocked items builds the functional supplier table |
| GroupSummary.AddToSlots | src/services/agruparProdutosService.ts:269-280 | one step opens the key's entry when it is absent, then adds the quantity and appends the id |
| GroupSummary.SuppliersCorrect | src/services/agruparProdutosService.ts:267-281 | the supplier table has one entry per distinct (supplier, price) key; each entry's quantity is the sum and its ids are the ids, in order, of exactly the items with that key |
| GroupSummary.SummarizeGroup | src/services/agruparProdutosService.ts:117-300 | sorting a group in place, then summarising it, gives the functional summary of the oldest-first order |
| GroupSummary.SummaryProducts | src/services/agruparProdutosService.ts:286 | the summary lists the group's products in oldest-first order |
| GroupSummary.Summary | src/services/agruparProdutosService.ts:284-299 | the summary lists the group itself, is named by one of its names (or blank), shows one mean in all three price fields, and records the oldest item's price unit |
| GroupSummary.SummarizeSorted | src/services/agruparProdutosService.ts:125-299 | the body of the callback after the sort computes exactly that summary |
| GroupSummary.SummarizeAll | src/services/agruparProdutosService.ts:117 | the final `map` summarises each group in key order |
| GroupSummary.AgruparProdutos | src/services/agruparProdutosService.ts:86-302 | the whole service equals its functional definition |
| GroupSummary.AgruparEmpty | src/services/agruparProdutosService.ts:87-95 | an empty list, or one with no valid name, gives `[]` |
| GroupSummary.Agrupar | src/services/agruparProdutosService.ts:86-302 | no products give no groups and every summary has at least one product; `AgruparPartitions` adds that the summaries' products are a permutation of the valid products |
| GroupSummary.AgruparPartitions | src/services/agruparProdutosService.ts:86-302 | the products of all summaries are a permutation of the valid products: none lost, none duplicated |
| CurrencyFormatter.FormatCurrency | src/lib/currencyFormatter.ts:8-19 | NaN shows as `R$ 0,00`; any other number is shown by the locale formatter |
| CurrencyFormatter.UnformatCurrency | src/lib/currencyFormatter.ts:26-28 | the result has only digits and is no longer than the input |
| CurrencyFormatter.UnformatCharByChar | src/lib/currencyFormatter.ts:27 | stripping distributes over concatenation and keeps a character iff it is a digit, so exactly the input's digits survive, in order |
| CurrencyFormatter.UnformatIdempotent | src/lib/currencyFormatter.ts:26-28 | stripping twice is stripping once |
| CurrencyFormatter.CentsOfEmpty | src/lib/currencyFormatter.ts:36 | `''` gives 0 |
| CurrencyFormatter.CentsOfDigits | src/lib/currencyFormatter.ts:35-38 | a digit string gives its integer value divided by 100 |
| CurrencyFormatter.CentsToDecimal | src/lib/currencyFormatter.ts:35-38 | `''` reads as 0 and a non-empty digit string as its integer value divided by 100 |
| CurrencyFormatter.DecimalToCents | src/lib/currencyFormatter.ts:45-47 | the result is within half a cent of `value * 100` |
| CurrencyFormatter.HalfCentRoundsUp | src/lib/currencyFormatter.ts:45-47 | an exact half cent rounds up, as `Math.round` does, also for negative amounts |
| CurrencyFormatter.CentsRoundTrip | src/lib/currencyFormatter.ts:35-47 | converting a digit string to a decimal and back gives its integer value |
| CurrencyFormatter.StripLeadingZeros | src/lib/currencyFormatter.ts:75 | the result is a suffix of the input, not starting with `0`, and everything removed was `0` |
| CurrencyFormatter.StripKeepsValue | src/lib/currencyFormatter.ts:75 | stripping leading zeros keeps the digits' value |
| CurrencyFormatter.FormatCurrencyInput | src/lib/currencyFormatter.ts:57-89 | `rawCents` is a non-empty digit string and `numeric * 100` equals its value |
| CurrencyFormatter.FormatInputZero | src/lib/currencyFormatter.ts:66-72 | input with no digits, or with digits exactly `"0"`, yields the zero triple |
| CurrencyFormatter.FormatInputCents | src/lib/currencyFormatter.ts:75-87 | `rawCents` is the digits with leading zeros removed, or `"0"`; it starts with `0` only when it is `"0"`; it has the digits' value |
| CurrencyFormatter.FormatInputCanonical | src/lib/currencyFormatter.ts:63-87 | `rawCents` is the canonical decimal numeral of the typed digits' value |
| CurrencyFormatter.FormatInputDisplay | src/lib/currencyFormatter.ts:66-82 | the displayed text is `R$ 0,00` for the zero cases, and otherwise the formatted numeric value |
| CurrencyFormatter.InitializeCurrencyInput | src/lib/currencyFormatter.ts:101-117 | null, undefined, `''`, NaN and 0 give the zero triple |
| CurrencyFormatter.InitializeNumber | src/lib/currencyFormatter.ts:119-126 | any other Number argument keeps its value, is shown by the formatter, and has its rounded cents rendered as `rawCents` |
| CurrencyFormatter.InitializeText | src/lib/currencyFormatter.ts:109-126 | a non-empty string is read by `parseFloat`: NaN or 0 gives the zero triple, and any other result is initialised as that Number argument would be |
| CurrencyFormatter.InitializeThenType | src/lib/currencyFormatter.ts:57-127 | a stored amount of n cents initialises `rawCents` to n's numeral; typing that back reproduces the same cents and value |
| Allocation.FirstOutOfRange | src/services/allocationService.ts:119-126 | the index found is the first entry outside [0, 100]; `None` means every entry is inside |
| Allocation.ValidateAllocations | src/services/allocationService.ts:103-105 | an empty list is rejected with "Pelo menos um talhão deve ter alocação" |
| Allocation.ValidIff | src/services/allocationService.ts:102-128 | valid iff the list is non-empty, the sum is within 0.01 of 100, and every entry is in [0, 100] |
| Allocation.SumCheckedFirst | src/services/allocationService.ts:112-117 | a sum out of tolerance reports the sum error, even when entries are also out of range |
| Allocation.RangeReported | src/services/allocationService.ts:119-126 | a sum within tolerance with some entry out of range reports the range error |
| Allocation.RangeExample | src/services/allocationService.ts:119-126 | [150, −50] reports "Cada alocação deve estar entre 0% e 100%" |
| Allocation.OrderIndependent | src/services/allocationService.ts:107-126 | the verdict does not depend on the order of the entries |
| FormatUnit.Lookup | src/lib/formatUnit.ts:16-32 | a key absent from the table passes through unchanged; a key with a non-empty entry gives that entry |
| FormatUnit.FormatUnitFull | src/lib/formatUnit.ts:16-19 | a missing or empty unit gives `''`; an unknown unit is returned unchanged |
| FormatUnit.FormatUnitAbbreviated | src/lib/formatUnit.ts:21-33 | a missing or empty unit gives `''`; an unknown unit is returned unchanged |
| FormatUnit.FullLabelsFixed | src/lib/formatUnit.ts:1-14 | every label in the full table is non-empty and is itself a key mapping to itself |
| FormatUnit.FullIdempotent | src/lib/formatUnit.ts:1-19 | the full label of a full label is the same label |
| FormatUnit.AbbreviationsFixed | src/lib/formatUnit.ts:24-30 | no abbreviation is empty or itself a key |
| FormatUnit.AbbreviatedIdempotent | src/lib/formatUnit.ts:21-33 | abbreviating an abbreviation changes nothing |
| FormatUnit.AbbreviateFull | src/lib/formatUnit.ts:6-27 | the abbreviation of the full label of `ton` is `ton`; for `saca` and `saca_(60kg)` it is `saca` |
| Debts.Totais.Add | src/services/dividasFinanciamentosService.ts:236-244 | one debt adds its contracted amount to the bucket of its status, and to no other |
| Debts.GetTotalPorSituacao | src/services/dividasFinanciamentosService.ts:226-251 | the loop over the fetched debts yields, per bucket, the sum of the contracted amounts with that status; a failed fetch counts as an empty list |
| Debts.EmptyTotals | src/services/dividasFinanciamentosService.ts:226-250 | an empty list, or a failed query, gives all zeros |
| Debts.BucketsCoverAll | src/services/dividasFinanciamentosService.ts:236-244 | when every status is one of the three declared values, the three buckets add up to the total of all debts |
| Debts.UnknownNotCounted | src/services/dividasFinanciamentosService.ts:237-243 | a debt with any other status changes no bucket |
| Debts.OrderIndependent | src/services/dividasFinanciamentosService.ts:236-244 | the totals do not depend on the order of the debts |
| CostPanel.VisibleTalhoes | src/components/CustoPorTalhao/CustoPorTalhaoPanel.tsx:90 | no default field is visible; a missing result gives no fields |
| CostPanel.VisibleExactly | src/components/CustoPorTalhao/CustoPorTalhaoPanel.tsx:90 | a field is visible iff it was returned and is not the default field; a list without a default field is kept whole |
| CostPanel.Cell | src/components/CustoPorTalhao/CustoPorTalhaoPanel.tsx:202 | the cell shows the map's value, or 0 when the field has no entry or the entry has no such key |
| CostPanel.RowTotalIsSumOfCells | src/components/CustoPorTalhao/CustoPorTalhaoPanel.tsx:211-214 | the row total is the sum of the five macro-group cells |
| CostPanel.RowTotalWithoutEntry | src/components/CustoPorTalhao/CustoPorTalhaoPanel.tsx:212 | a field without costs totals 0 |
| CostPanel.RowTotal | src/components/CustoPorTalhao/CustoPorTalhaoPanel.tsx:211-214 | a field without an entry totals 0 and non-negative costs give a non-negative total; `RowTotalIsSumOfCells` adds that it is the sum of the five cells |
| CostPanel.RowTotalIgnoresOtherKeys | src/components/CustoPorTalhao/CustoPorTalhaoPanel.tsx:218-219 | a key outside the macro-groups, such as `receita`, never affects the total |
| CostPanel.PerHa | src/components/CustoPorTalhao/CustoPorTalhaoPanel.tsx:220-221 | with a positive area, R$/ha times the area is the total; otherwise, including a missing area, it is 0 |
| CostPanel.RowPerHaSpec | src/components/CustoPorTalhao/CustoPorTalhaoPanel.tsx:218-221 | the row's R$/ha times its area is the row total; it is 0 without an area and non-negative for a non-negative total |
| CostPanel.TwoDigitsSpec | src/components/CustoPorTalhao/CustoPorTalhaoPanel.tsx:96-97 | padding a number below 100 gives exactly two digits with its value |
| CostPanel.DashedParts | src/components/CustoPorTalhao/CustoPorTalhaoPanel.tsx:98 | the template places the year, a dash, the two month characters, a dash and the day at fixed offsets |
| CostPanel.HojeStrShape | src/components/CustoPorTalhao/CustoPorTalhaoPanel.tsx:95-98 | `hojeStr` is `yyyy-mm-dd`, with month = month index + 1 and day, each written with exactly two digits holding its value |
| CostPanel.HojeStrYear | src/components/CustoPorTalhao/CustoPorTalhaoPanel.tsx:95-98 | the year part reads back as the year |
| CostPanel.HojeStr | src/components/CustoPorTalhao/CustoPorTalhaoPanel.tsx:95-99 | the date string starts with the year and a dash; `HojeStrShape` gives the full `yyyy-mm-dd` layout |
| OccurrenceForm.InitialFormData | src/components/PragasDoencas/OcorrenciaFormModal.tsx:24-43 | with no initial data the form holds exactly the listed default fields; otherwise it holds the given occurrence |
| OccurrenceForm.DefaultPresets | src/components/PragasDoencas/OcorrenciaFormModal.tsx:28-42 | the defaults preset phase `Vegetativo`, type `Praga`, severity `Média`, the suggested diagnosis, status `Nova` and an empty product list |
| OccurrenceForm.DefaultBlanks | src/components/PragasDoencas/OcorrenciaFormModal.tsx:26-41 | every other default field is `''` |
| OccurrenceForm.Change | src/components/PragasDoencas/OcorrenciaFormModal.tsx:50-54 | the named field takes the input's value; every other field and the id are unchanged |
| OccurrenceForm.AddNonBlank | src/components/PragasDoencas/OcorrenciaFormModal.tsx:57-64 | a non-blank input is appended, trimmed, to the applied products and the input is cleared; nothing else changes |
| OccurrenceForm.AddBlank | src/components/PragasDoencas/OcorrenciaFormModal.tsx:58 | a blank or whitespace-only input leaves the list and the input unchanged |
| OccurrenceForm.AddProduto | src/components/PragasDoencas/OcorrenciaFormModal.tsx:57-65 | the id is kept, and either nothing changes or the list grows by one and the input is cleared; `AddNonBlank` and `AddBlank` say which |
| OccurrenceForm.RemoveIndexSpec | src/components/PragasDoencas/OcorrenciaFormModal.tsx:70 | filtering by position removes exactly the element at `idx` and keeps the rest in order; an out-of-range `idx` changes nothing |
| OccurrenceForm.RemoveProdutoSpec | src/components/PragasDoencas/OcorrenciaFormModal.tsx:67-72 | removal touches only the applied products: exactly the element at `idx` goes, or nothing when out of range |
| OccurrenceForm.RemoveProduto | src/components/PragasDoencas/OcorrenciaFormModal.tsx:67-72 | the id is kept, the result always has a product list, and it never grows |
| OccurrenceForm.MissingProdutosIsEmpty | src/components/PragasDoencas/OcorrenciaFormModal.tsx:57-72 | a missing product list behaves as empty for both add and remove |
| OccurrenceForm.OcorrenciaForm.constructor | src/components/PragasDoencas/OcorrenciaFormModal.tsx:24-45 | the form state starts from the initial data or the defaults, with an empty product input |
| OccurrenceForm.OcorrenciaForm.HandleChange | src/components/PragasDoencas/OcorrenciaFormModal.tsx:47-55 | the form data becomes the change of the old data; the product input is kept |
| OccurrenceForm.OcorrenciaForm.SetProdutoInput | src/components/PragasDoencas/OcorrenciaFormModal.tsx:335 | typing in the product field changes only the input |
| OccurrenceForm.OcorrenciaForm.HandleAddProduto | src/components/PragasDoencas/OcorrenciaFormModal.tsx:57-65 | the form state becomes the add-product transition of the old state |
| OccurrenceForm.OcorrenciaForm.HandleRemoveProduto | src/components/PragasDoencas/OcorrenciaFormModal.tsx:67-72 | the form data becomes the removal of the old data's `idx`-th product |
| OccurrenceForm.OcorrenciaForm.HandleSubmit | src/components/PragasDoencas/OcorrenciaFormModal.tsx:74-79 | the current form data is handed to the submit callback |
| OccurrenceForm.OcorrenciaForm.Reopen | src/components/PragasDoencas/OcorrenciaFormModal.tsx:24-45 | the form state starts again from the given initial data, as the first render does |
| PestPanel.MarkResolved | src/components/PragasDoencas/PragasDoencasPanel.tsx:30-32 | the list keeps its length |
| PestPanel.MarkResolvedSpec | src/components/PragasDoencas/PragasDoencasPanel.tsx:30-33 | entries with the id get status `Resolvida` and keep every other field; other entries are unchanged; ids stay in place |
| PestPanel.FindById | src/components/PragasDoencas/PragasDoencasPanel.tsx:34 | `None` iff no entry has the id; otherwise a list entry with that id |
| PestPanel.FindByIdIsFirst | src/components/PragasDoencas/PragasDoencasPanel.tsx:34 | the entry found is the first one with that id |
| PestPanel.SelectedAfterResolve | src/components/PragasDoencas/PragasDoencasPanel.tsx:30-34 | after marking, the selected entry is resolved and has the id; the selection is empty iff no entry had it |
| PestPanel.DeleteById | src/components/PragasDoencas/PragasDoencasPanel.tsx:39 | an entry survives iff it was present and has a different id |
| PestPanel.DeleteKeepsOrder | src/components/PragasDoencas/PragasDoencasPanel.tsx:39 | deletion works piecewise over concatenation (so order is kept) and leaves a list without the id unchanged |
| PestPanel.MaxId | src/components/PragasDoencas/PragasDoencasPanel.tsx:56 | the result is at least 0 and at least every id, and it is 0 or one of the ids |
| PestPanel.NewIdFresh | src/components/PragasDoencas/PragasDoencasPanel.tsx:56 | the new id is at least 1, greater than every existing id, and either 1 or one more than an existing id |
| PestPanel.EditById | src/components/PragasDoencas/PragasDoencasPanel.tsx:47-51 | editing keeps the length of the list |
| PestPanel.EditSpec | src/components/PragasDoencas/PragasDoencasPanel.tsx:47-51 | the entry with the editing id takes the form's fields (and its id, if given) over its own; other entries are unchanged |
| PestPanel.CreateSpec | src/components/PragasDoencas/PragasDoencasPanel.tsx:56-64 | the new record is prepended, after which the old list follows unchanged; it has a fresh id unless the form gives one; the form's fields override the defaults `origem`, `anexos` and `fotoPrincipal` |
| PestPanel.NewOcorrencia | src/components/PragasDoencas/PragasDoencasPanel.tsx:57-64 | the new record has the given id unless the form sets one, the keys of the defaults and of the form, and every value the form sets |
| PestPanel.Create | src/components/PragasDoencas/PragasDoencasPanel.tsx:56-65 | the list grows by one at the front and the old list follows unchanged |
| PestPanel.PragasDoencasPanel.constructor | src/components/PragasDoencas/PragasDoencasPanel.tsx:9-13 | the panel starts with the given list, with nothing selected or being edited and both modals closed |
| PestPanel.PragasDoencasPanel.HandleViewDetails | src/components/PragasDoencas/PragasDoencasPanel.tsx:17-20 | selects the entry and opens the detail view, changing nothing else |
| PestPanel.PragasDoencasPanel.HandleEdit | src/components/PragasDoencas/PragasDoencasPanel.tsx:22-26 | sets the entry being edited, opens the form and closes the details |
| PestPanel.PragasDoencasPanel.HandleMarkResolved | src/components/PragasDoencas/PragasDoencasPanel.tsx:28-35 | the list is marked resolved and the selection is re-read from the new list |
| PestPanel.PragasDoencasPanel.HandleDelete | src/components/PragasDoencas/PragasDoencasPanel.tsx:37-42 | the entries with the id go; the details close and the selection clears |
| PestPanel.PragasDoencasPanel.HandleFormSubmit | src/components/PragasDoencas/PragasDoencasPanel.tsx:44-67 | while editing, the edited list replaces the old one; otherwise the new record is prepended; in both cases editing ends and the form closes |
| PestPanel.PragasDoencasPanel.HandleNewOcorrencia | src/components/PragasDoencas/PragasDoencasPanel.tsx:69-72 | ends editing and opens an empty form |
| PestPanel.PragasDoencasPanel.CloseForm | src/components/PragasDoencas/PragasDoencasPanel.tsx:141-144 | closing the form ends editing |
| PestPanel.EditAfterSingleMount | src/components/PragasDoencas/PragasDoencasPanel.tsx:139-147 | with the modal mounted once while nothing is edited, opening an entry and submitting spreads the new-occurrence defaults over it |
| PestPanel.SingleMountResetsStatus | src/components/PragasDoencas/PragasDoencasPanel.tsx:44-51 | a resolved occurrence edited that way comes back with status `Nova` |
| PestPanel.EditWithReopen | src/components/PragasDoencas/PragasDoencasPanel.tsx:139-147 | when the form starts again from the entry on each open, submitting it unchanged submits the entry itself |
| PestPanel.UnchangedEditKeepsList | src/components/PragasDoencas/PragasDoencasPanel.tsx:44-51 | with unique ids, submitting an entry unchanged leaves the list as it was |
| FarmPanel.TalhoesCafe | src/components/MinhaFazenda/MinhaFazendaPanel.tsx:118 | exactly the fields whose crop is `Café` |
| FarmPanel.TalhoesAtivos | src/components/MinhaFazenda/MinhaFazendaPanel.tsx:119 | exactly the coffee fields that are active |
| FarmPanel.TalhoesInativos | src/components/MinhaFazenda/MinhaFazendaPanel.tsx:120 | exactly the coffee fields that are inactive |
| FarmPanel.AtivosInativosPartition | src/components/MinhaFazenda/MinhaFazendaPanel.tsx:118-120 | the active and inactive lists are disjoint, their union (as a multiset) is the coffee list, their lengths add up, and each holds exactly the coffee fields of its status |
| FarmPanel.Toggle | src/components/MinhaFazenda/MinhaFazendaPanel.tsx:77-81 | the list keeps its length |
| FarmPanel.ToggleSpec | src/components/MinhaFazenda/MinhaFazendaPanel.tsx:77-81 | only the entries with the selected id change, and only in `ativo` |
| FarmPanel.ToggleKeepsCafeCount | src/components/MinhaFazenda/MinhaFazendaPanel.tsx:77-81 | toggling does not change how many coffee fields there are |
| FarmPanel.MinhaFazendaPanel.constructor | src/components/MinhaFazenda/MinhaFazendaPanel.tsx:25-29 | the panel starts from the loaded fields and area, with no selection and the modal closed |
| FarmPanel.MinhaFazendaPanel.HandleToggleClick | src/components/MinhaFazenda/MinhaFazendaPanel.tsx:66-69 | selects the field and opens the modal |
| FarmPanel.MinhaFazendaPanel.HandleConfirmToggle | src/components/MinhaFazenda/MinhaFazendaPanel.tsx:71-91 | without a selection nothing happens; otherwise the modal closes and the selection clears; the list is toggled, and the area refreshed, only when the service reports success |
| FarmPanel.MinhaFazendaPanel.HandleCancelToggle | src/components/MinhaFazenda/MinhaFazendaPanel.tsx:93-96 | closes the modal and clears the selection, keeping the list |
| StockFilters.Precedence | src/components/Estoque/EstoqueFiltros.tsx:28-35 | a non-empty search decides the label whatever the category and order; then a non-empty category decides it whatever the order; otherwise the order does |
| StockFilters.SearchShown | src/components/Estoque/EstoqueFiltros.tsx:29 | with a search the label is `Nome contém "<search>"` |
| StockFilters.OrdemLabels | src/components/Estoque/EstoqueFiltros.tsx:31-33 | the three order keys map to "Ordem Alfabética", "Data de Lançamento" and "Validade" |
| StockFilters.NoFilterIff | src/components/Estoque/EstoqueFiltros.tsx:29-34 | the label is "Nenhum filtro aplicado" iff there is no search, no category and no known order |
| StockFilters.GetFilterLabel | src/components/Estoque/EstoqueFiltros.tsx:28-35 | a search gives `Nome contém "<search>"`, otherwise a category gives `Categoria: <categoria>`, otherwise the order's label |

## Left out

- `OccurrenceForm.OcorrenciaForm`: React runs the `useState` initializer once per mount. The panel mounts the modal once, while nothing is being edited, and gives it no `key`. The class therefore models one mount, with `Reopen` as the intended re-initialisation on each open (see Findings).

- Floating point: money, quantities, areas and percentages are exact reals. IEEE rounding is not modelled in the 0.01 tolerance, the similarity ratios, `Math.round` or the mean's division.
- `CurrencyFormatter.DecimalToCents`: over exact reals its contract fixes the result, with exact halves rounding up as in `Math.round`. The binary error of `value * 100` is not modelled: `1.005 * 100` is `100.49999…` in floating point, so JavaScript gives 100 where the model gives 101.
- `Intl.NumberFormat`, `parseFloat` and `toFixed(2)` are function parameters; only the NaN branch of `formatCurrency` is framed. `parseInt` is modelled on its digit-prefix reading only.
- The `useCurrencyInput` hook holds React state over the pure functions; it is not part of this model.
- `normalizeName`'s NFD step is a per-character table covering the Latin-1 accented letters and the combining marks U+0300–U+036F. Other decompositions (Vietnamese, ligatures and the like) are not modelled.
- `lib/unitConverter` is not part of this model. Its five functions come as a parameter record. The mean's price factor assumes one unit of each mass or volume unit is a non-zero amount.
- `StableSort.SortInPlace`: the model commits to the one order a stable sort yields. `created_at || 0` and `new Date(…).getTime()` become an integer timestamp, with a missing date as 0.
- `GroupSummary.MostCommonName`: the name comparator runs through the same stable sort (`StableSort.SortStable`). The name `pop` returns is the last in that order, so among the most frequent names it is the one whose last place in the group is latest.
- `ProductGrouping.GroupProducts`: `grupos` is a plain `{}`, so assigning `grupos["__proto__"]` sets the object's prototype instead of creating a key. In the source, a valid product named exactly `__proto__` that founds a group is therefore lost: `agruparProdutos` leaves it out of every summary, and a later name of the same normal form (such as `proto`) founds its own group. The model treats `__proto__` like any other name and keeps that group. `ProductGrouping.GroupingPartitions` and `GroupSummary.AgruparPartitions` ("none lost") hold of the model, not of the source, on such input.
- JavaScript objects iterate integer-like keys first. `grupos` and `fornecedoresMap` are modelled in insertion order, which matches the source only for non-numeric keys.
- The supplier key string `fornecedor + "_" + valor` is modelled as the pair it encodes. This assumes a number's rendering contains no `_` and differs for different numbers.
- Prototype keys such as `constructor` in the unit tables, and `0 || …` turning NaN into 0 in the cost cells, are not modelled, because the cost values are exact reals.
- Number-to-string renders integers only, never the exponent form.
- Supabase queries, `async`/`await`, `useEffect` loaders, loading and error states (including `loadFarmData`) and `console` output are left out as I/O.
- The service calls in `handleConfirmToggle` are not modelled as calls: the toggle result and the refreshed area are inputs, with `None` for a call that threw.
- The debt query result is an input, with `None` for an error or a thrown exception.
- `OccurrenceForm.OcorrenciaForm.HandleChange`: it requires the name to be one of the form's input names, which is what the rendered inputs pass. An arbitrary DOM name is not modelled.
- The `Ocorrencia` record type lives in a mock file that is not part of this model. Its fields are an enumeration plus `Other`, and their values are strings, numbers or lists.
- `Math.max` over ids assumes integer ids. An empty list gives 0, the same as the source's explicit 0 argument.
- The `avgLength < 4` branch of `areSimilar` compares normal forms already known to differ, so it always yields false. The model keeps it as written.
- Rendering is not modelled: JSX, colours, labels and singular/plural text, the image viewer, the attachment modal, the mobile headers and the mock data files.
- The `CustoPorTalhaoService`, `TalhaoService` and `AttachmentProductService` calls are not part of this model. The cost map and field list are given inputs.
- Allocation and debt service methods other than `validateAllocations` and `getTotalPorSituacao` are Supabase I/O and are not modelled.

## Findings

| source | as written | input that shows it | evidently intended | confidence | as-written member | corrected member |
|---|---|---|---|---|---|---|
| src/components/PragasDoencas/PragasDoencasPanel.tsx:139-147 | the form modal is always rendered without a `key`, so its `useState(initialData \|\| defaults)` (src/components/PragasDoencas/OcorrenciaFormModal.tsx:24) runs once, when `editingOcorrencia` is still `null` | open "Editar" on occurrence 1 with status `Resolvida` and submit without changes: the panel merges the defaults over it and the status becomes `Nova` | the form starts from the occurrence being edited each time it opens, so an unchanged submit leaves the entry as it was | medium (not executed) | `PestPanel.EditAfterSingleMount`, `PestPanel.SingleMountResetsStatus` | `PestPanel.EditWithReopen`, `PestPanel.UnchangedEditKeepsList` |
