# brands_dataset in Dafny

A model of the deterministic core of the brands dataset generator, with proofs about it.

The generator asks a language model for the top companies in each ISIC industry section. It then asks for the brands of each company it was given. It stores both answers as JSON artifacts and flattens them into an 11-column table. A separate script flattens the ISIC classification workbook into one record per four-digit class.

The project models these parts:

- **Flattener** (`Flatten`, `brandgen/flatten.py`). This is the nested loop that joins the section→companies map with the company→brands map into the header and the rows of the output table.
- **Orchestrator** (`Generate`, `generate.py`). It covers:
  - the two collection loops, with their truncation and their deterministic dry-run mocks;
  - the duplicate-free, sorted list of company names passed from the first phase to the second;
  - the re-prompting mode selection;
  - the phases each run mode performs.
- **Prompt templates and builders** (`Prompt`, `PromptBuilder`, `brandgen/prompt.py`, `brandgen/prompt_builder.py`). Each template is written as the concatenation of its literal pieces and its placeholder tokens. Python's `str.replace` is defined once (`Text.ReplaceAll`), and the results of each builder are computed against the concrete templates.
- **Configuration** (`Config`, `brandgen/config.py`). This is the truthy-flag parser and the ordered validation of the required settings. The environment is a map.
- **ISIC flattener** (`FlattenIsic`, `scripts/flatten_isic.py`). This is the row loop that keeps the current section, division and group, together with the default output path.

Support modules:

| module | what it provides |
|---|---|
| `Wrappers` | `Option` and `Result` |
| `Text` | ASCII `strip`, `lower`, `isalpha`, `isdigit` and `str.replace` |
| `JsonData` | Insertion-ordered Python dicts, as association lists with Python's assignment semantics: assigning an existing key keeps its position |
| `Sorting` | `sorted` over sets of integers and sets of strings |
| `Decimal` | Decimal text: `str(n)` and `int(s)` |

The imperative loops are methods with loop invariants. Most are proved equal to a recursive specification function, and the properties are lemmas about that function:

- `Flatten.FlattenToCsv`, `Flatten.WriteSectionRows` and `Flatten.WriteBrandRows`;
- `Generate.CollectInOrder` and `Generate.CollectBrandResponses`;
- `FlattenIsic.FlattenRows`.

`Generate.AskRunMode` is the exception. Its contract describes the result answer by answer through the one-step function `Generate.ChooseMode`: the first answer that selects a mode decides, and running out of answers gives none.

The pure parts are functions with contracts.

**Where the repository's prose description and its code differ, the model follows the code:**

- A company whose brand list is non-empty but holds no object produces no row at all, not a placeholder row (`Flatten.NoObjectsNoRows`).
- On the country-specific branch, a label is not always kept verbatim in the prompt. `{country}` is replaced after `{section}`, so a label that itself contains `{country}` is rewritten (`PromptBuilder.CompaniesPromptRewritesLabel`). Verbatim placement holds on that branch for every label in which `{country}` occurs nowhere, whatever other braces it holds (`PromptBuilder.CompaniesPromptLabelVerbatim`). It holds on the global branch for every label (`PromptBuilder.BuildCompaniesPrompt`).
- The mode prompt reads "Enter 1, 2 or 3", but choice "4" (the dry run) is also accepted.

## Model

| member | source | states |
|---|---|---|
| Flatten.FlattenToCsv | brandgen/flatten.py:9-77 | The nested loops produce exactly the header line followed by one line per row of `Rows(sections, brands)`. |
| Flatten.Table | brandgen/flatten.py:18-34 | The table has exactly one header line, placed first and holding the 11 column names. Then comes one line per row, in row order. |
| Flatten.HeaderDistinct | brandgen/flatten.py:18-30 | The header has 11 column names, all distinct. |
| Flatten.WriteSectionRows | brandgen/flatten.py:36-62 | The loop over one section's companies yields, in company order, the rows that the recursive definition gives. |
| Flatten.WriteBrandRows | brandgen/flatten.py:60-77 | The loop over a company's brands yields, in brand order, one row per object entry. |
| Flatten.RowsAppend | brandgen/flatten.py:35 | The rows of a concatenation of section maps are the rows of the first map, then those of the second. That is, rows follow the sections' insertion order. |
| Flatten.SectionRowsAppend | brandgen/flatten.py:36 | The rows of a section follow its company list order. |
| Flatten.SectionRowsCons | brandgen/flatten.py:36 | The rows of a section are the first company's rows, then the rows of the rest. |
| Flatten.BrandRowsAppend | brandgen/flatten.py:60 | The rows for a brand list follow brand list order. |
| Flatten.NonObjectCompanySkipped | brandgen/flatten.py:37-38 | A company entry that is not an object contributes no row anywhere in the list. |
| Flatten.CompanyWithoutBrands | brandgen/flatten.py:42-59 | A company whose name is missing from the brands map, or maps to the empty list, yields exactly one row, the placeholder row. |
| Flatten.PlaceholderColumns | brandgen/flatten.py:43-59 | The placeholder row keeps the section and the three company columns, and all seven brand columns are "". |
| Flatten.CompanyWithBrands | brandgen/flatten.py:42-62 | A company with a non-empty brand list yields exactly its brand rows, one per object entry. |
| Flatten.BrandRowsCount | brandgen/flatten.py:60-62 | The number of brand rows equals the number of object entries, and every row is the brand row of one of those objects. |
| Flatten.NoObjectsNoRows | brandgen/flatten.py:60-62 | A brand list made only of non-object entries yields no rows. |
| Flatten.BrandRowColumns | brandgen/flatten.py:63-76 | In a brand row:<br>- column 0 is the section key;<br>- columns 1-3 are the same-named company fields;<br>- `brand_name` comes from `name` and `brand_type` from `type`;<br>- the other brand columns come from the same-named keys;<br>- a missing key gives "". |
| Flatten.BrandKeysOfHeader | brandgen/flatten.py:63-76 | Gives the record key each brand column is read from: `name`, `type`, then the column's own name. |
| Flatten.CompanyRowsRelabel | brandgen/flatten.py:42 | The brand lookup uses only the company's name. So the same company listed under two sections yields the same rows under each section, differing only in the section column. |
| Flatten.BrandRowsRelabel | brandgen/flatten.py:60-77 | Brand rows under two section labels differ only in the section column. |
| Generate.ChooseMode | generate.py:130-150 | On the stripped answer:<br>- "1" selects the full run;<br>- "2" selects brands-only exactly when the companies file exists;<br>- "3" selects CSV-only exactly when both files exist;<br>- "4" selects the dry run.<br>Every other answer selects nothing, so the operator is asked again. |
| Generate.ChooseModeNeedsFiles | generate.py:133-147 | A chosen mode comes from one of the four answers. The artifact-reading modes are chosen only when their files exist. |
| Generate.AskRunMode | generate.py:129-150 | The re-prompt loop returns the mode of the first answer that selects one, with no earlier answer selecting anything. When no answer selects a mode, it returns nothing after reading every answer. |
| Generate.Truncate | generate.py:67-69 | With a positive limit, the list equals the first min(length, limit) items, in order. A limit of zero or less leaves it unchanged. |
| Generate.TruncateList | generate.py:107-110 | The conditional slice of the loop body computes `Truncate`. |
| Generate.MockCount | generate.py:54 | The number of mocks is the base count (3 or 2) when the limit is 0, none for a negative limit, and min(base, limit) otherwise. |
| Generate.MockCompaniesShape | generate.py:54-62 | Each dry-run company is an object:<br>- it is named `company{n}_section{idx}`, where idx is the 1-based position of the section;<br>- its country is the configured one, or "Unknown" when that is empty;<br>- its activities read "Activities for section" followed by the label. |
| Generate.MockCompanyNameInjective | generate.py:57 | The three mock names of a section, and the mock names of different positions, are pairwise distinct. |
| Generate.MockBrandsShape | generate.py:91-103 | Each dry-run brand is an object:<br>- it is named `brand{b}_{name}` and has type "mock";<br>- its invoice line is `Invoice line for brand{b}_{name}`;<br>- its GPC codes are fixed at "00", "000", "0000" and "000000".<br>The count is given by `MockCount(2, limit)`. |
| Generate.CompaniesQuestion | generate.py:64 | The question sent for a section, the stripped companies prompt, is exactly the companies prompt. |
| Generate.Order | generate.py:50 | The section indices are visited in strictly ascending order, each index once. |
| Generate.FetchSectionCompanies | generate.py:52-70 | One iteration of the companies loop: the mocks in a dry run, otherwise the service's answer to the wrapped companies prompt; then the truncation. |
| Generate.CollectInOrder | generate.py:50-71 | The loop stores, in visiting order, each section's companies under its label, with Python's dict assignment. |
| Generate.CollectSectionResponses | generate.py:33-73 | The companies phase is the loop over the sorted indices. |
| Generate.SectionResponsesKeys | generate.py:50-71 | The keys of the result are distinct and are exactly the section labels. Each label holds the companies fetched for the last section, in index order, that carries it. |
| Generate.SectionResponsesInOrder | generate.py:50-71 | With distinct labels, the result holds one entry per section, in ascending index order. |
| Generate.SectionCompaniesBound | generate.py:51-70 | A dry run stores all of its mock companies uncut. Otherwise the stored list is the start of the service's answer. With a positive limit, no section stores more companies than the limit. |
| Generate.CompanyBrandsBound | generate.py:89-110 | A dry run stores all of its mock brands uncut. Otherwise the stored list is the start of the service's answer. With a positive limit, no company stores more brands than the limit. |
| Generate.BrandSteps | generate.py:89-111 | The brands loop makes one assignment per input name, in list order. |
| Generate.FetchCompanyBrands | generate.py:90-110 | One iteration of the brands loop: the mocks or the service's answer, then the truncation. |
| Generate.CollectBrandResponses | generate.py:75-113 | The brands phase stores each company's brands under its name, in list order. |
| Generate.BrandResponsesKeys | generate.py:89-111 | For distinct names, the result has exactly one key per name, in order, each holding that company's brands. |
| Generate.BrandInputProperties | generate.py:223-232 | The input of the brands phase is sorted and duplicate-free, and holds no "". A name is in it exactly when it is the non-empty `company_name` of some object entry in some section. |
| Generate.DryRun | generate.py:168-193 | A dry run saves no artifact. It ends by flattening exactly its mock companies and brands. |
| Generate.FullRun | generate.py:206-244 | A full run saves the companies before it generates brands for exactly the saved companies. It saves the brands just before its last step, which flattens these companies and brands. |
| Generate.BrandsOnlyRun | generate.py:218-244 | A brands-only run never generates or saves companies. It generates brands for the loaded companies. It saves the brands just before its last step, which flattens the loaded companies and the new brands. |
| Generate.Run | generate.py:167-244 | Every mode ends by flattening the companies and brands it collected or loaded, each named in terms of the configuration, the sections and the service:<br>- the dry run saves nothing;<br>- the CSV mode only rewrites the dataset from the saved artifacts;<br>- the full run saves companies before the brand phase;<br>- both generating modes that save write the brands file just before the flatten;<br>- brands-only never touches the companies phase. |
| Generate.DryRunIndependent | generate.py:168-193 | A dry run depends neither on the generation service nor on the saved artifacts, so two dry runs with the same configuration and sections agree. |
| PromptBuilder.BuildPrompt | brandgen/prompt_builder.py:19-21 | The prompt is the base instructions, a blank line, and the question with its surrounding whitespace removed: a slice of the question that has only whitespace around it and neither starts nor ends with whitespace. |
| PromptBuilder.BuildPromptIgnoresPadding | brandgen/prompt_builder.py:21 | Whitespace around the question does not change the prompt. |
| PromptBuilder.BuildCompaniesPrompt | brandgen/prompt_builder.py:24-33 | The country template is used exactly when the flag is set and a country is given. On the global branch, the label replaces `{section}` and nothing else changes, whatever the country. On the country branch, `{section}` is replaced first and then `{country}` everywhere, the label included. |
| PromptBuilder.CompaniesPromptLabelVerbatim | brandgen/prompt_builder.py:28-32 | On the country branch, a label in which `{country}` occurs nowhere lands verbatim in its slot. |
| PromptBuilder.CompaniesPromptRewritesLabel | brandgen/prompt_builder.py:28-32 | A label reading `{country}` is rewritten to the country on the country branch. |
| PromptBuilder.CompaniesPromptStripped | generate.py:64 | `.strip()` leaves the companies prompt unchanged on both branches. |
| PromptBuilder.BuildBrandsPrompt | brandgen/prompt_builder.py:54-62 | The same selection and replacement order as the companies prompt, with `{company}` in place of `{section}`. |
| PromptBuilder.BrandsPromptCompanyVerbatim | brandgen/prompt_builder.py:56-61 | On the country branch, a company name in which `{country}` occurs nowhere lands verbatim. |
| PromptBuilder.BuildGroupsPrompt | brandgen/prompt_builder.py:36-51 | The five group slots are replaced in the fixed order, with a missing key read as "", and each value is exposed to the later replacements. `{country}` is then replaced, on the country template only, everywhere, the values included. |
| PromptBuilder.GroupsPromptVerbatim | brandgen/prompt_builder.py:38-51 | Brace-free values land verbatim in their slots, on both templates. |
| PromptBuilder.GroupsSlots | brandgen/prompt_builder.py:38-46 | The five replacements in their fixed order turn the global group template into its text with each slot holding its value after the later replacements were applied to it. The JSON example stays in place. |
| PromptBuilder.GroupsCountrySlots | brandgen/prompt_builder.py:38-46 | The same for the country group template, whose two `{country}` slots stay in place. |
| PromptBuilder.GroupsCountryFilled | brandgen/prompt_builder.py:48-49 | After the group slots, `{country}` is replaced everywhere in the country template, the substituted values included. |
| Prompt.BaseHasNoSlot | brandgen/prompt.py:6-10 | The base instructions contain no brace, so no slot, and every replacement leaves them unchanged. |
| Prompt.CompaniesTemplateSlots | brandgen/prompt.py:13-23 | `{section}` occurs once, and no other slot (`{country}` included) occurs at all. |
| Prompt.CompaniesCountryTemplateSlots | brandgen/prompt.py:47-57 | `{section}` occurs once, `{country}` twice, and no other slot. |
| Prompt.BrandsTemplateSlots | brandgen/prompt.py:26-45 | `{company}` occurs once, and no other slot. |
| Prompt.BrandsCountryTemplateSlots | brandgen/prompt.py:59-78 | `{company}` occurs once, `{country}` once, and no other slot. |
| Prompt.GroupsTemplateSlots | brandgen/prompt.py:80-96 | Each of the five group slots occurs once, and no other slot. |
| Prompt.GroupsCountryTemplateSlots | brandgen/prompt.py:98-114 | Each group slot occurs once, `{country}` twice, and no other slot. |
| Prompt.FieldsTailInert | brandgen/prompt.py:16-22 | The company JSON example and the text around it hold no slot, so every replacement leaves them unchanged. |
| Prompt.BrandsTailInert | brandgen/prompt.py:29-44 | The brands JSON example and the rules hold no slot, so every replacement leaves them unchanged. |
| Prompt.CompaniesReplace | brandgen/prompt.py:13-23 | Replacing any slot in the filled companies template replaces it only inside the filled value. |
| Prompt.CompaniesCountryReplace | brandgen/prompt.py:47-57 | The same for the country companies template and its three slots. |
| Prompt.BrandsReplace | brandgen/prompt.py:26-45 | The same for the brands template. |
| Prompt.BrandsCountryReplace | brandgen/prompt.py:59-78 | The same for the country brands template. |
| Prompt.GroupsReplace | brandgen/prompt.py:80-96 | The same for the group template and its five slots. |
| Prompt.GroupsCountryReplace | brandgen/prompt.py:98-114 | The same for the country group template and its seven slots. |
| Text.Strip | brandgen/prompt_builder.py:21 | The stripped text neither starts nor ends with whitespace. |
| Text.StripSlice | brandgen/prompt_builder.py:21 | The stripped text is a slice of the input with only whitespace before and after it. |
| Text.StripIdempotent | brandgen/prompt_builder.py:21 | Stripping twice is stripping once. |
| Text.StripPadding | brandgen/config.py:43 | Whitespace added around a text does not change its stripped form. |
| Text.Lower | brandgen/config.py:43 | Lower-casing keeps the length and lower-cases each character. |
| Text.ReplaceSplit | brandgen/prompt_builder.py:28-33 | Replacement distributes over a concatenation whose second part starts with a character that is not in the pattern. |
| Text.ReplaceNoOccurrence | brandgen/prompt_builder.py:33 | A text in which the pattern never occurs is left unchanged. |
| Text.ReplaceAllLength | brandgen/prompt_builder.py:28-33 | The result is longer by (|rep| - |pat|) for each occurrence replaced. |
| JsonData.Get | brandgen/flatten.py:42 | `dict.get` finds the key exactly when it is present, with a value stored under it. |
| JsonData.Put | generate.py:71 | Dict assignment keeps the key order, appending the key only when it is new. |
| JsonData.GetPut | generate.py:111 | After an assignment, the key reads the new value and every other key reads as before. |
| JsonData.FromPairsProperties | generate.py:50-71 | The result of a run of assignments has distinct keys, holds exactly the assigned keys, and holds the last value assigned to each key. |
| JsonData.FromDistinctPairs | generate.py:111 | Assignments to distinct keys build exactly the list of pairs. |
| Sorting.SortInts | generate.py:50 | `sorted` of the section indices holds each index once, in strictly ascending order. |
| Sorting.SortStrings | generate.py:232 | `sorted` of the company-name set holds each name once, in strictly ascending order. |
| Sorting.StrLessTotal | generate.py:185 | String order is total. |
| Sorting.StrLessTransitive | generate.py:185 | String order is transitive. |
| Decimal.NatToString | generate.py:57 | The decimal text of a number is made of digits and has no leading zero. |
| Decimal.ParseIntOfNatToString | brandgen/config.py:65-66 | `int()` reads back the decimal text of every natural number. |
| Decimal.NatToStringInjective | generate.py:57 | Different numbers have different decimal texts. |
| Decimal.ParseIntIgnoresPadding | brandgen/config.py:65-66 | `int()` ignores surrounding whitespace. |
| Decimal.ParseIntNegative | brandgen/config.py:65-66 | `int()` reads a minus sign followed by digits as the negative number. |
| Decimal.ParseIntBlank | brandgen/config.py:65-66 | `int()` rejects a whitespace-only text. |
| Config.AsBool | brandgen/config.py:38-43 | The flag is on exactly when the value is set and, once stripped, equals "1", "true", "yes" or "on" up to case. |
| Config.AsBoolUnset | brandgen/config.py:43 | An unset or empty flag is off. |
| Config.AsBoolIgnoresPadding | brandgen/config.py:43 | Whitespace around the value does not matter. |
| Config.AsBoolUpperCase | brandgen/config.py:41-43 | "TRUE" is on. |
| Config.AsBoolZero | brandgen/config.py:43 | "0" is off. |
| Config.Need | brandgen/config.py:55-59 | A setting succeeds exactly when its stripped value is not empty, and the result is that stripped value. Otherwise the error names the setting. |
| Config.NeedAll | brandgen/config.py:48-64 | The checks in order succeed exactly when every setting is present, with the stripped values. |
| Config.NeedAllFirstMissing | brandgen/config.py:48-64 | The first missing setting is the one whose error is reported. |
| Config.Limit | brandgen/config.py:65-66 | An unset or empty limit is 0. Otherwise the limit is `int()` of the text, and a text that is not an integer raises. |
| Config.GetConfig | brandgen/config.py:46-81 | The required settings are checked in the order OPENAI_API_KEY, GPT_MODEL, INDUSTRIES_FILE, COMPANIES_FILE, BRANDS_FILE, DATASET_FILE, and the first missing one raises, naming it. The configuration is accepted exactly when all are present and both limits parse. It then holds every text setting stripped, the two limits, the stripped country and the flag. |
| Config.BlankIsMissing | brandgen/config.py:48-58 | A whitespace-only value counts as missing. |
| Config.DefaultsWhenUnset | brandgen/config.py:65-68 | With the limits, the country and the flag unset, both limits are 0, the country is "" and the flag is off. |
| Config.BlankLimitRaises | brandgen/config.py:65-66 | A whitespace-only limit is neither unset nor empty, so `int()` raises on it. |
| FlattenIsic.FlattenRows | scripts/flatten_isic.py:10-51 | The loop, with its three current labels and its record list, computes the fold of the row step over the sheet. |
| FlattenIsic.FoldAppend | scripts/flatten_isic.py:15-51 | Reading two runs of rows is reading the second run from the context the first left behind, with the first run's records first. |
| FlattenIsic.InertRowIgnored | scripts/flatten_isic.py:17-51 | A row with no first cell, or with a code of none of the four levels, changes nothing, wherever it stands. |
| FlattenIsic.SectionRowResets | scripts/flatten_isic.py:24-27 | A one-letter code sets the section from cell 1 (or "") and clears the division and the group. |
| FlattenIsic.DivisionRowResets | scripts/flatten_isic.py:30-32 | A two-digit code sets the division and clears the group. |
| FlattenIsic.GroupRowSets | scripts/flatten_isic.py:35-36 | A three-digit code sets only the group. |
| FlattenIsic.ClassRowEmits | scripts/flatten_isic.py:39-51 | A four-digit code emits exactly one record, holding the current section, division and group and cells 1-3 (each "" when missing). The context is unchanged. |
| FlattenIsic.RecordCount | scripts/flatten_isic.py:15-44 | The number of records equals the number of four-digit rows. |
| FlattenIsic.RecordsInInputOrder | scripts/flatten_isic.py:15-51 | The records of every prefix of the sheet are a prefix of the records of the whole sheet. |
| FlattenIsic.DefaultPathOfWorkbook | scripts/flatten_isic.py:57-58 | `name.xlsx` becomes `name_flattened.csv`. |
| FlattenIsic.DefaultPathRewritesEveryOccurrence | scripts/flatten_isic.py:57-58 | Every occurrence of ".xlsx" is rewritten, not only the extension. |
| FlattenIsic.DefaultPathWithoutExtension | scripts/flatten_isic.py:57-58 | A path without ".xlsx" is returned unchanged. |
| FlattenIsic.OutputPathOverwritesInput | scripts/flatten_isic.py:57-60 | For "isic.xls", the default output path is the input path itself. |
| FlattenIsic.SafeOutputPathDiffers | scripts/flatten_isic.py:57-60 | The corrected default path never equals the input, and it agrees with the original whenever the input contains ".xlsx". |

## Left out

- The generation service (`brandgen/api.py`) is two function parameters of type `string -> seq<Entry>`. The `.get(..., [])` of the response envelope, JSON parsing errors and network failures are not part of this model.
- File I/O is not modelled:
  - reading the sections file and its `int(k)` keys (`brandgen/persist.py`): sections are given as a `map<int, string>`;
  - loading and saving the JSON artifacts;
  - `mkdir`, `Path.exists`: file existence is a pair of booleans;
  - CSV quoting and writing.

  The flattener returns the table lines, and a run returns its effects (`Generate.Effect`) in order.
- Logging, `tqdm` progress bars and `time.time()` timings have no behaviour to state. `brandgen/logger.py` is not part of this model.
- `brandgen/schemas.py` holds only constant schema dictionaries. Its field names shape the records: a record is `Obj(map<string, string>)` or `NonObj`, and field values are strings only.
- `brandgen/__init__.py` only re-exports. It imports `load_isic_groups`, which `brandgen/persist.py` does not define; that import is not modelled.
- `print` and `input()` in the mode prompt are left out. The answers are a sequence of strings. Running out of answers (an `EOFError` in Python) is modelled as the loop returning no mode.
- `Config.GetConfig`: `load_env` and `os.getenv` are not modelled; the environment is a map. The inline checks of OPENAI_API_KEY and GPT_MODEL and the `need` helper raise the same message, so all six checks are modelled through one function.
- `Decimal.ParseInt`: `int()` is modelled over ASCII digits with an optional sign and surrounding whitespace. Underscores between digits and non-ASCII digits, which Python also accepts, are not modelled.
- `Text.Strip`, `Text.Lower`, `Text.IsAlpha` and `Text.IsDigits` model Python's Unicode `strip`, `lower`, `isalpha` and `isdigit` over ASCII only. Whitespace is the ASCII whitespace Python recognises, including the separators 0x1C-0x1F.
- `FlattenIsic.FlattenRows`: pandas reading and cell coercion are not modelled. Each cell is taken as already converted by `str()` (numeric codes with dropped leading zeros are not modelled), and a missing (NaN) cell is `None`. Every row is required to have a first cell, since `row.iloc[0]` raises on an empty row. Writing the record table and the two `print` lines are left out.
- `Generate.CollectInOrder` and `Generate.CollectBrandResponses` build an insertion-ordered association list, the Python dict, not a hash map. Each loop body is split into a small method (`FetchSectionCompanies`, `FetchCompanyBrands`) so that each proof stays short.
- `Generate.Run`: the path from `main` to `Run` through `get_config` and `ask_run_mode` is modelled by the separate functions `Config.GetConfig` and `Generate.AskRunMode`, not inlined. The client creation is not modelled.
- `PromptBuilder.BuildCompaniesPrompt`: `str.replace` is modelled for the non-empty placeholder patterns only, which are the only ones the builders use.

## Findings

| source | as written | input that shows it | evidently intended | confidence | as-written member | corrected member |
|---|---|---|---|---|---|---|
| scripts/flatten_isic.py:57-60 | The default output path replaces ".xlsx" in the input path. A path without ".xlsx" comes back unchanged, so `to_csv` writes the CSV over the workbook that was just read. | `flatten_isic_excel("isic.xls")` | A default output path that never names the input file | medium, not executed | FlattenIsic.OutputPathOverwritesInput | FlattenIsic.SafeOutputPathDiffers |
