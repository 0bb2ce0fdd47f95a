# niarb workflow engine — a Dafny model

niarb lets a user describe a decision workflow. A workflow has:

- an **input schema** and test **input data**;
- a list of **logic blocks**. Each block reads one input by a dotted path, applies an operation (`equal`, `neq`, `gt`, `gte`, `lt`, `lte`, `in`, `is`, `between`, `has`) to it, and folds in secondary **conditions** joined by `and`/`or`. The block then stores an output value under its `output_name`;
- a list of **calculations**. Each calculation is a formula with `${name}` placeholders, evaluated over the input and the block results;
- an **output schema** that switches outputs on and off.

The repository evaluates workflows in three places, and the three disagree in many details:

- the library engine `processWorkflow` of `src/lib/workflow.ts`;
- the preview engine `getOutputData` of the output panel, in `src/components/output-section.tsx`;
- the server engine behind `GET /api/workflow/output`, in `src/app/api/workflow/output/route.ts`.

Each engine is modelled as its own module, and the differences are stated as lemmas rather than smoothed over. Beside them the model covers:

- the formula validator (`src/lib/formula.ts` and its compiled twin `src/lib/formula.js`);
- the CSV export and import helpers (`src/lib/csv.ts`);
- the path enumerator offered to the editor (`src/lib/utils.ts`);
- the input editor (`src/components/input-section.tsx`);
- the rule editor (`src/components/logic-section.tsx`).

## Layout

| file | module | what it holds |
|---|---|---|
| `wrappers.dfy` | `Wrappers` | `Option` |
| `strings.dfy` | `Strings` | `trim`, `toLowerCase`, `includes`, `split`/`join`, `indexOf`, digit strings and `String(n)` |
| `js.dfy` | `Js` | JavaScript values: truthiness, `String()`, `JSON.stringify`, `Number()`, property read and write, object spread |
| `paths.dfy` | `Paths` | `path.replace(/\[(\d+)\]/g, '.$1')`, and the dotted path of a member under a prefix |
| `template.dfy` | `Template` | `formula.replace(/\${([\w.]+)}/g, callback)`, with a callback that may throw |
| `parens.dfy` | `Parens` | the parenthesis counter two loops use |
| `operands.dfy` | `Operands` | operand coercions shared by the engines |
| `workflow_types.dfy` | `WorkflowTypes` | blocks, conditions and calculations; the `and`/`or` fold; storing block outputs; the calculation context |
| `lib_workflow.dfy` | `LibWorkflow` | `src/lib/workflow.ts` |
| `output_section.dfy` | `OutputSection` | `src/components/output-section.tsx` |
| `output_route.dfy` | `OutputRoute` | `src/app/api/workflow/output/route.ts` |
| `schema_filters.dfy` | `SchemaFilters` | the two output-schema filters compared |
| `formula.dfy` | `Formula` | `validateFormula` |
| `csv.dfy` | `Csv` | `objectToCSV`, `parseCSV` |
| `utils.dfy` | `Utils` | `getAllPaths` |
| `input_section.dfy` | `InputSection` | `extractAllKeys` and the input-editor handlers |
| `logic_section.dfy` | `LogicSection` | the rule-editor handlers, as a class `Editor` over the block and calculation lists |

## How the source is rendered

**Values.** JavaScript values are `Js.Json`: `undefined`, `null`, booleans, numbers, strings, arrays, and objects.

- Objects are ordered lists of members, so `Object.keys` and `Object.entries` keep insertion order.
- Writing an existing key keeps its place; writing a new key appends it.
- Numbers are integers. `Number(...)` gives `None` where JavaScript gives `NaN`.

**Loops and state.** Each `forEach` loop that updates `data`, `context` or `finalResult` is a `method` with a `while` loop. The loop is proved equal to a recursive function over a prefix of the list, and the properties are lemmas about that function. The rule editor mutates its lists through `onChange`; it is a class whose methods reassign the `blocks` and `calculations` fields.

**Formula evaluation.** `new Function(...)()` is a parameter `eval` of each engine. It maps the formula text, after the engine has rewritten it, to the value, or to `None` when the evaluation throws (or, in the preview engine, yields `NaN`). So everything an engine does before and after evaluation is modelled exactly, and the evaluation itself is left open.

**JSON parsing.** `JSON.parse` is also a parameter. The engines take the parsed input, and `handleInputDataChange` takes `Option<Json>` for the result of parsing the text.

**Randomness.** `crypto.randomUUID()` in the editor becomes an `id` parameter.

## Where the engines differ

The model follows the code in every case below. The only in-repository description of the operations is the prompt of the workflow generator, `src/app/api/workflow/generate/route.ts:130-148`.

- **Case of comparisons.** That prompt calls `equal` an exact match (line 139) and only `has` case-insensitive (line 148). All three engines agree: `equal` and `in` compare `String(...)`/`JSON.stringify(...)` texts exactly, and only `has` lowercases (ASCII letters here).
- **Block inputs.** The prompt says earlier logic block results can be used in later conditions (line 135).
  - Only the preview engine does this: its lookup tries the outputs computed so far first (`OutputSection.LookupOrder`).
  - In `workflow.ts` blocks and conditions resolve only against the parsed input.
  - The server resolves them against the parsed input only as well.
- **`has` on the server.** `has` is in the prompt's list (line 148), but the server engine's `switch` has no `has` case. A `has` block there starts its condition fold from `false`.
- **Context updates.**
  - `workflow.ts` writes each calculation's result into the shared `context` (`src/lib/workflow.ts:466-467`, `475-476`), so later calculations see it (`LibWorkflow.ResultsVisible`).
  - The preview engine (`src/components/output-section.tsx:396-403`) and the server (`src/app/api/workflow/output/route.ts:141-147`) build a fresh context for each calculation, from the input and the block outputs only. So a later calculation never sees an earlier one's result (`OutputSection.ContextFixed`, `OutputRoute.ResultHiddenFromLaterCalcs`).
- **A missing placeholder behaves three ways.**
  - `workflow.ts` substitutes `0`.
  - The preview engine throws, and the calculation stores `0`.
  - The server throws, and the calculation stores nothing.
- **Repeated path segments in the preview lookup.** The preview lookup decides "last segment" with `keys.indexOf(key) === keys.length - 1`. A path whose last segment also occurs earlier therefore never returns a whole array (`OutputSection.LastKeyRule`).
- **Renaming to the same name.** `handleSaveEdit` with the name unchanged reports "Field name already exists" (`InputSection.BlurAgreesWithSave`).
- **Duplicate CSV headers.** After empty CSV headers are dropped, the remaining headers are paired with the data fields by their new positions.
- **The two path enumerators.**
  - `extractAllKeys` lists an array under its own prefix, which is `""` at the top level.
  - `getAllPaths` lists array elements by index.
  - `InputSection.EnumeratorsDiffer` shows both on one input.

## Model

| member | source | states |
|---|---|---|
| `LibWorkflow.BracketIndexIsDotIndex` | src/lib/workflow.ts:33-35 | writing an index as `[n]` or as `.n` resolves to the same value, for any object and any surrounding path |
| `LibWorkflow.TraverseEnds` | src/lib/workflow.ts:37-66 | with no keys left the cursor itself is the result (a whole array included); with keys left, a `null`, `undefined` or scalar cursor yields `undefined` |
| `LibWorkflow.TraverseIndex` | src/lib/workflow.ts:49-53 | a numeric key indexes the array and traversal continues from that element; past the end the result is `undefined` |
| `LibWorkflow.FanOut` | src/lib/workflow.ts:54-57 | a non-numeric key on an array always gives an array, and `x` is in it iff `x` is defined and comes from some element's result, array results spliced in one level |
| `LibWorkflow.ListFanOutExample` | src/lib/workflow.ts:29-70 | on `{k: [{f: a}, {f: b}]}` the path `k.f` resolves to `[a, b]` |
| `LibWorkflow.ListIndexExample` | src/lib/workflow.ts:29-70 | on the same document `k[0].f` resolves to `a`, and `k[5].f`, past the end, to `undefined` |
| `LibWorkflow.ListOfJoin` | src/lib/workflow.ts:178-186 | `in` searches an array operand as it is, and reads a string of trimmed, comma-free items joined by commas back as exactly those items |
| `LibWorkflow.SomeItemMatchesIff` | src/lib/workflow.ts:202-206 | the inner `list.some` holds iff some list item has the same normalised text as the value |
| `LibWorkflow.InIff` | src/lib/workflow.ts:201-207 | `in` holds iff some value checked and some list item have equal normalised texts |
| `LibWorkflow.EvaluateIn` | src/lib/workflow.ts:177-216 | `in` checks the array's elements, the object's member values, or the single value, against the list |
| `LibWorkflow.StringMatch` | src/lib/workflow.ts:201-207 | against a list of strings, a string input is `in` it iff it is one of them |
| `LibWorkflow.InScalarString` | src/lib/workflow.ts:177-216 | for a string operand, a string input is `in` iff it equals one trimmed comma piece |
| `LibWorkflow.Evaluate` | src/lib/workflow.ts:112-251 | the switch yields a result for all ten operations and none for `direct`, `transform` and `calculate`, which leave the result `false` |
| `LibWorkflow.EqualNeqOpposite` | src/lib/workflow.ts:113-136 | `neq` is always the negation of `equal` |
| `LibWorkflow.UnresolvedBlock` | src/lib/workflow.ts:97-108 | an unresolved block stores `default_value \|\| ""` and records exactly one debug entry, with result false |
| `LibWorkflow.ResolvedBlock` | src/lib/workflow.ts:408-414 | a resolved block stores 1 when the fold holds, otherwise `default_value`, or 0 when that is `undefined` |
| `LibWorkflow.BlocksStore` | src/lib/workflow.ts:93-420 | a named block's value is what `data` holds under its name, unless a later block writes the same name |
| `LibWorkflow.BlocksUnique` | src/lib/workflow.ts:93-420 | the data object has each output name once |
| `LibWorkflow.EvaluateConditions` | src/lib/workflow.ts:254-406 | the loop's `finalResult` is the left fold of the conditions from the primary result, and its debug entries are those of the resolved conditions |
| `LibWorkflow.EvaluateBlock` | src/lib/workflow.ts:96-419 | the method stores the value `BlockValue` describes and the matching debug entries |
| `LibWorkflow.StoreBlock` | src/lib/workflow.ts:93-95 | a block without an output name changes neither `data` nor the log; a named block writes its value under its name |
| `LibWorkflow.RunLogicBlocks` | src/lib/workflow.ts:93-420 | the loop over the blocks computes exactly `RunBlocks` and its log |
| `LibWorkflow.MissingVariableIsZero` | src/lib/workflow.ts:431-438 | a placeholder whose value is `undefined` or `''` is replaced by `0` |
| `LibWorkflow.CalcResult` | src/lib/workflow.ts:459-482 | a calculation whose evaluation throws stores 0; a digit string becomes the number it spells, so no digit string is ever stored; any other result is stored as it is |
| `LibWorkflow.CalcsInOrder` | src/lib/workflow.ts:426-483 | calculations run in declaration order: running a list is running its first part, then the rest on the state it leaves |
| `LibWorkflow.PutKeepsSync` | src/lib/workflow.ts:466-467 | writing a result to both `data` and `context` keeps every `data` member visible in the context |
| `LibWorkflow.CalcsKeepSync` | src/lib/workflow.ts:426-483 | after any number of calculations, `context` agrees with `data` on every member of `data` |
| `LibWorkflow.StartInSync` | src/lib/workflow.ts:423 | the context `{...parsedInput, ...data}` agrees with the block results on each of them |
| `LibWorkflow.ResultsVisible` | src/lib/workflow.ts:423-483 | every output is visible in the final context under its own name, so each result is seen by the calculations after it |
| `LibWorkflow.RunCalculation` | src/lib/workflow.ts:426-482 | one iteration substitutes placeholders, evaluates, and stores the result, or 0, in both `data` and `context` |
| `LibWorkflow.RunCalculations` | src/lib/workflow.ts:426-483 | the calculation loop computes exactly `RunCalcs` |
| `LibWorkflow.ProcessWorkflow` | src/lib/workflow.ts:73-485 | the returned data are the block outputs followed by the calculation results, and the debug log is the blocks' log |
| `OutputSection.WalkPath` | src/components/output-section.tsx:53-70 | the segment loop yields the walk `WalkFrom` describes |
| `OutputSection.TryOne` | src/components/output-section.tsx:47-75 | one candidate path yields a value exactly when the walk is valid and its result defined |
| `OutputSection.GetNestedValue` | src/components/output-section.tsx:32-81 | the method returns the lookup `Lookup` describes |
| `OutputSection.TryPathDefined` | src/components/output-section.tsx:72-74 | a path that is tried successfully never yields `undefined` |
| `OutputSection.LookupOrder` | src/components/output-section.tsx:36-78 | a computed output of that name comes first, then the path itself, then the path under `input_data.`; otherwise the result is `undefined` |
| `OutputSection.LastKeyRule` | src/components/output-section.tsx:60-62 | the whole-array test fires at segment `i` iff `i` is the last segment and that segment does not occur earlier |
| `OutputSection.IntermediateArray` | src/components/output-section.tsx:65-69 | an array before the last segment is indexed by a numeric segment, and otherwise by its first element |
| `OutputSection.WholeAtLastKey` | src/components/output-section.tsx:60-62 | an array reached at a last segment that occurs once is returned whole |
| `OutputSection.TwoSegments` | src/components/output-section.tsx:48-49 | `a.b` splits into the segments `a` and `b` |
| `OutputSection.ArrayMemberPath` | src/components/output-section.tsx:53-75 | `a.b` on an array member gives the whole array when the segments differ, and its first element when they are equal |
| `OutputSection.BracketIsDot` | src/components/output-section.tsx:48 | `[n]` and `.n` are interchangeable in a tried path |
| `OutputSection.AllPathsPrefixed` | src/components/output-section.tsx:84-105 | every path listed under a non-empty prefix starts with that prefix and a dot |
| `OutputSection.IndexPrefixed` | src/components/output-section.tsx:84-105 | every path listed for an array element starts with the array's path and `[` |
| `OutputSection.ObjectPathsListed` | src/components/output-section.tsx:84-105 | each member's path is listed, and so is each index of an array member |
| `OutputSection.ElementsListed` | src/components/output-section.tsx:84-105 | every element index from the starting position on is listed |
| `OutputSection.FieldNameOfJoin` | src/components/output-section.tsx:226 | the field name is the last dotted segment of the input name |
| `OutputSection.CondValue` | src/components/output-section.tsx:309-310 | a condition reads the element at the same index, or its first element when that one is missing or falsy; a non-array condition reads its value |
| `OutputSection.BlockKeys` | src/components/output-section.tsx:193-389 | `data` has a key iff some block outputs under that name |
| `OutputSection.EarlierOutputFirst` | src/components/output-section.tsx:36-38 | a name some block outputs is read from `data` before the input is consulted |
| `OutputSection.BlocksStore` | src/components/output-section.tsx:193-389 | a named block's value, computed on the data of the blocks before it, stays unless a later block writes the same name |
| `OutputSection.SingleValueTests` | src/components/output-section.tsx:379-381 | `in` and `has` store `output_value \|\| 20` when some element matches, else `default_value \|\| 0` |
| `OutputSection.ArrayAligned` | src/components/output-section.tsx:382-384 | other operations on an array of two or more elements store one value per element, in order |
| `OutputSection.NullNeverMatches` | src/components/output-section.tsx:220-296 | a `null` element never satisfies `equal`, `neq` or `in` (reading its field throws) |
| `OutputSection.ObjectComparedByField` | src/components/output-section.tsx:222-231 | an object element satisfies `equal` iff its member named by the last path segment has the operand's text |
| `OutputSection.ConditionStep` | src/components/output-section.tsx:300-369 | one condition's contribution to the fold, computed by the method, equals `CondStep` |
| `OutputSection.EvaluateConditions` | src/components/output-section.tsx:299-370 | the loop's `finalResult` is the fold of the condition steps |
| `OutputSection.EvaluateElement` | src/components/output-section.tsx:216-376 | one element's result and value equal `Element` |
| `OutputSection.EvaluateBlock` | src/components/output-section.tsx:197-388 | the stored value equals `BlockValue` |
| `OutputSection.ResultsLast` | src/components/output-section.tsx:216-376 | mapping one more element appends exactly that element's outcome |
| `OutputSection.StoreBlock` | src/components/output-section.tsx:193-194 | a block without an output name leaves `data` unchanged; a named one writes its value |
| `OutputSection.RunLogicBlocks` | src/components/output-section.tsx:193-389 | the block loop computes exactly `RunBlocks` |
| `OutputSection.NumText` | src/components/output-section.tsx:417-443 | only `undefined` makes the substitution throw |
| `OutputSection.CoercedNumeral` | src/components/output-section.tsx:426-442 | every other value is replaced by an integer numeral |
| `OutputSection.CoercionKeepsNumbers` | src/components/output-section.tsx:426-442 | numbers, booleans, `null` and numeric strings are replaced by a numeral whose `Number` value is their own `Number` value |
| `OutputSection.CalcValue` | src/components/output-section.tsx:417-497 | a calculation always stores a number |
| `OutputSection.MissingVariableIsZero` | src/components/output-section.tsx:421-423 | a formula whose first placeholder is missing stores 0 |
| `OutputSection.PlainFormula` | src/components/output-section.tsx:449-483 | a formula without placeholders stores its value when it passes the checks and evaluates, else 0; an unbalanced one always stores 0 |
| `OutputSection.CalcStepKeys` | src/components/output-section.tsx:392-502 | a calculation adds exactly its own output name to `data` |
| `OutputSection.CalcKeys` | src/components/output-section.tsx:392-503 | after the calculations, the keys are those before plus the calculations' output names |
| `OutputSection.ContextFixed` | src/components/output-section.tsx:396-403 | when no named calculation reuses a block's name, the context every calculation sees is the one before any of them |
| `OutputSection.CheckParens` | src/components/output-section.tsx:456-463 | the scanning loop accepts exactly the balanced formulas |
| `OutputSection.CheckFormula` | src/components/output-section.tsx:449-463 | the checks accept exactly the admissible formulas: not blank, not `{}` or `undefined`, and balanced |
| `OutputSection.EvaluateCalculation` | src/components/output-section.tsx:417-497 | the method computes exactly `CalcValue` |
| `OutputSection.RunCalculation` | src/components/output-section.tsx:392-502 | one iteration computes exactly `CalcStep` |
| `OutputSection.RunCalculations` | src/components/output-section.tsx:392-503 | the calculation loop computes exactly `RunCalcs` |
| `OutputSection.KeepNotFalseGet` | src/components/output-section.tsx:534-538 | an output is kept iff the schema does not switch it off explicitly, and a kept output keeps its value |
| `OutputSection.KeepAll` | src/components/output-section.tsx:534-538 | a schema that switches nothing off keeps every output |
| `OutputSection.TrueSchemaGet` | src/components/output-section.tsx:524-528 | the first schema maps every output name to `true` and nothing else |
| `OutputSection.FirstSchemaShowsAll` | src/components/output-section.tsx:520-542 | without a schema every output is shown and the new schema switches all of them on, so once it is stored the same outputs stay shown |
| `OutputSection.ShownOutputs` | src/components/output-section.tsx:533-541 | with a schema, no new schema is proposed and an output is shown iff it is not switched off |
| `OutputSection.GetOutputData` | src/components/output-section.tsx:139-517 | the data are the block outputs followed by the calculation results |
| `OutputSection.InitialSchema` | src/components/output-section.tsx:525-528 | the reduce builds `TrueSchema` of the output names |
| `OutputSection.RefreshOutput` | src/components/output-section.tsx:520-542 | the effect shows `Refreshed` of the computed data |
| `OutputRoute.FalsyStops` | src/app/api/workflow/output/route.ts:6-10 | once the cursor is falsy, the rest of the path yields `undefined` |
| `OutputRoute.PlainKey` | src/app/api/workflow/output/route.ts:6-10 | a path without a dot reads that member of the object |
| `OutputRoute.DotDescends` | src/app/api/workflow/output/route.ts:6-10 | `p.q` reads `q` from what `p` reads, with no fan-out over arrays and no bracket syntax |
| `OutputRoute.BlockKeys` | src/app/api/workflow/output/route.ts:25-134 | `data` has a key iff some named block with a resolving input writes it; unresolved blocks write nothing |
| `OutputRoute.BlocksStore` | src/app/api/workflow/output/route.ts:25-134 | a resolved block's outcome stays, unless a later resolved block writes the same name |
| `OutputRoute.FoldLast` | src/app/api/workflow/output/route.ts:126-130 | one more condition combines with `and`/`or`, or is skipped when its input is `undefined` |
| `OutputRoute.EvaluateConditions` | src/app/api/workflow/output/route.ts:76-131 | the loop's `finalResult` is the fold of the steps |
| `OutputRoute.EvaluateBlock` | src/app/api/workflow/output/route.ts:29-133 | the block's outcome: nothing when unresolved, else `output_value`, or `default_value \|\| ""` when the fold fails |
| `OutputRoute.StoreBlock` | src/app/api/workflow/output/route.ts:26-133 | unnamed and unresolved blocks leave `data` unchanged |
| `OutputRoute.RunLogicBlocks` | src/app/api/workflow/output/route.ts:25-134 | the block loop computes exactly `RunBlocks` |
| `OutputRoute.VarText` | src/app/api/workflow/output/route.ts:152-156 | only `undefined` makes the substitution throw |
| `OutputRoute.CalcStepOnlyOwnKey` | src/app/api/workflow/output/route.ts:137-164 | a calculation touches no key but its output name |
| `OutputRoute.CalcsOnlyOwnKeys` | src/app/api/workflow/output/route.ts:137-164 | keys no calculation names keep their values through all the calculations |
| `OutputRoute.MissingVariableSkips` | src/app/api/workflow/output/route.ts:153-163 | a formula whose first placeholder is missing leaves `data` exactly as it was |
| `OutputRoute.ResultHiddenFromLaterCalcs` | src/app/api/workflow/output/route.ts:141-148 | a calculation's result, under a name no block uses, does not change the context later calculations substitute from |
| `OutputRoute.RunCalculation` | src/app/api/workflow/output/route.ts:138-163 | one iteration computes exactly `CalcStep` |
| `OutputRoute.RunCalculations` | src/app/api/workflow/output/route.ts:137-164 | the calculation loop computes exactly `RunCalcs` |
| `OutputRoute.KeepTrueGet` | src/app/api/workflow/output/route.ts:167-169 | an output is kept iff the schema maps it to `true`, with its value |
| `OutputRoute.KeepTrueIdempotent` | src/app/api/workflow/output/route.ts:167-169 | filtering twice is filtering once |
| `OutputRoute.ProcessWorkflow` | src/app/api/workflow/output/route.ts:12-174 | the result is the filtered outputs of blocks then calculations |
| `OutputRoute.SecondFilterChangesNothing` | src/app/api/workflow/output/route.ts:236-238 | the `GET` handler's second filter returns what `processWorkflow` returned |
| `OutputRoute.NoSchemaNoOutput` | src/app/api/workflow/output/route.ts:209-215 | with the schema defaulted to `{}`, no output is returned |
| `OutputRoute.OutputKeys` | src/app/api/workflow/output/route.ts:167-169 | every returned key is switched on in the schema and was written by a resolved block or a calculation |
| `SchemaFilters.AgreeOnBooleans` | src/app/api/workflow/output/route.ts:167-169 | when the schema holds a boolean for every output, the preview filter and the server filter agree |
| `SchemaFilters.DisagreeOnUnlisted` | src/components/output-section.tsx:537 | an output the schema does not mention is shown by the preview and hidden by the server |
| `WorkflowTypes.FoldAppend` | src/lib/workflow.ts:254-406 | folding two lists of conditions is folding the second from where the first left off |
| `WorkflowTypes.AllAnd` | src/lib/workflow.ts:254-406 | with only `and` conditions, the fold holds iff the primary result and every resolved condition hold |
| `WorkflowTypes.AllOr` | src/lib/workflow.ts:254-406 | with only `or` conditions, the fold holds iff the primary result or some resolved condition holds |
| `WorkflowTypes.SkippedLeaveResult` | src/lib/workflow.ts:257 | skipped conditions do not affect the fold |
| `WorkflowTypes.IterateAppend` | src/lib/workflow.ts:426-483 | a `forEach` over two lists is one over the first, then one over the second from the state it leaves |
| `WorkflowTypes.BlockContextIgnores` | src/components/output-section.tsx:396-403 | the calculation context ignores data under names no block outputs |
| `WorkflowTypes.OutputsNameIff` | src/components/output-section.tsx:399-402 | a name is a block output name iff it is non-empty and some block has it |
| `WorkflowTypes.BlockContextGet` | src/app/api/workflow/output/route.ts:141-148 | in the context, a block's output name reads `data`, and any other name reads the input |
| `WorkflowTypes.StoreKeys` | src/app/api/workflow/output/route.ts:25-134 | after storing block outcomes, a key is present iff some block wrote it |
| `WorkflowTypes.StoreGet` | src/app/api/workflow/output/route.ts:133 | the last write to a name is what it holds |
| `WorkflowTypes.StoreUnique` | src/app/api/workflow/output/route.ts:25-134 | stored outcomes have each name once |
| `WorkflowTypes.BuildContext` | src/app/api/workflow/output/route.ts:141-148 | the loop builds exactly `BlockContext` |
| `Operands.CommaListOfJoin` | src/app/api/workflow/output/route.ts:110 | the list written as trimmed, comma-free items joined by commas reads back as those items |
| `Operands.Compare` | src/app/api/workflow/output/route.ts:35-73 | `direct`, `transform`, `calculate` and `has` never hold on the server |
| `Operands.EqualNeqOpposite` | src/app/api/workflow/output/route.ts:86-95 | `neq` is the negation of `equal` |
| `Operands.InJoinedList` | src/app/api/workflow/output/route.ts:108-112 | a value is `in` a joined list iff its text is one of the items |
| `Operands.InNeedsString` | src/app/api/workflow/output/route.ts:108-112 | `in` against a non-string operand never holds |
| `Operands.IsTestsNull` | src/app/api/workflow/output/route.ts:113-116 | `is` holds iff "the value is `null`" agrees with "the operand is `'null'`" |
| `Template.ReplaceLeading` | src/lib/workflow.ts:431 | a leading placeholder is replaced by the callback's text, and the replacement throws iff the callback or the rest throws |
| `Template.ReplaceNoDollar` | src/lib/workflow.ts:431 | a formula without `$` is left unchanged |
| `Template.ReplaceTotal` | src/lib/workflow.ts:431-438 | a callback that never throws makes a replacement that never throws |
| `Parens.WrapBalanced` | src/components/output-section.tsx:466-467 | wrapping a balanced formula in parentheses keeps it balanced |
| `Parens.NoParensBalanced` | src/components/output-section.tsx:457-463 | a formula without parentheses is balanced |
| `Paths.BracketSameAsDot` | src/lib/workflow.ts:34 | the normalisation rewrites `[n]` to `.n` wherever it occurs |
| `Paths.NoBracketUnchanged` | src/lib/workflow.ts:34 | a path without brackets is not changed |
| `Strings.SplitJoin` | src/lib/workflow.ts:35 | splitting undoes joining when no piece contains the separator |
| `Strings.IndexOf` | src/components/output-section.tsx:60 | `indexOf` gives the first position holding the key, or -1 when it is absent |
| `Strings.NonEmptyMembers` | src/components/input-section.tsx:136 | `filter(Boolean)` keeps exactly the non-empty strings |
| `Js.OverlayGet` | src/lib/workflow.ts:423 | in `{...a, ...b}` a key of `b` reads `b`, any other key reads `a` |
| `Js.PutKeys` | src/lib/workflow.ts:466 | assigning an existing key keeps the key order; a new key is appended |
| `Js.ParseIntToString` | src/components/output-section.tsx:434-435 | `Number(String(n))` is `n` |
| `Formula.ScanParens` | src/lib/formula.ts:27-43 | the loop reports an unmatched `)`, a missing `)`, or nothing, as `ParenError` says |
| `Formula.ValidateFormula` | src/lib/formula.ts:9-68 | the method computes exactly `Validate` |
| `Formula.ValidIff` | src/lib/formula.ts:9-68 | a formula is valid iff it is not blank, uses only the allowed characters, is balanced, and every identifier is an allowed function or an available variable; valid iff no error |
| `Formula.IdentifiersAreWords` | src/lib/formula.ts:46 | each identifier matched starts with a letter and holds only letters and digits |
| `Formula.UnknownMembers` | src/lib/formula.ts:47-55 | an identifier is reported iff it is neither an allowed function nor an available variable |
| `Formula.OperatorsAllowed` | src/lib/formula.ts:58-65 | the operator check never fails: every operator it matches is allowed |
| `Formula.ExampleIdentifiers` | src/lib/formula.js:43 | the identifiers of `a + b * 2` are `a` and `b` |
| `Formula.ValidExample` | __tests__/formula.test.js:6-9 | `a + b * 2` with variables `a`, `b` is valid |
| `Formula.InvalidCharExample` | __tests__/formula.test.js:11-15 | `a + b $ 2` fails with "Formula contains invalid characters" |
| `Csv.ExportEmptyIff` | src/lib/csv.ts:1-17 | the export is empty iff there are no records |
| `Csv.OtherKeysDropped` | src/lib/csv.ts:4-5 | a member not among the first record's keys does not reach its row |
| `Csv.EncodeFieldSpec` | src/lib/csv.ts:9-15 | `null`/`undefined` export as empty; a string with a comma is quoted, with its inner quotes doubled, so undoubling recovers it; everything else is written as `String(value)` |
| `Csv.UndoubleDoubled` | src/lib/csv.ts:12 | doubling quotes is undone by undoubling |
| `Csv.SingleLineNoRecords` | src/lib/csv.ts:20-21 | a text without a line break parses to no records |
| `Csv.ParseRowFields` | src/lib/csv.ts:26-32 | with distinct headers, each header holds its trimmed field, or `undefined` when the row is short; other names are absent |
| `Csv.ParseRowOfRecord` | src/lib/csv.ts:26-32 | a plain record's row parses back to the record |
| `Csv.RoundTrip` | src/lib/csv.ts:1-33 | records with the same plain keys and plain string values survive export and import |
| `Utils.PathsPrefixed` | src/lib/utils.ts:8-26 | every path listed under a non-empty prefix starts with that prefix and a dot |
| `Utils.EntryPrefixed` | src/lib/utils.ts:11-24 | every path a member lists starts with that member's own path |
| `Utils.MembersListed` | src/lib/utils.ts:11-24 | each member's path is listed, and so are the paths of an array member's first object element |
| `Utils.PathsUnderMembers` | src/lib/utils.ts:11-24 | each listed path lies under some member's path |
| `Utils.LaterElementsIgnored` | src/lib/utils.ts:14-20 | the elements after an array's first do not change the listing |
| `InputSection.ExtractAllKeys` | src/components/input-section.tsx:20-43 | the recursive method returns exactly `ExtractKeys` |
| `InputSection.DedupeSpec` | src/components/input-section.tsx:42 | `[...new Set(keys)]` has no repeats and the same members, in order of first occurrence |
| `InputSection.KeysDistinct` | src/components/input-section.tsx:20-43 | the keys are exactly the collected keys, without repeats, in first-occurrence order |
| `InputSection.ArrayKeys` | src/components/input-section.tsx:23-29 | a scalar has no keys; an array lists its prefix first, then its first element's keys and nothing else |
| `InputSection.LaterElementsIgnored` | src/components/input-section.tsx:27-28 | the elements after an array's first do not change the keys |
| `InputSection.MemberListed` | src/components/input-section.tsx:31-37 | each member's full key is listed, and so are its nested keys |
| `InputSection.KeysPrefixed` | src/components/input-section.tsx:20-43 | every key starts with the prefix |
| `InputSection.EnumeratorsDiffer` | src/components/input-section.tsx:20-43 | `[{a: 1}]` gives `["", "a"]` here, while `getAllPaths` gives `["0", "0.a"]` |
| `InputSection.InputSchemaMembers` | src/components/input-section.tsx:55-57 | the schema holds exactly the strings of an array `input_schema` |
| `InputSection.AddInputSpec` | src/components/input-section.tsx:68-74 | adding extends the schema by the value iff it is non-empty and new, and keeps the schema free of repeats |
| `InputSection.RemoveInputMembers` | src/components/input-section.tsx:76-79 | removing drops exactly that name |
| `InputSection.RemoveInputAt` | src/components/input-section.tsx:76-79 | in a schema without repeats, removing the name at `i` removes position `i` |
| `InputSection.SaveEditSpec` | src/components/input-section.tsx:86-105 | the rename happens iff a field is being edited and the new name is non-empty and unused; "already exists" iff the new name is in the schema |
| `InputSection.BlurRenameSpec` | src/components/input-section.tsx:303-322 | on blur the trimmed text replaces position `index` when it is non-empty, different and unused; "already exists" iff it is used elsewhere |
| `InputSection.BlurAgreesWithSave` | src/components/input-section.tsx:86-105 | a changed name renames alike on blur and through the dialog; an unchanged name is silent on blur and "already exists" in the dialog |
| `InputSection.HeadersClean` | src/components/input-section.tsx:136 | the headers are exactly the non-empty trimmed pieces of the header line |
| `InputSection.RecordKeys` | src/components/input-section.tsx:143-148 | the record's keys are the trimmed headers without repeats |
| `InputSection.RecordFields` | src/components/input-section.tsx:143-148 | with distinct trimmed headers, each header holds its trimmed field, or `''` past the end of the line |
| `InputSection.FallbackOutcome` | src/components/input-section.tsx:133-167 | text that is not JSON is read as CSV iff it holds a comma, and is rejected otherwise |
| `InputSection.InputDataOutcome` | src/components/input-section.tsx:107-169 | an object or array gives distinct keys; other JSON is ignored; text that is not JSON is CSV or rejected, as above |
| `LogicSection.RemoveAtSpec` | src/components/logic-section.tsx:312-316 | `splice(i, 1)` removes exactly position `i` when it exists, and otherwise changes nothing |
| `LogicSection.MoveAsSplice` | src/components/logic-section.tsx:289-304 | a drag removes the source item and inserts it at the destination |
| `LogicSection.MovePermutes` | src/components/logic-section.tsx:289-304 | a drag reorders without adding or losing blocks |
| `LogicSection.MoveKeepsOrder` | src/components/logic-section.tsx:289-304 | the dragged block lands at the destination and the others keep their relative order |
| `LogicSection.MoveBack` | src/components/logic-section.tsx:289-304 | dragging back undoes a drag |
| `LogicSection.BlockUpdates` | src/components/logic-section.tsx:306-310 | an empty update changes nothing; two updates compose as one merged update; an update is idempotent; `id` and `conditions` stay |
| `LogicSection.OperationReset` | src/components/logic-section.tsx:435-438 | changing the operation resets the values to one empty string, or two for `between`, and changes nothing else |
| `LogicSection.ConditionEdits` | src/components/logic-section.tsx:334-366 | adding appends a new condition and keeps the rest of the block; removing from a block without conditions changes nothing |
| `LogicSection.AvailablePathsSpec` | src/components/logic-section.tsx:391-403 | the list offered to block `i` is the input paths, followed by exactly the non-empty output names of the blocks before `i` |
| `LogicSection.AvailablePathsGrow` | src/components/logic-section.tsx:391-403 | each block offers the next one its output name, if it has one |
| `LogicSection.Editor.constructor` | src/components/logic-section.tsx:264-276 | the editor starts from the workflow's lists |
| `LogicSection.Editor.AddLogicBlock` | src/components/logic-section.tsx:264-276 | appends a new block and leaves the calculations alone |
| `LogicSection.Editor.AddCalculation` | src/components/logic-section.tsx:278-287 | appends a new calculation and leaves the blocks alone |
| `LogicSection.Editor.HandleDragEnd` | src/components/logic-section.tsx:289-304 | a drop on the block list moves the block; a drop elsewhere, or none, changes nothing |
| `LogicSection.Editor.HandleBlockChange` | src/components/logic-section.tsx:306-310 | applies the update to block `index` only |
| `LogicSection.Editor.HandleRemoveBlock` | src/components/logic-section.tsx:312-316 | removes block `index` |
| `LogicSection.Editor.UpdateCalculation` | src/components/logic-section.tsx:318-324 | applies the update to calculation `index` only |
| `LogicSection.Editor.RemoveCalculation` | src/components/logic-section.tsx:326-332 | removes calculation `index` |
| `LogicSection.Editor.AddCondition` | src/components/logic-section.tsx:334-347 | appends a new condition to that block only |
| `LogicSection.Editor.UpdateCondition` | src/components/logic-section.tsx:349-357 | applies the update to that condition only, in the new list (the shared block of the previous list is not modelled) |
| `LogicSection.Editor.RemoveCondition` | src/components/logic-section.tsx:359-366 | removes that condition only, in the new list (the shared block of the previous list is not modelled) |

## Left out

- Numbers: only integers are modelled. Fractions, `Infinity`, `NaN` as a value, and `Number()` of forms such as `1e3` or `0x10` are not. `Number()` of a string accepts optional blanks, an optional sign and decimal digits.
- Case folding: `toLowerCase` lowers ASCII letters only.
- String units: a string is a sequence of Unicode scalar values (`char`), not of UTF-16 code units. For characters outside the Basic Multilingual Plane, `.length`, index reads and positions reached through path lookups, `indexOf` and `split` differ from JavaScript's.
- Objects: integer-like keys are ordered as inserted, not in JavaScript's numeric-first order. Prototype properties such as `toString` are never found by property reads.
- `JSON.parse` and `JSON.stringify` layout: parsing is a parameter, and `JSON.stringify` is a fixed compact text function.
- Preview input: the preview engine's own reading of unparseable input as CSV (`src/components/output-section.tsx:164-190`) is not modelled. The engine takes the parsed input.
- Formula normalisation in `workflow.ts`: the regular-expression rewrites of `''`, `""` and numeric comparisons (lines 441-452) are folded into the evaluator parameter, which receives the substituted formula.
- The evaluator: `new Function(...)()` is a parameter, for the reasons given above. `evaluateFormula` of `src/lib/formula.ts` is left out for the same reason. The syntax check `new Function('return (' + formula + ')')` of the preview engine (lines 466-470) is part of the evaluator parameter's failure case.
- Debug output: `debug.calculations`, `debug.input`, the preview engine's debug strings, `console` logging and toasts are left out. `workflow.ts`'s `debug.logicBlocks` is kept, without its `expected` member.
- Outer error handling:
  - the outer `try`/`catch` of each engine is left out;
  - so is the rethrow in the route handler;
  - `JSON.parse` failures are a parameter.
- Left out as I/O, or as code outside these engines:
  - `downloadCSV`;
  - `handleExport`;
  - the file upload and drag-and-drop UI;
  - React rendering (`renderOutputSchema` apart from its effect, and `cn`);
  - the network and the database queries of the `GET` handler, apart from its defaults and second filter;
  - `localStorage`;
  - the version, AI-generation and other route handlers.
- `evaluateLogic` in `src/components/output-section.tsx` (lines 702-796) is never called, and is not modelled.
- Aliasing: `addCondition`, `updateCondition` and `removeCondition` copy the block list but not the block, so each edits a block object that the previous list shares. The model gives only the new list and does not capture these changes to the previous one:
  - `addCondition` pushes the new condition onto the block's own `conditions` array (`src/components/logic-section.tsx:337-345`);
  - `updateCondition` may set `block.conditions = []` and then assigns `block.conditions[conditionIndex]` in that shared array (lines 352-355);
  - `removeCondition` calls `block.conditions.splice(conditionIndex, 1)` on the shared array (lines 362-363).
- `LogicSection.AvailablePathsSpec`: when the workflow has no block list at all, `getAvailablePaths` throws while spreading `undefined`. The model treats a missing list as empty. The input paths come from `parsedInput`, which an effect of the editor parses from the input data; here the parsed input is a parameter.
- `crypto.randomUUID()` becomes an `id` parameter of `AddLogicBlock` and `AddCalculation`.
- `LogicSection.Editor.HandleDragEnd`: the drag source and destination indices are required to lie within the list, as the drag library guarantees.
- `LogicSection.Editor.UpdateCondition`: required to target an existing condition, as the editor only renders existing ones.
- `Csv.RoundTrip`: proved only for records that share one non-empty list of plain keys and hold plain strings. Other values do not survive, because everything is read back as a string.
