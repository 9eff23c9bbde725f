# dcat-admin grid model, select filter, file field and widgets in Dafny

This project models five pieces of the dcat-admin administration toolkit (PHP):

- **`GridModel`** (`src/Grid/Model.php`): the grid's data model.
  - Every query-builder call made on it is recorded as an entry `{method, arguments}` in an ordered collection.
  - The collection is then edited: append, filter, reject, deduplicate, first-match lookup.
  - `with` records eager-load relations.
  - Reading the sort, the page size and the current page from the request caches them.
  - `setData` normalises what it is given.

  The collection keeps PHP's keys (`Slot.key`) and the next free key (`nextKey`). This is because `filterQueryBy`'s callable receives the key, and `filter`, `reject` and `unique` keep keys.
- **`SelectPresenter`** (`src/Grid/Filter/Presenter/Select.php`): the select filter.
  - A Select2 configuration map: `config` overrides, while `addDefaultConfig` only fills unset keys.
  - The options source and how `buildOptions` resolves it.
  - The id extraction of `model()`'s loader.
  - The placeholder and the cached CSS class derived from the column.
- **`FileField`** (`src/Form/Field/File.php`): the file upload field.
  - The decision `getValidator` takes: delete flag, file-count limit, required rules.
  - The comma-joined value `formatValue` produces, with its round trip back through `explode`.
  - The preview records.
  - The option changes of `setRelation`, `disable`, `forceOptions` and `render`.
- **`SparklineLine`** (`src/Widgets/Sparkline/Line.php`): the line sparkline's options map.
  - It is filled from a palette entry: the opaque/translucent fill choice, and width/radius defaults that never overwrite a set value.
  - `render` uses the primary colour only when no line colour was chosen.
- **`DumpWidget`** (`src/Widgets/Dump.php`): the dump widget.
  - The bracket test that decides whether a string is decoded as JSON.
  - What `content` stores.
  - The keep-unless-truthy padding rule.
  - The style string.

`Php` (`php.dfy`) holds the PHP and Laravel value semantics the five share:
- values and ordered arrays;
- truthiness, `isset` and `??`;
- `(string)`;
- `explode`/`implode` with their round-trip lemmas;
- `str_replace` of one character and `basename`;
- `Arr::get`/`Arr::has`, `Arr::isAssoc`, `array_column` and `count(array_filter(...))`.

Objects whose fields the source updates are Dafny classes with `modifies` frames. Pure decisions are functions. Each state-changing method is specified by a function of the old state, and the properties are lemmas about those functions.

Where the source calls code that is not part of this model, the model takes that code as a parameter:
- the request (a map of query parameters);
- `Helper::array` (`toArray`);
- `objectUrl`;
- `$model::find(...)->pluck(...)` (`find`);
- `json_decode`/`json_encode` (`decode`/`encode`);
- `Colors::$default` (`palette`);
- the translated "choose" label (`chooseLabel`);
- the request's delete flag and the field's rule lookups (`deleteFlag`, `hasValidator`, `hasRequired`, `requiredIf`);
- the check that the argument to `model()` is an Eloquent model class (`isModelClass`).

`getValidator` is modelled as the code reads. At `src/Form/Field/File.php:72`, `!$this->hasRule('required') && !$requiredIf = $this->getRule('required_if*')` short-circuits. So when the field has both `required` and a `required_if*` rule, `$requiredIf` stays null and the rule is `required`.

## Model

| member | source | states |
|---|---|---|
| Php.Split | src/Form/Field/File.php:57 | `explode` on one character always yields at least one piece, and no piece contains the delimiter |
| Php.JoinSplit | src/Form/Field/File.php:57 | imploding the pieces of an explode gives the original string back |
| Php.SplitJoin | src/Form/Field/File.php:173 | exploding an implode of delimiter-free pieces gives the pieces back |
| Php.SplitPlain | src/Form/Field/File.php:57 | a string without the delimiter explodes to itself alone |
| Php.SplitAtFirst | src/Form/Field/File.php:57 | exploding `a + d + b` with `d` not in `a` gives `a` followed by the pieces of `b` |
| Php.Head | src/Grid/Model.php:635-641 | `explode($d, $s)[0]` is a prefix of `s` without `d`, and `s` continues with `d` if it is longer |
| Php.HeadIsPrefix | src/Grid/Model.php:636 | the first piece of an explode is a prefix of the string, followed by the delimiter when shorter |
| Php.Replace | src/Grid/Filter/Presenter/Select.php:290 | `str_replace` of one character keeps the length and changes exactly the occurrences of the needle |
| Php.TrimTrailing | src/Form/Field/File.php:131 | trimming trailing separators leaves a prefix that does not end in the separator |
| Php.TrimTrailingOnlyC | src/Form/Field/File.php:131 | only trailing copies of the separator are cut off |
| Php.AfterLast | src/Form/Field/File.php:131 | the part after the last separator contains no separator and is no longer than the input |
| Php.AfterLastIsSuffix | src/Form/Field/File.php:131 | that part is a suffix of the input, preceded by the separator when shorter than the input |
| Php.Basename | src/Form/Field/File.php:131 | `basename` never contains a `/` |
| Php.BasenameIsLastSegment | src/Form/Field/File.php:131 | `basename` is the last segment of the path once trailing `/` are trimmed: a suffix of the trimmed path, preceded there by `/` when shorter |
| Php.BasenameOfName | src/Form/Field/File.php:131 | a name without `/` is its own basename |
| Php.AfterLastAbsent | src/Form/Field/File.php:131 | without the separator, the part after the last one is the whole string |
| Php.SetDefault | src/Grid/Filter/Presenter/Select.php:195-197 | `$m[$k] = $v` unless `isset($m[$k])`: a set non-null value is kept, otherwise the key receives the default |
| Php.DataGet | src/Form/Field/File.php:56 | `Arr::get` of a non-array is null, and a key stored directly is found directly |
| Php.DataHas | src/Form/Field/File.php:52 | `Arr::has` fails on an empty or non-array input and holds whenever the key is stored directly |
| Php.PlainKeyAccess | src/Form/Field/File.php:52-56 | for a key without `.`, `Arr::has` and `Arr::get` look at that key alone |
| Php.IsList | src/Grid/Model.php:627 | an array that `Arr::isAssoc` calls a list has pairwise distinct keys |
| Php.Coalesce | src/Form/Field/File.php:59 | `$m[$k] ?? $d` is the stored value when set and not null, else the default |
| Php.ToString | src/Form/Field/File.php:57 | `(string)` keeps a string, and a scalar converts to a truthy string exactly when it is truthy |
| Php.Join | src/Form/Field/File.php:173 | `implode` starts with the first piece, followed by the delimiter when there are more; `Php.JoinSplit` and `Php.SplitJoin` relate it to `explode` |
| Php.CastToList | src/Grid/Model.php:650 | `(array)` of a non-array value is empty for null and a one-element list otherwise |
| Php.Lookup | src/Grid/Filter/Presenter/Select.php:137-140 | an array lookup finds a value exactly when some entry has the key |
| Php.LookupFirst | src/Grid/Filter/Presenter/Select.php:137-140 | the value a lookup finds is that of the first entry with the key |
| Php.Put | src/Form/Field/File.php:101 | `$a[$k] = $v` makes `k` map to `v`, leaves every other key's lookup unchanged, and appends only a new key |
| Php.ValuesOf | src/Form/Field/File.php:175 | `array_values` keeps length and order of the values |
| Php.KeysOf | src/Grid/Model.php:627-629 | `array_keys` keeps length and order of the keys |
| Php.Column | src/Grid/Filter/Presenter/Select.php:140 | `array_column` yields at most one value per row |
| Php.ColumnMembers | src/Grid/Filter/Presenter/Select.php:140 | a value is in the column exactly when some row has it under that field |
| Php.CountTruthy | src/Form/Field/File.php:57 | `count(array_filter(...))` never exceeds the number of items |
| Php.CountTruthyStrings | src/Form/Field/File.php:57 | the same for the pieces of a comma-split string |
| Php.CountTruthyAppend | src/Form/Field/File.php:57 | `count(array_filter(...))` of a concatenation is the sum of the parts' counts |
| Php.CountTruthyStringsAppend | src/Form/Field/File.php:57 | the same for comma-split pieces |
| Php.CountTruthySnoc | src/Form/Field/File.php:57 | a falsy item is dropped from the count and a truthy one counts one |
| Php.CountTruthyStringsSnoc | src/Form/Field/File.php:57 | an empty or "0" piece is dropped from the count and any other piece counts one |
| Php.CountAllTruthyStrings | src/Form/Field/File.php:57 | when every piece is truthy, none is filtered out |
| GridModel.QueriesOf | src/Grid/Model.php:609-612 | the recorded calls are the entries' `{method, arguments}` in collection order |
| GridModel.NextKeyAfter | src/Grid/Model.php:531-544 | after `filter`/`reject`, the next integer key is 0 for an empty collection and above every key in use |
| GridModel.Keep | src/Grid/Model.php:531-544 | filtering never lengthens the collection |
| GridModel.KeepMembers | src/Grid/Model.php:531-544 | an entry survives a filter exactly when it was present and passes the test |
| GridModel.KeepAppend | src/Grid/Model.php:574-580 | filtering distributes over concatenation, so relative order is kept |
| GridModel.KeepAscending | src/Grid/Model.php:531-544 | filtering keeps the collection's keys ascending |
| GridModel.FilterByNamesExactly | src/Grid/Model.php:532-536 | `filterQueryBy` with names drops exactly the entries whose method is strictly in the list |
| GridModel.FilterByCallableExactly | src/Grid/Model.php:539-541 | `filterQueryBy` with a callable keeps exactly the entries it accepts given query and key |
| GridModel.RejectNamesExactly | src/Grid/Model.php:572-581 | `rejectQuery` with names removes exactly the entries whose method is strictly in the list |
| GridModel.FilterKeeps | src/Grid/Model.php:531-544 | `filterQueryBy`'s test: a name drops the calls with that method, a list drops those whose method is listed, a callable decides from the call and its key |
| GridModel.RejectKeeps | src/Grid/Model.php:574-580 | `rejectQuery`'s test: names act as `filterQueryBy`'s list, a callable keeps exactly the calls it does not reject |
| GridModel.ArrayRelations | src/Grid/Model.php:626-631 | `with` on an array takes one name per entry: the values of a list, the keys of an associative array |
| GridModel.Dedup | src/Grid/Model.php:158-161 | deduplication never lengthens the collection |
| GridModel.DedupSound | src/Grid/Model.php:158-161 | what `unique` keeps came from the input and has no two equal queries |
| GridModel.DedupComplete | src/Grid/Model.php:158-161 | every query of the input is still represented after `unique` |
| GridModel.DedupKeepsFirst | src/Grid/Model.php:158-161 | the entry kept for a query is its first occurrence, with its key |
| GridModel.DedupOfDistinct | src/Grid/Model.php:158-161 | a collection without repeats is left unchanged |
| GridModel.DedupIdempotent | src/Grid/Model.php:158-161 | calling `getQueries` twice gives the same collection as calling it once |
| GridModel.DedupAscending | src/Grid/Model.php:158-161 | deduplication keeps the keys ascending |
| GridModel.First | src/Grid/Model.php:517-522 | the lookup finds nothing exactly when no entry has the method, and what it finds has that method |
| GridModel.FirstIsEarliest | src/Grid/Model.php:517-522 | what is found is the query at the earliest matching position |
| GridModel.FirstFound | src/Grid/Model.php:517-522 | what is found is the query of an entry of the collection |
| GridModel.RelationName | src/Grid/Model.php:634-642 | the name is cut at the first `.`, then at the first `:`; it is a prefix of the input with neither character, followed in the input by `.` or `:` when shorter, and unchanged when neither occurs |
| GridModel.RelationNameExamples | src/Grid/Model.php:634-642 | `ab.c` and `ab:c` both name the relation `ab` |
| GridModel.SortPair | src/Grid/Model.php:560-564 | the result is `[null, null]` exactly when the sort's column or type is empty, else `[column, type]` |
| GridModel.Model.constructor | src/Grid/Model.php:129-145 | a new model has no recorded calls, no relations, no sort and no data; 20 rows per page; pagination on |
| GridModel.Model.AddQuery | src/Grid/Model.php:607-615 | exactly one entry `{method, arguments}` is appended at the end under the next free key; earlier entries are unchanged |
| GridModel.Model.Call | src/Grid/Model.php:599-602 | any other method call on the model is recorded like `addQuery`, under the next free key |
| GridModel.Model.GetQueries | src/Grid/Model.php:158-161 | the collection becomes its deduplication, which is returned, and the keys stay ascending |
| GridModel.Model.FilterQueryBy | src/Grid/Model.php:529-547 | the collection becomes the entries passing `filterQueryBy`'s test, in order, with their keys |
| GridModel.Model.RejectQuery | src/Grid/Model.php:572-581 | the collection becomes the entries `rejectQuery`'s test does not reject, in order, with their keys |
| GridModel.Model.ResetOrderBy | src/Grid/Model.php:588-591 | an entry remains exactly when it was there and its method is neither `orderBy` nor `orderByDesc`; the next free key follows the last remaining one |
| GridModel.Model.FindQueryByMethod | src/Grid/Model.php:517-522 | none exactly when no recorded call has the method; otherwise a recorded call with that method |
| GridModel.Model.With | src/Grid/Model.php:624-651 | an already-loaded string name changes nothing; a new one is appended to the relations and recorded as `with`; an array's keys (associative) or values (list) are appended and recorded |
| GridModel.Model.GetSort | src/Grid/Model.php:554-565 | the sort is read from the request only while it is empty, and the result is the pair `SortPair` gives |
| GridModel.Model.PerPage | src/Grid/Model.php:501-508 | null exactly when pagination is off; otherwise the request's value when truthy, and the stored default when not |
| GridModel.Model.SetPerPage | src/Grid/Model.php:239-244 | the page size becomes the argument |
| GridModel.Model.GetCurrentPage | src/Grid/Model.php:480-487 | null exactly when pagination is off; otherwise the cached page, read once from the request or 1, always truthy |
| GridModel.Model.SetCurrentPage | src/Grid/Model.php:489-494 | the current page becomes the argument |
| GridModel.Model.UsePaginate | src/Grid/Model.php:216-219 | pagination is switched as asked |
| GridModel.Model.SetData | src/Grid/Model.php:359-385 | a callable becomes the builder; a paginator's, collection's or array's items become the data; anything else becomes an empty collection |
| GridModel.Model.Reset | src/Grid/Model.php:656-661 | the data and the recorded calls are cleared |
| SelectPresenter.GetClass | src/Grid/Filter/Presenter/Select.php:288-291 | every `.` becomes `_` and every other character is kept, at the same position |
| SelectPresenter.ClassTruthyIffColumn | src/Grid/Filter/Presenter/Select.php:259-260 | the derived class is empty or "0" exactly when the column is, so a non-empty column's class is cached |
| SelectPresenter.WithDefaults | src/Grid/Filter/Presenter/Select.php:185-200 | applying an array of defaults removes no key and never overwrites a key already set to a non-null value |
| SelectPresenter.DefaultsUntouched | src/Grid/Filter/Presenter/Select.php:185-200 | keys the defaults do not name keep their presence and value |
| SelectPresenter.DefaultsFill | src/Grid/Filter/Presenter/Select.php:195-197 | an unset or null key named by a default receives that default |
| SelectPresenter.DefaultsKeys | src/Grid/Filter/Presenter/Select.php:185-200 | the defaults add exactly the keys they name |
| SelectPresenter.ExtractIds | src/Grid/Filter/Presenter/Select.php:130-144 | an empty value gives no ids; a scalar gives itself; an associative array gives its id field; a list gives at most one id per row |
| SelectPresenter.ListIds | src/Grid/Filter/Presenter/Select.php:140 | the ids of a list of rows are exactly the rows' id fields |
| SelectPresenter.ModelOptions | src/Grid/Filter/Presenter/Select.php:129-147 | an empty value gives no options; otherwise the lookup is asked about the extracted ids only |
| SelectPresenter.DefaultConfig | src/Grid/Filter/Presenter/Select.php:103-109 | the defaults `buildOptions` adds name `allowClear` and `placeholder` once each |
| SelectPresenter.Select.constructor | src/Grid/Filter/Presenter/Select.php:23-53 | a new presenter has the given options source, an empty configuration, no placeholder, and select-all on |
| SelectPresenter.Select.Config | src/Grid/Filter/Presenter/Select.php:65-74 | a single key sets exactly that key; other keys keep their presence and value |
| SelectPresenter.Select.MergeConfig | src/Grid/Filter/Presenter/Select.php:67-68 | an array is merged: its keys override, other keys are kept, nothing else is added |
| SelectPresenter.Select.DisableSelectAll | src/Grid/Filter/Presenter/Select.php:79-84 | select-all is switched off |
| SelectPresenter.Select.AddDefaultConfig | src/Grid/Filter/Presenter/Select.php:195-199 | the key is inserted only when unset or null; otherwise the configuration is unchanged |
| SelectPresenter.Select.AddDefaultConfigs | src/Grid/Filter/Presenter/Select.php:187-193 | an array of defaults is applied key by key, in order |
| SelectPresenter.Select.Placeholder | src/Grid/Filter/Presenter/Select.php:211-213 | the stored placeholder when it is non-empty, otherwise the "choose" label |
| SelectPresenter.Select.SetPlaceholder | src/Grid/Filter/Presenter/Select.php:215 | the argument is stored and is what the placeholder reads back when non-empty |
| SelectPresenter.Select.Model | src/Grid/Filter/Presenter/Select.php:121-150 | fails, changing nothing, unless given a model class; otherwise the options become the id-extracting loader |
| SelectPresenter.Select.BuildOptions | src/Grid/Filter/Presenter/Select.php:89-112 | a loader is called with the filter value; a string source, however it was stored, is a URL and merges the remote settings; `allowClear` and `placeholder` are then set only as defaults; previously set keys keep their values; the result is the options when they are an array, else `[]` |
| SelectPresenter.Select.GetElementClass | src/Grid/Filter/Presenter/Select.php:257-261 | the cached class when non-empty, otherwise the column's class, which is then cached |
| SelectPresenter.Select.GetElementClassSelector | src/Grid/Filter/Presenter/Select.php:252-255 | `.` followed by the element class |
| FileField.FileCount | src/Form/Field/File.php:56-57 | the counted files are at most the entries or comma-separated pieces, and a null or empty value counts none |
| FileField.FileCountJoined | src/Form/Field/File.php:56-57 | a comma-joined list of comma-free names counts exactly its non-empty, non-"0" names |
| FileField.FileCountEmptyPiece | src/Form/Field/File.php:56-57 | an empty piece is skipped: `a,,b` names two files |
| FileField.FileCountZeroPiece | src/Form/Field/File.php:56-57 | a "0" piece is skipped: `a,0,b` names two files |
| FileField.FileLimit | src/Form/Field/File.php:59 | the limit is the stored `fileNumLimit` when set and not null, otherwise 1 |
| FileField.Strings | src/Form/Field/File.php:173 | `implode` converts each item to its string form, in order |
| FileField.FormattedCount | src/Form/Field/File.php:57 | a comma-joined list of non-empty names counts back to the number of names |
| FileField.PreviewOf | src/Form/Field/File.php:129-133 | a preview's id is the value, its path is the value's basename (without `/`), its url the value's URL |
| FileField.File.constructor | src/Form/Field/File.php:17-22 | a new field has the uploader's default options and no value |
| FileField.File.GetValidator | src/Form/Field/File.php:42-80 | each outcome holds exactly under its condition: the delete flag, else the field's own validator, else a missing column, else more files than `fileNumLimit` (default 1) after dropping empty parts (with that count), else neither `required` nor `required_if*`, else the rule `required` when present or the `required_if*` rule |
| FileField.File.SetRelation | src/Form/Field/File.php:99-104 | `formData._relation` becomes `[relation, key]`, other options and other `formData` keys unchanged |
| FileField.File.Disable | src/Form/Field/File.php:109-114 | `disabled` becomes the argument, other options unchanged |
| FileField.File.ForceOptions | src/Form/Field/File.php:139-142 | `fileNumLimit` becomes 1, other options unchanged |
| FileField.File.FormatValue | src/Form/Field/File.php:170-177 | a non-null value becomes the comma-join of its array form, and splitting it gives the items back when none contains a comma; else an array default is joined; nothing else changes |
| FileField.File.InitialPreviewConfig | src/Form/Field/File.php:124-137 | one preview per value, in order, each with the value as id and its basename as path |
| FileField.File.Render | src/Form/Field/File.php:147-165 | forces a single file, formats the value or, without one, joins an array default (leaving the other unchanged), and sets `fileType` to `''` for images else `file`, and `showUploadBtn` exactly when auto-upload is off |
| SparklineLine.Filled | src/Widgets/Sparkline/Line.php:67-85 | `lineColor`, `highlightLineColor`, `minSpotColor`, `maxSpotColor` and `spotColor` get the solid colour; `highlightSpotColor` gets `#fff`; `fillColor` is solid when opaque, translucent otherwise; `lineWidth` 2 and `spotRadius` 3 only when unset; every other option unchanged |
| SparklineLine.ColoredAt | src/Widgets/Sparkline/Line.php:69-75 | the seven chained colour setters give each option the value `Filled` prescribes and add no other option |
| SparklineLine.ChainedAt | src/Widgets/Sparkline/Line.php:69-82 | the setters followed by the two conditional defaults give each option the value `Filled` prescribes |
| SparklineLine.ChainIsFilled | src/Widgets/Sparkline/Line.php:69-82 | the step-by-step chain of `fillColors` yields exactly the options `Filled` describes |
| SparklineLine.FilledSetsAll | src/Widgets/Sparkline/Line.php:67-85 | after a fill every colour option, the width and the radius are set |
| SparklineLine.FillOverridesFill | src/Widgets/Sparkline/Line.php:32-85 | a second palette call replaces the first entirely: only the last fill is visible |
| SparklineLine.FillIdempotent | src/Widgets/Sparkline/Line.php:67-85 | filling twice with the same colours is filling once |
| SparklineLine.Rendered | src/Widgets/Sparkline/Line.php:87-91 | rendering leaves the options alone when a line colour is set, else fills the primary colours, translucent |
| SparklineLine.RenderedLineColor | src/Widgets/Sparkline/Line.php:87-91 | the rendered chart always has a line colour; a chosen one is never overwritten, otherwise it is the primary colour |
| SparklineLine.RenderedIdempotent | src/Widgets/Sparkline/Line.php:87-91 | rendering again changes nothing more |
| SparklineLine.Line.constructor | src/Widgets/Sparkline/Line.php:23-25 | a widget starts with the given palette and options |
| SparklineLine.Line.Set | src/Widgets/Sparkline/Line.php:10-21 | a magic setter writes exactly its own option |
| SparklineLine.Line.FillColors | src/Widgets/Sparkline/Line.php:67-85 | the chained setters and the two conditional defaults produce exactly `Filled` of the old options |
| SparklineLine.Line.ApplySwatch | src/Widgets/Sparkline/Line.php:32-65 | each of `primary` … `blue` fills from its own palette entry and passes `opaque` through |
| SparklineLine.Line.FillDefaultColor | src/Widgets/Sparkline/Line.php:27-30 | fills from the primary entry, translucent |
| SparklineLine.Line.Render | src/Widgets/Sparkline/Line.php:87-94 | fills the primary colours only when `lineColor` is unset |
| DumpWidget.LooksLikeJson | src/Widgets/Dump.php:78-83 | a JSON-looking string has at least two characters and matching outer brackets |
| DumpWidget.ConvertJsonToArray | src/Widgets/Dump.php:76-87 | decoding is attempted only for a string starting with `{` and ending with `}` or starting with `[` and ending with `]`; every other input gives null |
| DumpWidget.Stored | src/Widgets/Dump.php:32-45 | a view is stored as its HTML; an array as its JSON encoding; a JSON-looking string whose decoding is falsy, and any other non-array value, unchanged; a JSON-looking string that decodes to a non-empty array, re-encoded |
| DumpWidget.StoredIsScalar | src/Widgets/Dump.php:32-45 | whatever is given, the stored content is never an array |
| DumpWidget.NewPadding | src/Widgets/Dump.php:50-57 | a truthy padding replaces the current one; null, empty or "0" keeps it |
| DumpWidget.PaddingStaysTruthy | src/Widgets/Dump.php:12 | starting from `10px`, no sequence of `padding` calls leaves an empty or "0" padding |
| DumpWidget.Style | src/Widgets/Dump.php:91-94 | the style starts with `white-space:pre-wrap;` and continues with `max-width:W;` exactly when the width is truthy |
| DumpWidget.StyleHasWidthIff | src/Widgets/Dump.php:91-94 | the style is longer than the fixed prefix exactly when a truthy width is set |
| DumpWidget.Dump.constructor | src/Widgets/Dump.php:26-30 | a new widget stores its content as `content` does, and its padding is the argument when truthy, else `10px` |
| DumpWidget.Dump.SetContent | src/Widgets/Dump.php:32-45 | the content becomes what `Stored` gives |
| DumpWidget.Dump.SetPadding | src/Widgets/Dump.php:50-57 | the padding follows the keep-unless-truthy rule |
| DumpWidget.Dump.SetMaxWidth | src/Widgets/Dump.php:64-69 | the maximum width becomes the argument |
| DumpWidget.Dump.DefaultStyle | src/Widgets/Dump.php:91-94 | the widget's style starts with the fixed prefix and carries a width exactly when the stored one is truthy |

## Left out

- The ORM, the paginator, HTTP and rendering are foreign code. This leaves out `Model::fetch`, `buildData`, `makePaginator`, `setPaginator`, `paginator`, `handleInvalidPage` (a Pjax redirect), `addConditions` (dynamic dispatch), and the replay of the recorded calls against a query builder.
- Several `Model` accessors only read or write one field, or go through the unseen `Grid` class. This leaves out `setQueries`, `getPerPageName`, `getPageName`, `getSortName`, `setPageName`, `setSortName`, `setGrid`, `grid`, `filter`, `getConstraints`, `setConstraints`, `repository`, `getKeyName` and `allowPagination`.
- The request parameter names come from `Grid::makeName`, which is not part of this model. They are constants of the model.
- GridModel.Model.SetData: `stdObjToArray` (turning `stdClass` rows into arrays) is not modelled. The model has no objects.
- GridModel.Model.FilterQueryBy: a string or array argument that PHP considers callable (a function name, a `[class, method]` pair) is treated as names only.
- GridModel.Dedup: `Collection::unique` compares calls with PHP's loose `==` (`SORT_REGULAR`), under which `where('id', 1)` and `where('id', '1')`, `'01'` and `'1'`, or `null`, `false` and `0` are equal. The model compares them structurally, so it may keep a call PHP drops as a duplicate.
- GridModel.Model.GetQueries: inherits the structural comparison of `GridModel.Dedup` in place of loose `==`.
- GridModel.Model.RejectQuery: PHP asks `is_callable` first, so a name that is also a PHP function (`count`, `max`, `min`, `join`) is called on each call's array rather than matched. The model treats every string or list as names.
- GridModel.Model.FindQueryByMethod: PHP's loose `==` on method names is modelled as string equality. `in_array` in `with` likewise uses structural equality.
- Numeric-string array keys are not normalised to integer keys. Integer and string keys are kept apart.
- The select configuration is a map. It does not record the order of keys, so `array_merge`'s key order is not modelled.
- SelectPresenter.Select.BuildOptions: only the configuration effect of `loadRemoteOptions` is modelled. Its `ajaxOptions`/`values` variables and `addVariables` belong to an unseen parent. `Arrayable` options are not converted to arrays, because the model has no objects.
- `Select::ajax` and `Select::load` are left out. They build URLs with `admin_url` and variables through an unseen parent.
- SelectPresenter.Select.Model: the `RuntimeException` for a non-model class is the `ok == false` result. The `class_exists` check is a boolean input. The database lookup `find` is a parameter.
- FileField.File.GetValidator: it requires `fileNumLimit`, when set, to be an integer. PHP would compare a non-integer limit loosely with the count.
- FileField.File.GetValidator: `Validator::make`, the translated message that is recorded for too many files, and the field's own validator closure are left out. They are represented by the `TooManyFiles` and `CustomValidator` outcomes.
- FileField.File.Render: `setDefaultServer`, `setupPreviewOptions`, `JavaScript::format` and the parent's rendering are left out.
- `prepareInputValue`, `destroy`, `setElementName`, `defaultDirectory` and `formatFieldData` are left out. They depend on the request, storage and unseen traits.
- `Helper::array`, `objectUrl` and `trans` are parameters.
- SparklineLine.Line.ApplySwatch: the seven palette methods `primary` … `blue` are one method taking the palette entry's name. The source's chained return of `$this` is not modelled.
- The sparkline's parent class (its constructor options and the chart rendering) is not part of this model. The magic setters are modelled as writing `options[name]`.
- DumpWidget.Stored: objects given to `content` (`is_object`) are not modelled. A `Renderable` is represented by its rendered HTML.
- `json_decode` and `json_encode` are parameters. Nothing is proved about their behaviour.
- DumpWidget.Dump.DefaultStyle: `render`'s HTML markup and the attribute formatting of the unseen `Widget` parent are left out. Only the default `style` string is modelled.
- Translation and configuration reads (`__('admin.choose')`, `config(...)`) are constants or parameters.
