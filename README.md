# noMacro: the macro-free message compiler of Lingui core

This project models `packages/core/src/noMacro.ts` of js-lingui: the functions
that build Lingui message descriptors at run time, without the compile-time
macros. The model covers:

- `tNoMacro` and `defineMessageNoMacro` (with its alias `msgNoMacro`). They turn a
  tagged template such as ``Hello ${{ name }}`` into the message `Hello {name}`
  and the values `{ name }`.
- `defineMessageNoMacro` also accepts a descriptor object `{ id, message, values,
  context, comment }` and normalises it into a descriptor.
- `pluralNoMacro`, `selectNoMacro` and `selectOrdinalNoMacro` build an ICU fragment
  `{key, plural, one {# book} other {# books}}` from a one-key value object and an
  options object.
- Interpolations must use object notation (`${{ name }}`). Anything else is
  rejected with the source's error messages.

The Dafny modules follow the structure of the source:

- `Results`: `Option` and `Result`.
- `Text`: `Array.prototype.join`, with lemmas that locate every part and
  separator inside the joined text.
- `JsValues`: the JavaScript values the compiler sees, and the few pieces of the
  language it relies on: truthiness, `typeof`, `Array.isArray`, `Object.entries`,
  own-property reads, and `String(v)`.
- `NoMacro`: the compiler itself, function by function.
- `parseTemplateValues` is a `method` with the source's loop, proved equal to the
  functional walk `ParseTemplate`. That function is built from `ParseStep`, one pass
  of the loop, and `ParsePrefix`, the state after the first `n` fragments.
- `TemplateProperties`, `IcuProperties` and `DispatchProperties` prove what the
  three parts promise, including the test cases of `noMacro.test.ts` as worked
  examples.
- `CallShapes`: what `tNoMacro` does when its first argument is not a template,
  and the descriptor form its tests expect (see Findings).

`generateMessageId` is the parameter `gen: (Value, Option<string>) -> string`. It
is left uninterpreted, so every statement about ids holds for any id generator.
The resolver `i18n._` is not modelled. `tNoMacro`, `createAndTranslateMessage` and
the ICU wrappers return the descriptor they would hand to it.

## Model

| member | source | states |
|---|---|---|
| NoMacro.IsSingleKeyObject | packages/core/src/noMacro.ts:40-45 | the object-notation test (truthy, typeof "object", not an array, one key) holds exactly for an object with one own entry |
| NoMacro.ValidateAndExtractSingleKeyValue | packages/core/src/noMacro.ts:35-59 | succeeds exactly on a one-key object and returns its only entry; otherwise throws `<fn> requires object notation, e.g., <fn>(<example>, options)` |
| NoMacro.CreateMessageDescriptor | packages/core/src/noMacro.ts:75-87 | a non-empty provided id is kept; a missing or empty id is replaced by the id generated from the message alone; message, values and comment pass through |
| NoMacro.CreateAndTranslateMessage | packages/core/src/noMacro.ts:61-73 | the descriptor handed to the resolver is the factory's descriptor with a generated id and the single value `{ [key]: val }` |
| NoMacro.RenderedOptions | packages/core/src/noMacro.ts:92-104 | one rendered option per entry of `Object.entries(options)` |
| NoMacro.FormatICUOptions | packages/core/src/noMacro.ts:89-106 | throws (the TypeError of `Object.entries`) exactly for null and undefined options |
| NoMacro.SupportsOffset | packages/core/src/noMacro.ts:121 | offsets are supported exactly for plural and selectordinal, not for select |
| NoMacro.CreateICUExpression | packages/core/src/noMacro.ts:108-126 | a value that is not one-key object notation is rejected with the helper's own message, whatever the options; otherwise the call fails exactly when the options are null or undefined; on success the message is `{key, type, options}`, the only value is `key := val`, the id is generated from the message, and there is no comment |
| NoMacro.FragmentHead | packages/core/src/noMacro.ts:124 | the fragment text starts with `{key, type, ` |
| NoMacro.PluralNoMacro | packages/core/src/noMacro.ts:128-139 | positional use throws the pluralNoMacro message with example `{ count }`; a success is a fragment starting with `{key, plural, ` |
| NoMacro.SelectNoMacro | packages/core/src/noMacro.ts:141-152 | positional use throws the selectNoMacro message with example `{ gender }`; a success is a fragment starting with `{key, select, ` |
| NoMacro.SelectOrdinalNoMacro | packages/core/src/noMacro.ts:154-165 | positional use throws the selectOrdinalNoMacro message with example `{ position }`; a success is a fragment starting with `{key, selectordinal, ` |
| NoMacro.ParseFailureIsFinal | packages/core/src/noMacro.ts:196-198 | once the template walk has thrown, later fragments do not change the outcome |
| NoMacro.ParsePrefixThrowsIff | packages/core/src/noMacro.ts:177-200 | the walk over the first n fragments throws exactly when an interpolation it reaches is not one-key object notation, and then always with the object-notation message |
| NoMacro.ParseTemplateValues | packages/core/src/noMacro.ts:167-204 | the imperative loop returns, or throws, exactly what the functional walk ParseTemplate gives |
| NoMacro.TNoMacro | packages/core/src/noMacro.ts:218-225 | throws exactly when the template walk throws, with the object-notation message; otherwise the descriptor has the normalised message, the extracted values, the id generated from the message, and no comment |
| NoMacro.StringOrUndefined | packages/core/src/noMacro.ts:283-287 | `typeof x === "string" ? x : undefined` keeps exactly the strings |
| NoMacro.DescriptorFromObject | packages/core/src/noMacro.ts:275-302 | the descriptor keeps the object's message; a non-empty string id is kept, otherwise the id is generated with the string context, falling back to the message alone when that gives ""; values are kept, as the object's own properties, exactly when `values.constructor === Object` (a plain object with no own `constructor`), and comment exactly when it is a string |
| NoMacro.DefineMessageNoMacro | packages/core/src/noMacro.ts:252-308 | an array whose first element is a string behaves as tNoMacro; an object with `message` gives the descriptor read from it; every other argument throws the shape error |
| JsValues.OwnEntries | packages/core/src/noMacro.ts:93 | `Object.entries` throws exactly on null and undefined, and gives an object's own entries |
| JsValues.DictOfKeys | packages/core/src/noMacro.ts:273-280 | an object has an own property of a name exactly when some entry carries that name |
| JsValues.DictOfDistinct | packages/core/src/noMacro.ts:289-295 | when the names are distinct, every own property reads back the value its entry holds |
| TemplateProperties.PrefixMessage | packages/core/src/noMacro.ts:177-192 | after n fragments the message is the first n pieces (fragment, then `{key}` when interpolation i exists) concatenated |
| TemplateProperties.PrefixKeys | packages/core/src/noMacro.ts:193 | after n fragments the recorded names are exactly those interpolated so far, except `__proto__` |
| TemplateProperties.PrefixLastValue | packages/core/src/noMacro.ts:193 | after n fragments a name holds the value of its last occurrence so far |
| TemplateProperties.NormalisedMessageShape | packages/core/src/noMacro.ts:177-201 | the message is fragment 0, `{k0}`, fragment 1, `{k1}`, … in order, every interpolation contributing its placeholder even when its name repeats |
| TemplateProperties.ExtractedValuesAreLastOccurrences | packages/core/src/noMacro.ts:190-194 | the extracted values hold exactly the interpolated names (bar `__proto__`), each bound to its last occurrence among the interpolations reached |
| TemplateProperties.RejectsAnyNonObjectNotation | packages/core/src/noMacro.ts:183-199 | the walk throws exactly when some reached interpolation is falsy, not an object, an array, or has other than one key, and then with the object-notation message |
| TemplateProperties.NoInterpolations | packages/core/src/noMacro.test.ts:20-23 | a template without interpolations gives the fragments concatenated and no values |
| TemplateProperties.ValuesPastLastFragmentIgnored | packages/core/src/noMacro.ts:177-180 | the loop runs over the fragments only, so values past the last fragment are never examined |
| TemplateProperties.BareValueRejected | packages/core/src/noMacro.test.ts:474-481 | a resolved string interpolated bare (not wrapped in an object) is rejected |
| TemplateProperties.HelloNameExample | packages/core/src/noMacro.test.ts:25-29 | ``Hello ${{ name }}`` gives `Hello {name}` with `name` bound |
| TemplateProperties.TwoNamesExample | packages/core/src/noMacro.test.ts:31-36 | ``Hello ${{ firstName }} ${{ lastName }}`` gives `Hello {firstName} {lastName}` with both names bound |
| IcuProperties.OptionsRenderedInOrder | packages/core/src/noMacro.ts:92-105 | entry i renders at its offset in the formatted options, and exactly one space separates it from entry i + 1 |
| IcuProperties.FormattedOptionsLength | packages/core/src/noMacro.ts:105 | the formatted options are exactly the rendered entries plus one space between neighbours, with nothing else |
| IcuProperties.OffsetEntryRendering | packages/core/src/noMacro.ts:95-97 | `offset` renders as `offset:v` when offsets are supported, and as an ordinary `offset {v}` entry otherwise |
| IcuProperties.OptionInsideFragment | packages/core/src/noMacro.ts:121-124 | inside the fragment, option i appears right after `{key, type, ` at its place among the options, rendered with offsets exactly when the type is not select |
| IcuProperties.OffsetFlagOnlyAffectsOffset | packages/core/src/noMacro.ts:95-103 | without an `offset` key, plural and select render their options identically |
| IcuProperties.ExactMatchKeysRenderLikeCategories | packages/core/src/noMacro.ts:99-103 | exact-match keys (`=N`) render as `key {text}`, like category keys, for every fragment type |
| IcuProperties.CategoryRendering | packages/core/src/noMacro.ts:99-103 | every key other than `offset` renders as `key {text}`, whether offsets are supported or not |
| IcuProperties.ValueCheckedBeforeOptions | packages/core/src/noMacro.ts:115-122 | the value is validated before the options are read: positional use gets the helper's message even when the options are unusable |
| IcuProperties.NotationMessagePrefix | packages/core/src/noMacro.ts:46-48 | every notation error starts with the helper's name followed by ` requires object notation` |
| IcuProperties.PluralRejectsPositionalCount | packages/core/src/noMacro.test.ts:338-346 | `pluralNoMacro(count, options)` fails with an error starting `pluralNoMacro requires object notation` |
| IcuProperties.PluralWithOffsetExample | packages/core/src/noMacro.test.ts:309-321 | `{ offset: 1, "=0": …, one: …, other: … }` gives `{count, plural, offset:1 =0 {No books} one {# book} other {# books}}` with `count` bound |
| IcuProperties.SelectExample | packages/core/src/noMacro.test.ts:350-361 | the basic select gives `{gender, select, male {He is here} female {She is here} other {They are here}}` with `gender` bound |
| DispatchProperties.DispatchedIdIsSettled | packages/core/src/noMacro.ts:282-287 | every returned descriptor has a non-empty id or the id generated from its message alone |
| DispatchProperties.DescriptorObjectFields | packages/core/src/noMacro.ts:275-279 | the fields of `{ id, message, values, comment }` read back as written, and such an object is a descriptor object, not a template |
| DispatchProperties.DescriptorRoundTrip | packages/core/src/noMacro.ts:269-302 | a returned descriptor whose values have no `constructor` name, passed back in as the object `{ id, message, values, comment }`, comes back unchanged |
| DispatchProperties.ConstructorValuesDropped | packages/core/src/noMacro.ts:289-295 | when the returned values do have a `constructor` name, passing the descriptor back in drops the values and keeps everything else |
| DispatchProperties.ConstructorValuesExample | packages/core/src/noMacro.ts:289-295 | ``${{ constructor: "x" }}`` gives values `{ constructor: "x" }`, which a second pass drops |
| DispatchProperties.InvalidArgumentsRejected | packages/core/src/noMacro.test.ts:271-290 | `null`, `undefined`, a string, a number, `{}` and `{ id: "test" }` throw the shape error |
| DispatchProperties.ArrayWithoutStringHeadRejected | packages/core/src/noMacro.ts:264 | an array that is empty or whose first element is not a string is not a template call, and gets the shape error |
| DispatchProperties.HelloTemplateExample | packages/core/src/noMacro.test.ts:262-268 | the template ``Hello`` gives message `Hello`, empty values and the generated id |
| DispatchProperties.ProvidedIdExample | packages/core/src/noMacro.test.ts:179-192 | `{ id: "custom.id", message, values }` keeps the id, the message and the values |
| DispatchProperties.ContextChangesGeneratedId | packages/core/src/noMacro.test.ts:207-220 | when the generator tells the context apart, `{ message, context }` and `{ message }` get different ids and agree on the rest |
| DispatchProperties.MsgNoMacroIsDefineMessageNoMacro | packages/core/src/noMacro.ts:314 | `msgNoMacro` is `defineMessageNoMacro` |
| CallShapes.FragmentsRead | packages/core/src/noMacro.ts:177-178 | reading `strings.length` of null or undefined throws; an array gives its elements, a string its characters, an object without a numeric `length` nothing |
| CallShapes.TNoMacroAsWritten | packages/core/src/noMacro.ts:218-225 | for an array the call is the template form; for null or undefined it throws the TypeError of reading `length` |
| CallShapes.DescriptorObjectLosesMessage | packages/core/src/noMacro.test.ts:87-94 | as written, `tNoMacro({ message: "Hello {name}", values: { name } })` builds a descriptor with an empty message and no values |
| CallShapes.StringArgumentBecomesMessage | packages/core/src/noMacro.test.ts:129-131 | as written, `tNoMacro(s)` for a string `s` does not throw: `s` becomes the message |
| CallShapes.NullArgumentFailsOnLength | packages/core/src/noMacro.test.ts:123-125 | as written, `tNoMacro(null)` throws the TypeError of reading `length`, not the `tNoMacro requires …` error |
| CallShapes.TNoMacroWithDescriptors | packages/core/src/noMacro.test.ts:87-141 | with the descriptor form: templates behave as written, an object with `message` keeps that message, and everything else throws `tNoMacro requires either a template literal or an object with a 'message' property` |
| CallShapes.WithDescriptorsMatchesDefine | packages/core/src/noMacro.ts:264-307 | the descriptor form accepts the calls `defineMessageNoMacro` accepts and builds the same descriptor; where that one throws the shape error, this one throws its own |
| CallShapes.DescriptorObjectKeepsMessage | packages/core/src/noMacro.test.ts:87-94 | with the descriptor form, `{ message: "Hello {name}", values: { name } }` keeps its message and values |
| CallShapes.WithDescriptorsRejectsInvalid | packages/core/src/noMacro.test.ts:122-141 | with the descriptor form, `null`, `undefined`, a string, a number, `{}` and `{ id: "test" }` throw the `tNoMacro requires …` error |

`RenderOption`, `ParseStep`, `ParsePrefix`, `ParseTemplate`, `AssignProperty`,
`NotationMessage` (the error text of noMacro.ts:46-48), `IsTemplateStrings` (the
test of noMacro.ts:264), `IsDescriptorObject` (the test of noMacro.ts:269-273) and
`IsPlainObject` (the test of noMacro.ts:290-293) are the definitions these rows
speak about. `MsgNoMacro` is a constant bound to
the very function `DefineMessageNoMacro`.

## Left out

- `i18n._` (the resolver) is not modelled. The entry points that call it return the descriptor they would pass, so translation, catalog lookup and the resolved strings of the tests (`"Hello John"`, `"2 books"`) are outside the model.
- `generateMessageId` is an uninterpreted parameter. Concrete ids such as `"OVaF9k"` are not reproduced, and the context test assumes only that the generator tells the two inputs apart.
- NoMacro.TNoMacro: takes the template form only, as `noMacro.ts:218-225` does. What the code does with other first arguments is modelled by CallShapes.TNoMacroAsWritten, and the descriptor form the tests expect by CallShapes.TNoMacroWithDescriptors (see Findings).
- CallShapes.FragmentsRead: an object whose `length` is not a number is read as having no fragments. JavaScript would coerce such a `length` (`"2"`, `true`) to a number.
- DispatchProperties.DescriptorRoundTrip: it also fails for template values whose prototype was replaced by interpolating `__proto__` (``${{ ["__proto__"]: [] }}``): their `constructor` is then `Array` and a second pass drops them. AssignProperty ignores a `__proto__` assignment, so the model does not record the replaced prototype.
- Offset placement: `offset` is rendered where `Object.entries` lists it, however often it occurs among the entries. Nothing checks that it comes first or only once, and the model proves exactly that entry-order behaviour.
- The TypeScript option types (`PluralOptions` and so on) are compile-time only. The model accepts any value, as the JavaScript code does.
- `"message" in arg` is modelled as an own-property test. Inherited properties, getters and the prototype chain of descriptor objects and option objects are not modelled.
- Numbers are integers. `String(v)` of fractions, NaN and infinities is not modelled. Symbols, functions and bigints are not modelled.
- JsValues.ToJsString: every object renders as `[object Object]`. `${v}` in the option text (noMacro.ts:96-103) differs for a Date, an Error, or an object with its own `toString`.
- Objects are values. A descriptor's `values` is the dictionary of the object's own entries, not the same object by identity, so aliasing is not captured.
- The order of `Object.entries` (integer-like keys first) is taken as the order of the entry list.
- Strings are sequences of characters, not UTF-16 code units.
- NoMacro.ValidateAndExtractSingleKeyValue: the second `!entry` throw of the source is not modelled. It cannot fire once the object has exactly one key.
- NoMacro.PluralNoMacro, NoMacro.SelectNoMacro, NoMacro.SelectOrdinalNoMacro: their own contracts state only the fragment head. The whole fragment is stated by NoMacro.CreateICUExpression, which they call unchanged.

## Findings

| source | as written | input that shows it | evidently intended | confidence | as-written member | corrected member |
|---|---|---|---|---|---|---|
| packages/core/src/noMacro.ts:218-225 | `tNoMacro` passes its first argument straight to the template walk, whatever it is | `tNoMacro({ message: "Hello {name}", values: { name } })` builds an empty message; `tNoMacro("string")` returns a descriptor; `tNoMacro(null)` throws a TypeError (noMacro.test.ts:87-141 expects otherwise) | route descriptor objects as `defineMessageNoMacro` does, and reject anything else with `tNoMacro requires either a template literal or an object with a 'message' property` | high; not executed | CallShapes.TNoMacroAsWritten, CallShapes.DescriptorObjectLosesMessage, CallShapes.StringArgumentBecomesMessage, CallShapes.NullArgumentFailsOnLength | CallShapes.TNoMacroWithDescriptors, CallShapes.WithDescriptorsMatchesDefine, CallShapes.DescriptorObjectKeepsMessage, CallShapes.WithDescriptorsRejectsInvalid |
