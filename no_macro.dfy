/**
 * The macro-free message compiler of packages/core/src/noMacro.ts: it turns a
 * tagged template or a descriptor object into a message descriptor, and builds
 * ICU plural/select/selectordinal fragments.
 *
 * The id hash `generateMessageId` is a parameter (`gen`), left uninterpreted;
 * the resolver `i18n._` is not modelled: the entry points that call it return
 * the descriptor they would hand to it.
 */
module NoMacro {
  import opened Results
  import opened JsValues
  import Text

  /** What the compiler throws. */
  datatype Error =
    | Thrown(message: string)   // `throw new Error(message)`
    | CannotConvertToObject     // the TypeError of `Object.entries(null | undefined)`
    | CannotReadProperty        // the TypeError of reading a property of null or undefined

  /** `generateMessageId(message, context?)` */
  type IdGenerator = (Value, Option<string>) -> string

  /**
   * A message descriptor. `message` is whatever the caller put there (the object
   * form does not check it); `values` is a dictionary looked up by name.
   */
  datatype MessageDescriptor = MessageDescriptor(
    id: string,
    message: Value,
    values: Option<Dict>,
    comment: Option<string>)

  /** The result of normalising a template: its message and the extracted values. */
  datatype Parsed = Parsed(message: string, extractedValues: Dict)

  datatype IcuType = Plural | Select | SelectOrdinal {
    function Name(): string {
      match this
      case Plural => "plural"
      case Select => "select"
      case SelectOrdinal => "selectordinal"
    }
  }

  const TemplateNotationMessage: string :=
    "noMacro functions only support object notation. Use ${{variableName}} instead of ${variable}"

  const DefineShapeMessage: string :=
    "defineMessageNoMacro requires either a template literal or an object with a 'message' property"

  function NotationMessage(functionName: string, example: string): string {
    functionName + " requires object notation, e.g., " + functionName + "(" + example + ", options)"
  }

  /**
   * The object-notation test shared by the validator and the template walk:
   * truthy, typeof "object", not an array, exactly one key.
   */
  predicate IsSingleKeyObject(v: Value): (b: bool)
    ensures b <==> v.Obj? && |v.entries| == 1
  {
    Truthy(v) && TypeOf(v) == "object" && !IsArray(v) && |ObjectKeys(v)| == 1
  }

  // ---------------------------------------------------------------------------
  // Object-notation validator

  /**
   * `validateAndExtractSingleKeyValue`. Once the value has exactly one key its
   * only entry exists, so the second `!entry` throw of the source cannot fire
   * and has no counterpart here.
   */
  function ValidateAndExtractSingleKeyValue(value: Value, functionName: string, example: string): (r: Result<Entry, Error>)
    ensures r.Success? <==> value.Obj? && |value.entries| == 1
    ensures r.Success? ==> r.value == value.entries[0]
    ensures r.Failure? ==> r.error == Thrown(NotationMessage(functionName, example))
  {
    if !IsSingleKeyObject(value) then
      Failure(Thrown(NotationMessage(functionName, example)))
    else
      Success(OwnEntries(value).value[0])
  }

  // ---------------------------------------------------------------------------
  // Descriptor factory

  /** `createMessageDescriptor`: `id || generateMessageId(message)`, the rest passed through. */
  function CreateMessageDescriptor(gen: IdGenerator, message: Value, values: Option<Dict>,
                                   id: Option<string>, comment: Option<string>): (d: MessageDescriptor)
    ensures id.Some? && id.value != "" ==> d.id == id.value
    ensures id.None? || id.value == "" ==> d.id == gen(message, None)
    ensures d.id == "" ==> d.id == gen(message, None)
    ensures d.message == message && d.values == values && d.comment == comment
  {
    MessageDescriptor(
      if id.Some? && Truthy(Str(id.value)) then id.value else gen(message, None),
      message, values, comment)
  }

  /**
   * `createAndTranslateMessage` up to the resolver call. `{ [key]: val }` is a
   * computed key, so it creates an own property whatever the key is.
   */
  function CreateAndTranslateMessage(gen: IdGenerator, message: string, key: string, val: Value): (d: MessageDescriptor)
    ensures d == CreateMessageDescriptor(gen, Str(message), Some(map[key := val]), None, None)
  {
    MessageDescriptor(gen(Str(message), None), Str(message), Some(map[key := val]), None)
  }

  // ---------------------------------------------------------------------------
  // ICU expression builder

  /** How `formatICUOptions` renders one option entry. */
  function RenderOption(e: Entry, supportOffset: bool): string {
    if supportOffset && e.key == "offset" then
      "offset:" + ToJsString(e.val)
    else if Text.StartsWith(e.key, "=") then
      e.key + " {" + ToJsString(e.val) + "}"
    else
      e.key + " {" + ToJsString(e.val) + "}"
  }

  function RenderedOptions(entries: seq<Entry>, supportOffset: bool): (parts: seq<string>)
    ensures |parts| == |entries|
  {
    seq(|entries|, i requires 0 <= i < |entries| => RenderOption(entries[i], supportOffset))
  }

  /** `formatICUOptions`: the rendered entries in enumeration order, joined by single spaces. */
  function FormatICUOptions(options: Value, supportOffset: bool): (r: Result<string, Error>)
    ensures r.Failure? <==> options.Undefined? || options.Null?
    ensures r.Failure? ==> r.error == CannotConvertToObject
  {
    match OwnEntries(options)
    case None => Failure(CannotConvertToObject)
    case Some(entries) => Success(Text.Join(RenderedOptions(entries, supportOffset), " "))
  }

  /** `icuType === "plural" || icuType === "selectordinal"` */
  function SupportsOffset(icuType: IcuType): (b: bool)
    ensures b <==> icuType != Select
  {
    icuType.Name() == "plural" || icuType.Name() == "selectordinal"
  }

  /**
   * `createICUExpression` up to the resolver call: validate the value, then
   * render `{key, icuType, options}` and wrap it in a one-value descriptor.
   */
  function CreateICUExpression(gen: IdGenerator, value: Value, options: Value, icuType: IcuType,
                               functionName: string, example: string): (r: Result<MessageDescriptor, Error>)
    ensures !(value.Obj? && |value.entries| == 1) ==>
              r == Failure(Thrown(NotationMessage(functionName, example)))
    ensures value.Obj? && |value.entries| == 1 ==>
              (r.Success? <==> !(options.Undefined? || options.Null?)) &&
              (r.Failure? ==> r.error == CannotConvertToObject)
    ensures r.Success? ==>
              var key := value.entries[0].key;
              var rendered := Text.Join(RenderedOptions(OwnEntries(options).value, icuType != Select), " ");
              && r.value.message == Str("{" + key + ", " + icuType.Name() + ", " + rendered + "}")
              && r.value.values == Some(map[key := value.entries[0].val])
              && r.value.id == gen(r.value.message, None)
              && r.value.comment == None
  {
    match ValidateAndExtractSingleKeyValue(value, functionName, example)
    case Failure(e) => Failure(e)
    case Success(entry) =>
      var supportOffset := SupportsOffset(icuType);
      match FormatICUOptions(options, supportOffset)
      case Failure(e) => Failure(e)
      case Success(formatOptions) =>
        var message := "{" + entry.key + ", " + icuType.Name() + ", " + formatOptions + "}";
        Success(CreateAndTranslateMessage(gen, message, entry.key, entry.val))
  }

  /** The head `{key, name, ` of a fragment, followed by the options and `}`. */
  lemma FragmentHead(key: string, name: string, options: string)
    ensures Text.StartsWith("{" + key + ", " + name + ", " + options + "}", "{" + key + ", " + name + ", ")
  {
    Text.StartsWithConcat("{" + key + ", " + name + ", ", options + "}");
    assert "{" + key + ", " + name + ", " + options + "}" == ("{" + key + ", " + name + ", ") + (options + "}");
  }

  /** `pluralNoMacro` up to the resolver call. */
  function PluralNoMacro(gen: IdGenerator, value: Value, options: Value): (r: Result<MessageDescriptor, Error>)
    ensures !(value.Obj? && |value.entries| == 1) ==>
              r == Failure(Thrown(NotationMessage("pluralNoMacro", "{ count }")))
    ensures r.Success? ==>
              r.value.message.Str? &&
              Text.StartsWith(r.value.message.s, "{" + value.entries[0].key + ", " + "plural" + ", ")
  {
    var r := CreateICUExpression(gen, value, options, Plural, "pluralNoMacro", "{ count }");
    if r.Success? then
      FragmentHead(value.entries[0].key, "plural", FormatICUOptions(options, true).value);
      r
    else r
  }

  /** `selectNoMacro` up to the resolver call. */
  function SelectNoMacro(gen: IdGenerator, value: Value, options: Value): (r: Result<MessageDescriptor, Error>)
    ensures !(value.Obj? && |value.entries| == 1) ==>
              r == Failure(Thrown(NotationMessage("selectNoMacro", "{ gender }")))
    ensures r.Success? ==>
              r.value.message.Str? &&
              Text.StartsWith(r.value.message.s, "{" + value.entries[0].key + ", " + "select" + ", ")
  {
    var r := CreateICUExpression(gen, value, options, Select, "selectNoMacro", "{ gender }");
    if r.Success? then
      FragmentHead(value.entries[0].key, "select", FormatICUOptions(options, false).value);
      r
    else r
  }

  /** `selectOrdinalNoMacro` up to the resolver call. */
  function SelectOrdinalNoMacro(gen: IdGenerator, value: Value, options: Value): (r: Result<MessageDescriptor, Error>)
    ensures !(value.Obj? && |value.entries| == 1) ==>
              r == Failure(Thrown(NotationMessage("selectOrdinalNoMacro", "{ position }")))
    ensures r.Success? ==>
              r.value.message.Str? &&
              Text.StartsWith(r.value.message.s, "{" + value.entries[0].key + ", " + "selectordinal" + ", ")
  {
    var r := CreateICUExpression(gen, value, options, SelectOrdinal, "selectOrdinalNoMacro", "{ position }");
    if r.Success? then
      FragmentHead(value.entries[0].key, "selectordinal", FormatICUOptions(options, true).value);
      r
    else r
  }

  // ---------------------------------------------------------------------------
  // Template normaliser

  /**
   * `extractedValues[key] = val` on a fresh `{}`: the key "__proto__" reaches
   * the prototype setter instead of creating an own property.
   */
  function AssignProperty(d: Dict, key: string, val: Value): Dict {
    if key == "__proto__" then d else d[key := val]
  }

  /** One pass of the loop of `parseTemplateValues`, at fragment `i`. */
  function ParseStep(p: Parsed, strings: seq<Value>, values: seq<Value>, i: nat): Result<Parsed, Error>
    requires i < |strings|
  {
    var message := p.message + ToJsString(strings[i]);
    if i < |values| then
      if IsSingleKeyObject(values[i]) then
        var entry := OwnEntries(values[i]).value[0];
        Success(Parsed(message + "{" + entry.key + "}", AssignProperty(p.extractedValues, entry.key, entry.val)))
      else
        Failure(Thrown(TemplateNotationMessage))
    else
      Success(Parsed(message, p.extractedValues))
  }

  /** The state of `parseTemplateValues` after its first `n` fragments, or what it threw. */
  function ParsePrefix(strings: seq<Value>, values: seq<Value>, n: nat): Result<Parsed, Error>
    requires n <= |strings|
    decreases n
  {
    if n == 0 then Success(Parsed("", map[]))
    else
      match ParsePrefix(strings, values, n - 1)
      case Failure(e) => Failure(e)
      case Success(p) => ParseStep(p, strings, values, n - 1)
  }

  /** What `parseTemplateValues(strings, values)` returns or throws. */
  function ParseTemplate(strings: seq<Value>, values: seq<Value>): Result<Parsed, Error> {
    ParsePrefix(strings, values, |strings|)
  }

  /** Once the walk has thrown, nothing later changes the outcome. */
  lemma {:induction false} ParseFailureIsFinal(strings: seq<Value>, values: seq<Value>, n: nat, m: nat)
    requires n <= m <= |strings|
    requires ParsePrefix(strings, values, n).Failure?
    ensures ParsePrefix(strings, values, m) == ParsePrefix(strings, values, n)
    decreases m
  {
    if n < m {
      ParseFailureIsFinal(strings, values, n, m - 1);
    }
  }

  /**
   * The walk throws exactly when one of the interpolations it reaches is not
   * single-key object notation, and then always with the same message.
   */
  lemma {:induction false} ParsePrefixThrowsIff(strings: seq<Value>, values: seq<Value>, n: nat)
    requires n <= |strings|
    ensures ParsePrefix(strings, values, n).Failure? <==>
              exists j :: 0 <= j < n && j < |values| && !IsSingleKeyObject(values[j])
    ensures ParsePrefix(strings, values, n).Failure? ==>
              ParsePrefix(strings, values, n).error == Thrown(TemplateNotationMessage)
  {
    if n > 0 {
      ParsePrefixThrowsIff(strings, values, n - 1);
    }
  }

  /** `parseTemplateValues`: the fragment loop, appending to `message` and assigning into `extractedValues`. */
  method ParseTemplateValues(strings: seq<Value>, values: seq<Value>) returns (r: Result<Parsed, Error>)
    ensures r == ParseTemplate(strings, values)
  {
    var message := "";
    var extractedValues: Dict := map[];
    var i := 0;
    while i < |strings|
      invariant 0 <= i <= |strings|
      invariant ParsePrefix(strings, values, i) == Success(Parsed(message, extractedValues))
    {
      message := message + ToJsString(strings[i]);
      if i < |values| {
        var value := values[i];
        if IsSingleKeyObject(value) {
          // the entry of a one-key object always exists, so the source's `if (entry)` always holds
          var entry := OwnEntries(value).value[0];
          message := message + "{" + entry.key + "}";
          extractedValues := AssignProperty(extractedValues, entry.key, entry.val);
        } else {
          ParseFailureIsFinal(strings, values, i + 1, |strings|);
          return Failure(Thrown(TemplateNotationMessage));
        }
      }
      i := i + 1;
    }
    return Success(Parsed(message, extractedValues));
  }

  // ---------------------------------------------------------------------------
  // Entry points

  /** `tNoMacro` up to the resolver call: the descriptor it hands to `i18n._`. */
  function TNoMacro(gen: IdGenerator, strings: seq<Value>, values: seq<Value>): (r: Result<MessageDescriptor, Error>)
    ensures r.Failure? <==> ParseTemplate(strings, values).Failure?
    ensures r.Failure? ==> r.error == Thrown(TemplateNotationMessage)
    ensures r.Success? ==>
              var p := ParseTemplate(strings, values).value;
              r.value == MessageDescriptor(gen(Str(p.message), None), Str(p.message), Some(p.extractedValues), None)
  {
    ParsePrefixThrowsIff(strings, values, |strings|);
    match ParseTemplate(strings, values)
    case Failure(e) => Failure(e)
    case Success(p) => Success(CreateMessageDescriptor(gen, Str(p.message), Some(p.extractedValues), None, None))
  }

  /** The first argument of a tagged-template call: an array whose first element is a string. */
  predicate IsTemplateStrings(arg: Value) {
    arg.Arr? && |arg.elems| > 0 && arg.elems[0].Str?
  }

  /** An object that has a `message` property. */
  predicate IsDescriptorObject(arg: Value) {
    arg.Obj? && HasOwnProperty(arg, "message")
  }

  /**
   * `v.constructor === Object` for an object: its prototype is `Object.prototype`
   * and no own `constructor` property shadows the inherited one (functions are
   * not values of this model, so an own `constructor` is never `Object`).
   */
  predicate IsPlainObject(v: Value) {
    v.Obj? && v.isPlain && !HasOwnProperty(v, "constructor")
  }

  /** `typeof x === "string" ? x : undefined` */
  function StringOrUndefined(v: Value): (r: Option<string>)
    ensures r.Some? <==> v.Str?
    ensures r.Some? ==> r.value == v.s
  {
    if TypeOf(v) == "string" then Some(v.s) else None
  }

  /**
   * The object branch of `defineMessageNoMacro`: read the descriptor's fields,
   * choose the id, keep the values only when they are a plain object and the
   * comment only when it is a string.
   */
  function DescriptorFromObject(gen: IdGenerator, arg: Value): (d: MessageDescriptor)
    ensures var message := Get(arg, "message");
            var providedId := Get(arg, "id");
            var context := Get(arg, "context");
            var given := Get(arg, "values");
            && d.message == message
            && (providedId.Str? && providedId.s != "" ==> d.id == providedId.s)
            && (!(providedId.Str? && providedId.s != "") ==>
                  var hashed := gen(message, if context.Str? then Some(context.s) else None);
                  d.id == if hashed != "" then hashed else gen(message, None))
            && (d.values.Some? <==> given.Obj? && given.isPlain && !HasOwnProperty(given, "constructor"))
            && (d.values.Some? ==> d.values.value == DictOf(given.entries))
            && (d.comment.Some? <==> Get(arg, "comment").Str?)
            && (d.comment.Some? ==> d.comment.value == Get(arg, "comment").s)
  {
    var message := Get(arg, "message");
    var providedId := Get(arg, "id");
    var context := Get(arg, "context");
    var messageValues := Get(arg, "values");
    var comment := Get(arg, "comment");
    var candidate := StringOrUndefined(providedId);
    var id := if candidate.Some? && Truthy(Str(candidate.value)) then candidate.value
              else gen(message, StringOrUndefined(context));
    var validatedValues :=
      if Truthy(messageValues) && TypeOf(messageValues) == "object" && !IsArray(messageValues)
         && IsPlainObject(messageValues)
      then Some(DictOf(messageValues.entries))
      else None;
    CreateMessageDescriptor(gen, message, validatedValues, Some(id), StringOrUndefined(comment))
  }

  /** `defineMessageNoMacro` (and `msgNoMacro`): route a template call or a descriptor object. */
  function DefineMessageNoMacro(gen: IdGenerator, arg: Value, values: seq<Value>): (r: Result<MessageDescriptor, Error>)
    ensures IsTemplateStrings(arg) ==> r == TNoMacro(gen, arg.elems, values)
    ensures !IsTemplateStrings(arg) && !IsDescriptorObject(arg) ==> r == Failure(Thrown(DefineShapeMessage))
    ensures IsDescriptorObject(arg) ==> r == Success(DescriptorFromObject(gen, arg))
  {
    if IsArray(arg) && TypeOf(ElementAt(arg, 0)) == "string" then
      match ParseTemplate(arg.elems, values)
      case Failure(e) => Failure(e)
      case Success(p) => Success(CreateMessageDescriptor(gen, Str(p.message), Some(p.extractedValues), None, None))
    else if TypeOf(arg) == "object" && arg != Null && !IsArray(arg) && HasOwnProperty(arg, "message") then
      Success(DescriptorFromObject(gen, arg))
    else
      Failure(Thrown(DefineShapeMessage))
  }

  /** `msgNoMacro` is the very same function as `defineMessageNoMacro`. */
  const MsgNoMacro: (IdGenerator, Value, seq<Value>) -> Result<MessageDescriptor, Error> := DefineMessageNoMacro
}
