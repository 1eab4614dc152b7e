/**
 * What `defineMessageNoMacro` (and its alias `msgNoMacro`) promises: the two
 * call shapes it accepts, the error for everything else, how the id is chosen,
 * and that a descriptor it returned, passed back in as an object, comes back
 * unchanged.
 */
module DispatchProperties {
  import opened Results
  import opened JsValues
  import opened NoMacro
  import TemplateProperties

  /** Every descriptor the dispatcher returns has a non-empty id or the id generated from its message alone. */
  lemma DispatchedIdIsSettled(gen: IdGenerator, arg: Value, values: seq<Value>)
    requires DefineMessageNoMacro(gen, arg, values).Success?
    ensures var d := DefineMessageNoMacro(gen, arg, values).value;
            d.id == "" ==> d.id == gen(d.message, None)
  {
    if IsTemplateStrings(arg) {
      var p := ParseTemplate(arg.elems, values).value;
      assert DefineMessageNoMacro(gen, arg, values).value.message == Str(p.message);
    }
  }

  /**
   * The descriptor `{ id, message, values, comment }` as a JS object, with
   * `undefined` for the fields the descriptor leaves out; `valueEntries` lists
   * the entries of the values object.
   */
  function DescriptorObject(d: MessageDescriptor, valueEntries: seq<Entry>): Value {
    Obj([Entry("id", Str(d.id)),
         Entry("message", d.message),
         Entry("values", if d.values.Some? then Obj(valueEntries, true) else Undefined),
         Entry("comment", if d.comment.Some? then Str(d.comment.value) else Undefined)], true)
  }

  /** Reading the fields back out of DescriptorObject. */
  lemma DescriptorObjectFields(d: MessageDescriptor, valueEntries: seq<Entry>)
    ensures var o := DescriptorObject(d, valueEntries);
            && IsDescriptorObject(o) && !IsTemplateStrings(o)
            && Get(o, "id") == Str(d.id)
            && Get(o, "message") == d.message
            && Get(o, "context") == Undefined
            && Get(o, "values") == (if d.values.Some? then Obj(valueEntries, true) else Undefined)
            && Get(o, "comment") == (if d.comment.Some? then Str(d.comment.value) else Undefined)
  {
    var o := DescriptorObject(d, valueEntries);
    var es := o.entries;
    assert "comment" != "message" by { assert "comment"[0] != "message"[0]; }
    assert "comment" != "context" by { assert "comment"[3] != "context"[3]; }
    assert "values" != "context" && "message" != "context" && "id" != "context";
    assert DictOf(es[..0]) == map[];
    assert es[..1][..0] == es[..0];
    assert es[..2][..1] == es[..1];
    assert es[..3][..2] == es[..2];
    assert es[..3] == es[..4][..3];
    assert DictOf(es[..1]) == map["id" := Str(d.id)];
    assert DictOf(es[..2]) == DictOf(es[..1])["message" := d.message];
    assert DictOf(es[..3]) == DictOf(es[..2])["values" := es[2].val];
    assert es == es[..4];
    assert DictOf(es) == DictOf(es[..3])["comment" := es[3].val];
  }

  /**
   * Idempotence: a descriptor the dispatcher returned, passed back in as the
   * object `{ id, message, values, comment }`, yields the same descriptor,
   * provided its values have no `constructor` name (see ConstructorValuesDropped).
   */
  lemma DescriptorRoundTrip(gen: IdGenerator, arg: Value, values: seq<Value>, valueEntries: seq<Entry>)
    requires DefineMessageNoMacro(gen, arg, values).Success?
    requires var d := DefineMessageNoMacro(gen, arg, values).value;
             d.values.Some? ==> DictOf(valueEntries) == d.values.value && "constructor" !in d.values.value
    ensures var d := DefineMessageNoMacro(gen, arg, values).value;
            DefineMessageNoMacro(gen, DescriptorObject(d, valueEntries), []) == Success(d)
  {
    var d := DefineMessageNoMacro(gen, arg, values).value;
    DispatchedIdIsSettled(gen, arg, values);
    DescriptorObjectFields(d, valueEntries);
    var r := DefineMessageNoMacro(gen, DescriptorObject(d, valueEntries), []);
    assert r.value.id == d.id;
    assert r.value == d;
  }

  /**
   * Values that carry an own `constructor` (``${{ constructor: "x" }}``) fail the
   * `constructor === Object` test when passed back in, so the returned
   * descriptor drops them and keeps everything else.
   */
  lemma ConstructorValuesDropped(gen: IdGenerator, arg: Value, values: seq<Value>, valueEntries: seq<Entry>)
    requires DefineMessageNoMacro(gen, arg, values).Success?
    requires var d := DefineMessageNoMacro(gen, arg, values).value;
             d.values.Some? && DictOf(valueEntries) == d.values.value && "constructor" in d.values.value
    ensures var d := DefineMessageNoMacro(gen, arg, values).value;
            DefineMessageNoMacro(gen, DescriptorObject(d, valueEntries), []) == Success(d.(values := None))
  {
    var d := DefineMessageNoMacro(gen, arg, values).value;
    DispatchedIdIsSettled(gen, arg, values);
    DescriptorObjectFields(d, valueEntries);
    var r := DefineMessageNoMacro(gen, DescriptorObject(d, valueEntries), []);
    assert HasOwnProperty(Obj(valueEntries, true), "constructor");
    assert r.value.id == d.id;
    assert r.value == d.(values := None);
  }

  /** ``defineMessageNoMacro`${{ constructor: "x" }}` `` keeps the value, which a second pass then drops. */
  lemma ConstructorValuesExample(gen: IdGenerator)
    ensures var d := DefineMessageNoMacro(gen, Arr([Str(""), Str("")]), [Obj([Entry("constructor", Str("x"))], true)]);
            && d.Success?
            && d.value.values == Some(map["constructor" := Str("x")])
            && DefineMessageNoMacro(gen, DescriptorObject(d.value, [Entry("constructor", Str("x"))]), [])
               == Success(d.value.(values := None))
  {
    var strings, vs := [Str(""), Str("")], [Obj([Entry("constructor", Str("x"))], true)];
    assert "constructor" != "__proto__";
    assert OwnEntries(vs[0]).value[0].key == "constructor";
    assert ToJsString(strings[0]) == "" && ToJsString(strings[1]) == "";
    assert "" + "" + "{" + "constructor" + "}" == "{constructor}";
    assert "{constructor}" + "" == "{constructor}";
    assert AssignProperty(map[], "constructor", Str("x")) == map["constructor" := Str("x")];
    assert ParsePrefix(strings, vs, 0) == Success(Parsed("", map[]));
    assert ParsePrefix(strings, vs, 1) == Success(Parsed("{constructor}", map["constructor" := Str("x")]));
    assert ParsePrefix(strings, vs, 2) == Success(Parsed("{constructor}", map["constructor" := Str("x")]));
    var es := [Entry("constructor", Str("x"))];
    assert es[..0] == [];
    assert DictOf(es) == map["constructor" := Str("x")];
    ConstructorValuesDropped(gen, Arr(strings), vs, es);
  }

  /** The calls the dispatcher refuses: `null`, `undefined`, a string, a number, `{}` and `{ id: "test" }`. */
  lemma InvalidArgumentsRejected(gen: IdGenerator)
    ensures DefineMessageNoMacro(gen, Null, []) == Failure(Thrown(DefineShapeMessage))
    ensures DefineMessageNoMacro(gen, Undefined, []) == Failure(Thrown(DefineShapeMessage))
    ensures DefineMessageNoMacro(gen, Str("string"), []) == Failure(Thrown(DefineShapeMessage))
    ensures DefineMessageNoMacro(gen, Num(42), []) == Failure(Thrown(DefineShapeMessage))
    ensures DefineMessageNoMacro(gen, Obj([], true), []) == Failure(Thrown(DefineShapeMessage))
    ensures DefineMessageNoMacro(gen, Obj([Entry("id", Str("test"))], true), []) == Failure(Thrown(DefineShapeMessage))
  {
    var es := [Entry("id", Str("test"))];
    assert es[..0] == [];
    assert DictOf(es) == map["id" := Str("test")];
    assert "id" != "message";
  }

  /** An array whose first element is not a string is not a template call and is refused. */
  lemma ArrayWithoutStringHeadRejected(gen: IdGenerator, elems: seq<Value>, values: seq<Value>)
    requires |elems| == 0 || !elems[0].Str?
    ensures DefineMessageNoMacro(gen, Arr(elems), values) == Failure(Thrown(DefineShapeMessage))
  {
  }

  /** `defineMessageNoMacro\`Hello\`` gives message "Hello", an empty values object and no comment. */
  lemma HelloTemplateExample(gen: IdGenerator)
    ensures DefineMessageNoMacro(gen, Arr([Str("Hello")]), [])
            == Success(MessageDescriptor(gen(Str("Hello"), None), Str("Hello"), Some(map[]), None))
  {
    TemplateProperties.NoInterpolations([Str("Hello")]);
    assert TemplateProperties.Fragments([Str("Hello")]) == ["Hello"];
  }

  /**
   * `defineMessageNoMacro({ id: "custom.id", message: "Hello {name}", values: { name: "John" } })`
   * keeps the id, the message and the values as given.
   */
  lemma ProvidedIdExample(gen: IdGenerator)
    ensures var arg := Obj([Entry("id", Str("custom.id")), Entry("message", Str("Hello {name}")),
                            Entry("values", Obj([Entry("name", Str("John"))], true))], true);
            DefineMessageNoMacro(gen, arg, [])
            == Success(MessageDescriptor("custom.id", Str("Hello {name}"), Some(map["name" := Str("John")]), None))
  {
    var es := [Entry("id", Str("custom.id")), Entry("message", Str("Hello {name}")),
               Entry("values", Obj([Entry("name", Str("John"))], true))];
    var vs := [Entry("name", Str("John"))];
    assert es[..1][..0] == [] && es[..2][..1] == es[..1] && es[..3] == es;
    assert vs[..0] == [];
    assert DictOf(vs) == map["name" := Str("John")];
    assert "message" != "values" && "id" != "values" && "id" != "message";
    assert "comment" != "message" by { assert "comment"[0] != "message"[0]; }
    assert "values" != "context" && "message" != "context" && "id" != "context";
    assert DictOf(es) == map["id" := Str("custom.id"), "message" := Str("Hello {name}"), "values" := es[2].val];
  }

  /**
   * `{ message, context }` against `{ message }`: when the generator tells the
   * context apart, the two descriptors get different ids and agree on the rest.
   */
  lemma ContextChangesGeneratedId(gen: IdGenerator, message: Value, context: string)
    requires gen(message, Some(context)) != ""
    requires gen(message, Some(context)) != gen(message, None)
    ensures var withContext := DefineMessageNoMacro(gen, Obj([Entry("message", message), Entry("context", Str(context))], true), []);
            var without := DefineMessageNoMacro(gen, Obj([Entry("message", message)], true), []);
            && withContext.Success? && without.Success?
            && withContext.value.id == gen(message, Some(context))
            && without.value.id == gen(message, None)
            && withContext.value.id != without.value.id
            && withContext.value.message == without.value.message == message
            && withContext.value.values == without.value.values == None
  {
    MessageOnlyFields(message);
    MessageAndContextFields(message, context);
  }

  /** Reading the fields of `{ message }`. */
  lemma MessageOnlyFields(message: Value)
    ensures var o := Obj([Entry("message", message)], true);
            && IsDescriptorObject(o) && !IsTemplateStrings(o)
            && Get(o, "message") == message
            && Get(o, "id") == Get(o, "context") == Get(o, "values") == Get(o, "comment") == Undefined
  {
    var es := [Entry("message", message)];
    assert es[..0] == [];
    assert DictOf(es) == map["message" := message];
    assert "message" != "context" && "id" != "message" && "values" != "message";
    assert "comment" != "message" by { assert "comment"[0] != "message"[0]; }
  }

  /** Reading the fields of `{ message, context }`. */
  lemma MessageAndContextFields(message: Value, context: string)
    ensures var o := Obj([Entry("message", message), Entry("context", Str(context))], true);
            && IsDescriptorObject(o) && !IsTemplateStrings(o)
            && Get(o, "message") == message
            && Get(o, "context") == Str(context)
            && Get(o, "id") == Get(o, "values") == Get(o, "comment") == Undefined
  {
    var es := [Entry("message", message), Entry("context", Str(context))];
    assert es[..1][..0] == [] && es[..2] == es;
    assert "message" != "context" && "id" != "context" && "values" != "context";
    assert "id" != "message" && "values" != "message";
    assert "comment" != "context" by { assert "comment"[3] != "context"[3]; }
    assert "comment" != "message" by { assert "comment"[0] != "message"[0]; }
    assert DictOf(es[..1]) == map["message" := message];
    assert DictOf(es) == DictOf(es[..1])["context" := Str(context)];
  }

  /** `msgNoMacro` behaves as `defineMessageNoMacro` on every call. */
  lemma MsgNoMacroIsDefineMessageNoMacro(gen: IdGenerator, arg: Value, values: seq<Value>)
    ensures MsgNoMacro(gen, arg, values) == DefineMessageNoMacro(gen, arg, values)
  {
  }
}
