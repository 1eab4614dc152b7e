/**
 * `tNoMacro` called with something other than a template. The function only
 * has the template signature: its first argument goes straight into
 * `parseTemplateValues`, which reads `strings.length` and `strings[i]`. A
 * descriptor object therefore yields an empty message, a string becomes the
 * message itself, and `null` fails on reading `length`. The corrected form
 * routes descriptor objects the way `defineMessageNoMacro` does and rejects
 * everything else with its own message.
 */
module CallShapes {
  import opened Results
  import opened JsValues
  import opened NoMacro
  import Text
  import TemplateProperties

  const TNoMacroShapeMessage: string :=
    "tNoMacro requires either a template literal or an object with a 'message' property"

  /**
   * What the loop of `parseTemplateValues` reads as `strings[0]`,
   * `strings[1]`, ... up to `strings.length`, or the TypeError of reading
   * `length` of null or undefined.
   */
  function FragmentsRead(arg: Value): (r: Result<seq<Value>, Error>)
    ensures r.Failure? <==> arg.Undefined? || arg.Null?
    ensures r.Failure? ==> r.error == CannotReadProperty
    ensures arg.Arr? ==> r == Success(arg.elems)
    ensures arg.Str? ==> r.Success? && |r.value| == |arg.s| &&
                         forall i :: 0 <= i < |arg.s| ==> r.value[i] == Str([arg.s[i]])
    ensures arg.Obj? && !Get(arg, "length").Num? ==> r == Success([])
  {
    match arg
    case Undefined => Failure(CannotReadProperty)
    case Null => Failure(CannotReadProperty)
    case Bool(_) => Success([])
    case Num(_) => Success([])
    case Str(s) => Success(seq(|s|, i requires 0 <= i < |s| => Str([s[i]])))
    case Arr(elems) => Success(elems)
    case Obj(_, _) =>
      var length := Get(arg, "length");
      if length.Num? && length.n > 0 then
        Success(seq(length.n, i requires 0 <= i < length.n => Get(arg, NatToString(i))))
      else
        Success([])
  }

  /** `tNoMacro(arg, ...values)` as written, for any first argument, up to the resolver call. */
  function TNoMacroAsWritten(gen: IdGenerator, arg: Value, values: seq<Value>): (r: Result<MessageDescriptor, Error>)
    ensures arg.Arr? ==> r == TNoMacro(gen, arg.elems, values)
    ensures arg.Undefined? || arg.Null? ==> r == Failure(CannotReadProperty)
  {
    match FragmentsRead(arg)
    case Failure(e) => Failure(e)
    case Success(strings) => TNoMacro(gen, strings, values)
  }

  /**
   * `tNoMacro({ message: "Hello {name}", values: { name } })`: the object has no
   * `length`, the loop never runs, and the descriptor's message is empty
   * instead of "Hello {name}".
   */
  lemma DescriptorObjectLosesMessage(gen: IdGenerator, name: Value)
    ensures var arg := Obj([Entry("message", Str("Hello {name}")), Entry("values", Obj([Entry("name", name)], true))], true);
            TNoMacroAsWritten(gen, arg, [])
            == Success(MessageDescriptor(gen(Str(""), None), Str(""), Some(map[]), None))
  {
    var es := [Entry("message", Str("Hello {name}")), Entry("values", Obj([Entry("name", name)], true))];
    assert es[..1][..0] == [] && es[..2] == es;
    assert "length" != "message" && "length" != "values";
    assert DictOf(es[..1]) == map["message" := Str("Hello {name}")];
    assert DictOf(es) == DictOf(es[..1])["values" := es[1].val];
    assert !HasOwnProperty(Obj(es, true), "length");
    assert ParsePrefix([], [], 0) == Success(Parsed("", map[]));
  }

  /** Single characters joined back together give the string they came from. */
  lemma {:induction false} CharactersJoined(s: string, n: nat)
    requires n <= |s|
    ensures var fs := TemplateProperties.Fragments(FragmentsRead(Str(s)).value);
            Text.JoinPrefix(fs, "", n) == s[..n]
  {
    var fs := TemplateProperties.Fragments(FragmentsRead(Str(s)).value);
    if n > 0 {
      CharactersJoined(s, n - 1);
      TemplateProperties.JoinPrefixEmptySep(fs, n);
      assert fs[n - 1] == [s[n - 1]];
      assert s[..n] == s[..n - 1] + [s[n - 1]];
    }
  }

  /**
   * `tNoMacro("string")`: a string has a `length`, so the loop reads its
   * characters and the string itself becomes the message instead of an error.
   */
  lemma StringArgumentBecomesMessage(gen: IdGenerator, s: string)
    ensures TNoMacroAsWritten(gen, Str(s), []) == Success(MessageDescriptor(gen(Str(s), None), Str(s), Some(map[]), None))
  {
    var strings := FragmentsRead(Str(s)).value;
    TemplateProperties.NoInterpolations(strings);
    CharactersJoined(s, |s|);
    assert s[..|s|] == s;
  }

  /** `tNoMacro(null)` fails on reading `length`, not with the error the calls expect. */
  lemma NullArgumentFailsOnLength(gen: IdGenerator)
    ensures TNoMacroAsWritten(gen, Null, []) == Failure(CannotReadProperty)
    ensures TNoMacroAsWritten(gen, Null, []) != Failure(Thrown(TNoMacroShapeMessage))
  {
  }

  /**
   * `tNoMacro` with the descriptor form it is evidently meant to have: a
   * template as before, an object with `message` as `defineMessageNoMacro`
   * reads it, and anything else rejected with its own message.
   */
  function TNoMacroWithDescriptors(gen: IdGenerator, arg: Value, values: seq<Value>): (r: Result<MessageDescriptor, Error>)
    ensures IsTemplateStrings(arg) ==> r == TNoMacroAsWritten(gen, arg, values)
    ensures IsDescriptorObject(arg) ==> r.Success? && r.value.message == Get(arg, "message")
    ensures !IsTemplateStrings(arg) && !IsDescriptorObject(arg) ==> r == Failure(Thrown(TNoMacroShapeMessage))
  {
    if IsTemplateStrings(arg) then TNoMacro(gen, arg.elems, values)
    else if IsDescriptorObject(arg) then Success(DescriptorFromObject(gen, arg))
    else Failure(Thrown(TNoMacroShapeMessage))
  }

  /**
   * The corrected form accepts exactly the calls `defineMessageNoMacro`
   * accepts, builds the same descriptor, and differs only in naming itself in
   * the error.
   */
  lemma WithDescriptorsMatchesDefine(gen: IdGenerator, arg: Value, values: seq<Value>)
    ensures IsTemplateStrings(arg) ==>
              TNoMacroWithDescriptors(gen, arg, values) == DefineMessageNoMacro(gen, arg, values)
    ensures DefineMessageNoMacro(gen, arg, values).Success? ==>
              TNoMacroWithDescriptors(gen, arg, values) == DefineMessageNoMacro(gen, arg, values)
    ensures !IsTemplateStrings(arg) && DefineMessageNoMacro(gen, arg, values).Failure? ==>
              DefineMessageNoMacro(gen, arg, values) == Failure(Thrown(DefineShapeMessage)) &&
              TNoMacroWithDescriptors(gen, arg, values) == Failure(Thrown(TNoMacroShapeMessage))
  {
  }

  /** `tNoMacro({ message: "Hello {name}", values: { name } })` now keeps its message and values. */
  lemma DescriptorObjectKeepsMessage(gen: IdGenerator, name: Value)
    ensures var arg := Obj([Entry("message", Str("Hello {name}")), Entry("values", Obj([Entry("name", name)], true))], true);
            var r := TNoMacroWithDescriptors(gen, arg, []);
            && r.Success?
            && r.value.message == Str("Hello {name}")
            && r.value.values == Some(map["name" := name])
  {
    var es := [Entry("message", Str("Hello {name}")), Entry("values", Obj([Entry("name", name)], true))];
    var vs := [Entry("name", name)];
    assert es[..1][..0] == [] && es[..2] == es;
    assert "message" != "values";
    assert DictOf(es[..1]) == map["message" := Str("Hello {name}")];
    assert DictOf(es) == DictOf(es[..1])["values" := es[1].val];
    assert vs[..0] == [];
    assert DictOf(vs) == map["name" := name];
    assert "constructor" != "name";
  }

  /** The invalid calls: `null`, `undefined`, a string, a number, `{}` and `{ id: "test" }`. */
  lemma WithDescriptorsRejectsInvalid(gen: IdGenerator)
    ensures TNoMacroWithDescriptors(gen, Null, []) == Failure(Thrown(TNoMacroShapeMessage))
    ensures TNoMacroWithDescriptors(gen, Undefined, []) == Failure(Thrown(TNoMacroShapeMessage))
    ensures TNoMacroWithDescriptors(gen, Str("string"), []) == Failure(Thrown(TNoMacroShapeMessage))
    ensures TNoMacroWithDescriptors(gen, Num(42), []) == Failure(Thrown(TNoMacroShapeMessage))
    ensures TNoMacroWithDescriptors(gen, Obj([], true), []) == Failure(Thrown(TNoMacroShapeMessage))
    ensures TNoMacroWithDescriptors(gen, Obj([Entry("id", Str("test"))], true), []) == Failure(Thrown(TNoMacroShapeMessage))
  {
    var es := [Entry("id", Str("test"))];
    assert es[..0] == [];
    assert DictOf(es) == map["id" := Str("test")];
    assert "id" != "message";
  }
}
