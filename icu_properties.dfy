/**
 * What `formatICUOptions` and `createICUExpression` promise: options rendered
 * in enumeration order and separated by single spaces, `offset` rendered as
 * `offset:v` only for plural and selectordinal, exact-match keys rendered like
 * category keys, and the value validated before anything is built.
 */
module IcuProperties {
  import opened Results
  import opened JsValues
  import opened NoMacro
  import Text

  /**
   * Option rendering: entry `i` renders at its offset in the formatted text,
   * and a single space separates it from entry `i + 1`.
   */
  lemma OptionsRenderedInOrder(options: Value, supportOffset: bool, i: nat)
    requires OwnEntries(options).Some? && i < |OwnEntries(options).value|
    ensures var es := OwnEntries(options).value;
            var parts := RenderedOptions(es, supportOffset);
            var at := Text.Offset(parts, " ", i);
            && FormatICUOptions(options, supportOffset).Success?
            && var text := FormatICUOptions(options, supportOffset).value;
            && at + |parts[i]| <= |text|
            && text[at..at + |parts[i]|] == RenderOption(es[i], supportOffset)
            && (i + 1 < |es| ==>
                  Text.Offset(parts, " ", i + 1) <= |text| &&
                  text[at + |parts[i]|..Text.Offset(parts, " ", i + 1)] == " ")
  {
    FormattedOptionsText(options, supportOffset);
    Text.JoinAt(RenderedOptions(OwnEntries(options).value, supportOffset), " ", i);
  }

  /** The formatted options of an object, spelled out as a join. */
  lemma FormattedOptionsText(options: Value, supportOffset: bool)
    requires OwnEntries(options).Some?
    ensures FormatICUOptions(options, supportOffset)
            == Success(Text.Join(RenderedOptions(OwnEntries(options).value, supportOffset), " "))
  {
  }

  /** The formatted options are exactly as long as the rendered entries plus one space between each pair. */
  lemma FormattedOptionsLength(options: Value, supportOffset: bool)
    requires OwnEntries(options).Some? && |OwnEntries(options).value| > 0
    ensures var parts := RenderedOptions(OwnEntries(options).value, supportOffset);
            FormatICUOptions(options, supportOffset).Success? &&
            |FormatICUOptions(options, supportOffset).value| + 1 == Text.Offset(parts, " ", |parts|)
  {
    FormattedOptionsText(options, supportOffset);
    Text.JoinLength(RenderedOptions(OwnEntries(options).value, supportOffset), " ");
  }

  /** `offset` renders as `offset:v` when offsets are supported and as an ordinary `offset {v}` entry otherwise. */
  lemma OffsetEntryRendering(v: Value, supportOffset: bool)
    ensures RenderOption(Entry("offset", v), supportOffset)
            == if supportOffset then "offset:" + ToJsString(v) else "offset {" + ToJsString(v) + "}"
  {
    assert "offset"[..1] != "=" by {
      assert "offset"[..1][0] == 'o';
    }
  }

  /**
   * ICU fragment: the fragment is `{key, type, ` followed by the options and
   * `}`, and option `i`, rendered with offsets supported exactly when the type
   * is not select (plural and selectordinal), sits inside it at its place
   * among the options.
   */
  lemma OptionInsideFragment(gen: IdGenerator, value: Value, options: Value, icuType: IcuType,
                             functionName: string, example: string, i: nat)
    requires CreateICUExpression(gen, value, options, icuType, functionName, example).Success?
    requires OwnEntries(options).Some? && i < |OwnEntries(options).value|
    ensures var es := OwnEntries(options).value;
            var parts := RenderedOptions(es, icuType != Select);
            var head := "{" + value.entries[0].key + ", " + icuType.Name() + ", ";
            var message := CreateICUExpression(gen, value, options, icuType, functionName, example).value.message;
            var at := |head| + Text.Offset(parts, " ", i);
            message.Str? && at + |parts[i]| <= |message.s| && message.s[at..at + |parts[i]|] == parts[i]
  {
    var parts := RenderedOptions(OwnEntries(options).value, icuType != Select);
    var head := "{" + value.entries[0].key + ", " + icuType.Name() + ", ";
    var message := CreateICUExpression(gen, value, options, icuType, functionName, example).value.message;
    FragmentText(gen, value, options, icuType, functionName, example);
    assert message == Str(head + Text.Join(parts, " ") + "}");
    PartAt(message, head, parts, i);
  }

  /** Part `i` inside a fragment `head + options + "}"`. */
  lemma PartAt(message: Value, head: string, parts: seq<string>, i: nat)
    requires i < |parts| && message == Str(head + Text.Join(parts, " ") + "}")
    ensures var at := |head| + Text.Offset(parts, " ", i);
            message.Str? && at + |parts[i]| <= |message.s| && message.s[at..at + |parts[i]|] == parts[i]
  {
    Text.PartInContext(head, parts, " ", "}", i);
  }

  /** The fragment text of a successful call, with the options text spelled out as a join. */
  lemma FragmentText(gen: IdGenerator, value: Value, options: Value, icuType: IcuType,
                     functionName: string, example: string)
    requires CreateICUExpression(gen, value, options, icuType, functionName, example).Success?
    ensures var parts := RenderedOptions(OwnEntries(options).value, icuType != Select);
            var head := "{" + value.entries[0].key + ", " + icuType.Name() + ", ";
            CreateICUExpression(gen, value, options, icuType, functionName, example).value.message
            == Str(head + Text.Join(parts, " ") + "}")
  {
  }

  /** Without an `offset` key, plural and select render their options identically. */
  lemma {:induction false} OffsetFlagOnlyAffectsOffset(entries: seq<Entry>)
    requires forall i :: 0 <= i < |entries| ==> entries[i].key != "offset"
    ensures RenderedOptions(entries, true) == RenderedOptions(entries, false)
  {
    forall i | 0 <= i < |entries|
      ensures RenderedOptions(entries, true)[i] == RenderedOptions(entries, false)[i]
    {
    }
  }

  /** Exact-match keys (`=N`) render as `key {text}` exactly like category keys, in every fragment type. */
  lemma ExactMatchKeysRenderLikeCategories(key: string, text: Value, supportOffset: bool)
    requires Text.StartsWith(key, "=")
    ensures RenderOption(Entry(key, text), supportOffset) == key + " {" + ToJsString(text) + "}"
  {
    assert key != "offset" by {
      assert key[..1] == "=";
      assert "offset"[..1][0] == 'o';
    }
  }

  /**
   * The value is validated before the options are looked at: positional use
   * fails with the helper's own message even when the options are unusable.
   */
  lemma ValueCheckedBeforeOptions(gen: IdGenerator, value: Value, options: Value, icuType: IcuType,
                                  functionName: string, example: string)
    requires !value.Obj?
    ensures CreateICUExpression(gen, value, options, icuType, functionName, example)
            == Failure(Thrown(NotationMessage(functionName, example)))
  {
  }

  /** Every notation error begins with the helper's name and "requires object notation". */
  lemma NotationMessagePrefix(functionName: string, example: string)
    ensures Text.StartsWith(NotationMessage(functionName, example), functionName + " requires object notation")
  {
    var p := functionName + " requires object notation";
    var rest := ", e.g., " + functionName + "(" + example + ", options)";
    assert " requires object notation, e.g., " == " requires object notation" + ", e.g., ";
    assert NotationMessage(functionName, example) == p + rest;
    Text.StartsWithConcat(p, rest);
  }

  /** The notation error of pluralNoMacro, spelled out. */
  lemma PluralNotationPrefix(message: string)
    requires message == NotationMessage("pluralNoMacro", "{ count }")
    ensures Text.StartsWith(message, "pluralNoMacro requires object notation")
  {
    NotationMessagePrefix("pluralNoMacro", "{ count }");
    PluralNotationText();
  }

  lemma PluralNotationText()
    ensures "pluralNoMacro" + " requires object notation" == "pluralNoMacro requires object notation"
  {
  }

  /** `pluralNoMacro(count, options)`: the error names pluralNoMacro and asks for object notation. */
  lemma PluralRejectsPositionalCount(gen: IdGenerator, count: int, options: Value)
    ensures PluralNoMacro(gen, Num(count), options).Failure?
    ensures Text.StartsWith(PluralNoMacro(gen, Num(count), options).error.message,
                            "pluralNoMacro requires object notation")
  {
    assert PluralNoMacro(gen, Num(count), options).error.message == NotationMessage("pluralNoMacro", "{ count }");
    PluralNotationPrefix(PluralNoMacro(gen, Num(count), options).error.message);
  }

  // ---------------------------------------------------------------------------
  // Worked examples

  /** `[a, b, c, d].join(sep)` spelled out. */
  lemma Join4(a: string, b: string, c: string, d: string, sep: string)
    ensures Text.Join([a, b, c, d], sep) == a + sep + b + sep + c + sep + d
  {
    var ps := [a, b, c, d];
    assert Text.JoinPrefix(ps, sep, 2) == a + sep + b;
    assert Text.JoinPrefix(ps, sep, 3) == a + sep + b + sep + c;
  }

  /** `[a, b, c].join(sep)` spelled out. */
  lemma Join3(a: string, b: string, c: string, sep: string)
    ensures Text.Join([a, b, c], sep) == a + sep + b + sep + c
  {
    var ps := [a, b, c];
    assert Text.JoinPrefix(ps, sep, 2) == a + sep + b;
  }

  /** An entry whose key is not `offset` renders as `key {text}`. */
  lemma CategoryRendering(key: string, text: Value, supportOffset: bool)
    requires key != "offset"
    ensures RenderOption(Entry(key, text), supportOffset) == key + " {" + ToJsString(text) + "}"
  {
  }

  /** `{ offset: 1, "=0": "No books", one: "# book", other: "# books" }` */
  function BookOptions(): seq<Entry> {
    [Entry("offset", Num(1)), Entry("=0", Str("No books")), Entry("one", Str("# book")), Entry("other", Str("# books"))]
  }

  /** How each plural option of BookOptions renders. */
  lemma BookOptionsRendering()
    ensures RenderedOptions(BookOptions(), true) == ["offset:1", "=0 {No books}", "one {# book}", "other {# books}"]
  {
    var es := BookOptions();
    assert ToJsString(Num(1)) == "1";
    OffsetEntryRendering(Num(1), true);
    CategoryRendering("=0", Str("No books"), true);
    CategoryRendering("one", Str("# book"), true);
    CategoryRendering("other", Str("# books"), true);
    assert "=0" + " {" + "No books" + "}" == "=0 {No books}";
    assert "one" + " {" + "# book" + "}" == "one {# book}";
    assert "other" + " {" + "# books" + "}" == "other {# books}";
    assert RenderedOptions(es, true)[0] == "offset:1";
  }

  /**
   * `pluralNoMacro({ count }, BookOptions)` builds
   * `{count, plural, offset:1 =0 {No books} one {# book} other {# books}}`.
   */
  lemma PluralWithOffsetExample(gen: IdGenerator, count: Value)
    ensures var r := PluralNoMacro(gen, Obj([Entry("count", count)], true), Obj(BookOptions(), true));
            && r.Success?
            && r.value.message == Str("{count, plural, " + "offset:1" + " " + "=0 {No books}" + " " + "one {# book}"
                                      + " " + "other {# books}" + "}")
            && r.value.values == Some(map["count" := count])
  {
    PluralExampleFragment(gen, count);
    BookOptionsJoined();
    Regroup4("{count, plural, ", "offset:1", "=0 {No books}", "one {# book}", "other {# books}", " ", "}");
  }

  /** Concatenation regrouped: a head, four parts with separators, and a tail. */
  lemma Regroup4(head: string, a: string, b: string, c: string, d: string, sep: string, tail: string)
    ensures head + (a + sep + b + sep + c + sep + d) + tail == head + a + sep + b + sep + c + sep + d + tail
  {
  }

  /** The options of the plural example, joined. */
  lemma BookOptionsJoined()
    ensures Text.Join(RenderedOptions(BookOptions(), true), " ")
            == "offset:1" + " " + "=0 {No books}" + " " + "one {# book}" + " " + "other {# books}"
  {
    BookOptionsRendering();
    Join4("offset:1", "=0 {No books}", "one {# book}", "other {# books}", " ");
  }

  /** The plural example before its options are rendered. */
  lemma PluralExampleFragment(gen: IdGenerator, count: Value)
    ensures var r := PluralNoMacro(gen, Obj([Entry("count", count)], true), Obj(BookOptions(), true));
            && r.Success?
            && r.value.message == Str("{count, plural, " + Text.Join(RenderedOptions(BookOptions(), true), " ") + "}")
            && r.value.values == Some(map["count" := count])
  {
    FragmentText(gen, Obj([Entry("count", count)], true), Obj(BookOptions(), true), Plural, "pluralNoMacro", "{ count }");
    assert "{" + "count" + ", " + "plural" + ", " == "{count, plural, ";
  }

  /** `{ male: "He is here", female: "She is here", other: "They are here" }` */
  function GenderOptions(): seq<Entry> {
    [Entry("male", Str("He is here")), Entry("female", Str("She is here")), Entry("other", Str("They are here"))]
  }

  /** How each select option of GenderOptions renders. */
  lemma GenderOptionsRendering()
    ensures RenderedOptions(GenderOptions(), false) == ["male {He is here}", "female {She is here}", "other {They are here}"]
  {
    MaleRendering();
    FemaleRendering();
    OtherRendering();
  }

  lemma MaleRendering()
    ensures RenderedOptions(GenderOptions(), false)[0] == "male {He is here}"
  {
    CategoryRendering("male", Str("He is here"), false);
    assert "male" + " {" + "He is here" + "}" == "male {He is here}";
  }

  lemma FemaleRendering()
    ensures RenderedOptions(GenderOptions(), false)[1] == "female {She is here}"
  {
    assert "female" != "offset" by { assert "female"[0] != "offset"[0]; }
    CategoryRendering("female", Str("She is here"), false);
    assert "female" + " {" + "She is here" + "}" == "female {She is here}";
  }

  lemma OtherRendering()
    ensures RenderedOptions(GenderOptions(), false)[2] == "other {They are here}"
  {
    CategoryRendering("other", Str("They are here"), false);
    assert "other" + " {" + "They are here" + "}" == "other {They are here}";
  }

  /**
   * `selectNoMacro({ gender }, GenderOptions)` builds
   * `{gender, select, male {He is here} female {She is here} other {They are here}}`.
   */
  lemma SelectExample(gen: IdGenerator, gender: Value)
    ensures var r := SelectNoMacro(gen, Obj([Entry("gender", gender)], true), Obj(GenderOptions(), true));
            && r.Success?
            && r.value.message == Str("{gender, select, " + "male {He is here}" + " " + "female {She is here}" + " "
                                      + "other {They are here}" + "}")
            && r.value.values == Some(map["gender" := gender])
  {
    SelectExampleFragment(gen, gender);
    GenderOptionsRendering();
    Join3("male {He is here}", "female {She is here}", "other {They are here}", " ");
  }

  /** The select example before its options are rendered. */
  lemma SelectExampleFragment(gen: IdGenerator, gender: Value)
    ensures var r := SelectNoMacro(gen, Obj([Entry("gender", gender)], true), Obj(GenderOptions(), true));
            && r.Success?
            && r.value.message == Str("{gender, select, " + Text.Join(RenderedOptions(GenderOptions(), false), " ") + "}")
            && r.value.values == Some(map["gender" := gender])
  {
    FragmentText(gen, Obj([Entry("gender", gender)], true), Obj(GenderOptions(), true), Select, "selectNoMacro", "{ gender }");
    assert "{" + "gender" + ", " + "select" + ", " == "{gender, select, ";
  }
}
