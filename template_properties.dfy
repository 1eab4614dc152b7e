/**
 * What `parseTemplateValues` promises: the shape of the normalised message,
 * the extracted values (last occurrence wins), rejection of anything but
 * single-key object notation, and the case with no interpolations.
 */
module TemplateProperties {
  import opened Results
  import opened JsValues
  import opened NoMacro
  import Text

  /** The name an interpolation binds (meaningful once it is single-key object notation). */
  function KeyOf(v: Value): string {
    if v.Obj? && |v.entries| > 0 then v.entries[0].key else ""
  }

  function ValOf(v: Value): Value {
    if v.Obj? && |v.entries| > 0 then v.entries[0].val else Undefined
  }

  /** Fragment `i` as text, followed by the placeholder of interpolation `i` when there is one. */
  function Piece(strings: seq<Value>, values: seq<Value>, i: nat): string
    requires i < |strings|
  {
    ToJsString(strings[i]) + (if i < |values| then "{" + KeyOf(values[i]) + "}" else "")
  }

  /** s0 + "{k0}", s1 + "{k1}", ..., sn: the message is their concatenation. */
  function Pieces(strings: seq<Value>, values: seq<Value>): (ps: seq<string>)
    ensures |ps| == |strings|
  {
    seq(|strings|, i requires 0 <= i < |strings| => Piece(strings, values, i))
  }

  function Fragments(strings: seq<Value>): (fs: seq<string>)
    ensures |fs| == |strings|
  {
    seq(|strings|, i requires 0 <= i < |strings| => ToJsString(strings[i]))
  }

  lemma {:induction false} PrefixSucceeds(strings: seq<Value>, values: seq<Value>, n: nat, m: nat)
    requires m <= n <= |strings|
    requires ParsePrefix(strings, values, n).Success?
    ensures ParsePrefix(strings, values, m).Success?
  {
    if ParsePrefix(strings, values, m).Failure? {
      ParseFailureIsFinal(strings, values, m, n);
    }
  }

  /** One pass of the walk appends fragment `i` and, when interpolation `i` exists, its placeholder. */
  lemma StepMessage(p: Parsed, strings: seq<Value>, values: seq<Value>, i: nat)
    requires i < |strings|
    requires ParseStep(p, strings, values, i).Success?
    ensures ParseStep(p, strings, values, i).value.message == p.message + Piece(strings, values, i)
  {
    if i < |values| {
      assert OwnEntries(values[i]).value[0].key == KeyOf(values[i]);
      assert p.message + ToJsString(strings[i]) + "{" + KeyOf(values[i]) + "}"
             == p.message + (ToJsString(strings[i]) + "{" + KeyOf(values[i]) + "}");
    } else {
      assert ToJsString(strings[i]) + "" == ToJsString(strings[i]);
    }
  }

  /** Joining with the empty separator: one more piece is appended as it is. */
  lemma JoinPrefixEmptySep(parts: seq<string>, n: nat)
    requires 0 < n <= |parts|
    ensures Text.JoinPrefix(parts, "", n) == Text.JoinPrefix(parts, "", n - 1) + parts[n - 1]
  {
    if n > 1 {
      assert Text.JoinPrefix(parts, "", n - 1) + "" + parts[n - 1] == Text.JoinPrefix(parts, "", n - 1) + parts[n - 1];
    }
  }

  /** After `n` fragments the message is the first `n` pieces concatenated. */
  lemma {:induction false} PrefixMessage(strings: seq<Value>, values: seq<Value>, n: nat)
    requires n <= |strings|
    requires ParsePrefix(strings, values, n).Success?
    ensures ParsePrefix(strings, values, n).value.message == Text.JoinPrefix(Pieces(strings, values), "", n)
  {
    if n > 0 {
      PrefixSucceeds(strings, values, n, n - 1);
      PrefixMessage(strings, values, n - 1);
      var p := ParsePrefix(strings, values, n - 1).value;
      assert ParsePrefix(strings, values, n) == ParseStep(p, strings, values, n - 1);
      StepMessage(p, strings, values, n - 1);
      JoinPrefixEmptySep(Pieces(strings, values), n);
    }
  }

  /** The names the walk has recorded after `n` fragments. */
  lemma {:induction false} PrefixKeys(strings: seq<Value>, values: seq<Value>, n: nat, k: string)
    requires n <= |strings|
    requires ParsePrefix(strings, values, n).Success?
    ensures k in ParsePrefix(strings, values, n).value.extractedValues <==>
              k != "__proto__" && exists j :: 0 <= j < n && j < |values| && KeyOf(values[j]) == k
  {
    if n > 0 {
      PrefixSucceeds(strings, values, n, n - 1);
      PrefixKeys(strings, values, n - 1, k);
      var p := ParsePrefix(strings, values, n - 1).value;
      assert ParsePrefix(strings, values, n) == ParseStep(p, strings, values, n - 1);
      StepKeys(p, strings, values, n - 1, k);
      if n - 1 < |values| && KeyOf(values[n - 1]) == k && k != "__proto__" {
        assert 0 <= n - 1 < n && n - 1 < |values| && KeyOf(values[n - 1]) == k;
      }
    }
  }

  /** One pass of the walk records the name of interpolation `i`, unless it is "__proto__". */
  lemma StepKeys(p: Parsed, strings: seq<Value>, values: seq<Value>, i: nat, k: string)
    requires i < |strings|
    requires ParseStep(p, strings, values, i).Success?
    ensures k in ParseStep(p, strings, values, i).value.extractedValues <==>
              k in p.extractedValues || (i < |values| && k != "__proto__" && KeyOf(values[i]) == k)
  {
    if i < |values| {
      assert OwnEntries(values[i]).value[0].key == KeyOf(values[i]);
    }
  }

  /** After `n` fragments a name holds the value of its last occurrence so far. */
  lemma {:induction false} PrefixLastValue(strings: seq<Value>, values: seq<Value>, n: nat, j: nat)
    requires j < n <= |strings| && j < |values|
    requires ParsePrefix(strings, values, n).Success?
    requires KeyOf(values[j]) != "__proto__"
    requires forall j' :: j < j' < n && j' < |values| ==> KeyOf(values[j']) != KeyOf(values[j])
    ensures var d := ParsePrefix(strings, values, n).value.extractedValues;
            KeyOf(values[j]) in d && d[KeyOf(values[j])] == ValOf(values[j])
  {
    PrefixSucceeds(strings, values, n, n - 1);
    var d0 := ParsePrefix(strings, values, n - 1).value.extractedValues;
    var d := ParsePrefix(strings, values, n).value.extractedValues;
    if n - 1 < |values| {
      assert IsSingleKeyObject(values[n - 1]);
      assert d == AssignProperty(d0, KeyOf(values[n - 1]), ValOf(values[n - 1]));
      if j < n - 1 {
        assert KeyOf(values[n - 1]) != KeyOf(values[j]);
      }
    } else {
      assert d == d0;
    }
    if j < n - 1 {
      PrefixLastValue(strings, values, n - 1, j);
    }
  }

  /**
   * Placeholder shape: the message is fragment 0, "{k0}", fragment 1, "{k1}",
   * ... in order, every interpolation reached contributing its placeholder even
   * when its name repeats (Text.JoinAt locates each piece).
   */
  lemma NormalisedMessageShape(strings: seq<Value>, values: seq<Value>)
    requires ParseTemplate(strings, values).Success?
    ensures ParseTemplate(strings, values).value.message == Text.Join(Pieces(strings, values), "")
  {
    PrefixMessage(strings, values, |strings|);
  }

  /**
   * Extracted values: exactly the interpolated names (bar "__proto__", which the
   * assignment sends to the prototype setter), each bound to the value of its
   * last occurrence among the interpolations the walk reaches.
   */
  lemma ExtractedValuesAreLastOccurrences(strings: seq<Value>, values: seq<Value>)
    requires ParseTemplate(strings, values).Success?
    ensures var d := ParseTemplate(strings, values).value.extractedValues;
            var reached := if |strings| < |values| then |strings| else |values|;
            && (forall k :: k in d <==>
                  k != "__proto__" && exists j :: 0 <= j < reached && KeyOf(values[j]) == k)
            && (forall j :: (0 <= j < reached && KeyOf(values[j]) != "__proto__" &&
                             (forall j' :: j < j' < reached ==> KeyOf(values[j']) != KeyOf(values[j])))
                  ==> d[KeyOf(values[j])] == ValOf(values[j]))
  {
    var d := ParseTemplate(strings, values).value.extractedValues;
    var reached := if |strings| < |values| then |strings| else |values|;
    forall k
      ensures k in d <==> k != "__proto__" && exists j :: 0 <= j < reached && KeyOf(values[j]) == k
    {
      PrefixKeys(strings, values, |strings|, k);
    }
    forall j | 0 <= j < reached && KeyOf(values[j]) != "__proto__" &&
               (forall j' :: j < j' < reached ==> KeyOf(values[j']) != KeyOf(values[j]))
      ensures d[KeyOf(values[j])] == ValOf(values[j])
    {
      PrefixLastValue(strings, values, |strings|, j);
    }
  }

  /**
   * Rejection: the walk throws the object-notation error exactly when some
   * interpolation it reaches is falsy, not an object, an array, or has other
   * than one key; then no message and no values come back.
   */
  lemma RejectsAnyNonObjectNotation(strings: seq<Value>, values: seq<Value>)
    ensures ParseTemplate(strings, values).Failure? <==>
              exists j :: 0 <= j < |strings| && j < |values| && !IsSingleKeyObject(values[j])
    ensures ParseTemplate(strings, values).Failure? ==>
              ParseTemplate(strings, values) == Failure(Thrown(TemplateNotationMessage))
  {
    ParsePrefixThrowsIff(strings, values, |strings|);
  }

  /** No interpolations: the fragments concatenated, and no values. */
  lemma NoInterpolations(strings: seq<Value>)
    ensures ParseTemplate(strings, []) == Success(Parsed(Text.Join(Fragments(strings), ""), map[]))
  {
    ParsePrefixThrowsIff(strings, [], |strings|);
    NormalisedMessageShape(strings, []);
    forall i | 0 <= i < |strings|
      ensures Pieces(strings, [])[i] == Fragments(strings)[i]
    {
      assert ToJsString(strings[i]) + "" == ToJsString(strings[i]);
    }
    assert Pieces(strings, []) == Fragments(strings);
    ExtractedValuesAreLastOccurrences(strings, []);
    var d := ParseTemplate(strings, []).value.extractedValues;
    assert d == map[] by {
      assert forall k :: k !in d;
    }
  }

  lemma {:induction false} PrefixIgnoresExtraValues(strings: seq<Value>, values: seq<Value>, extra: seq<Value>, n: nat)
    requires n <= |strings| <= |values|
    ensures ParsePrefix(strings, values + extra, n) == ParsePrefix(strings, values, n)
  {
    if n > 0 {
      PrefixIgnoresExtraValues(strings, values, extra, n - 1);
      assert (values + extra)[n - 1] == values[n - 1];
    }
  }

  /**
   * The loop runs over the fragments only: interpolations past the last
   * fragment are never examined, not even validated.
   */
  lemma ValuesPastLastFragmentIgnored(strings: seq<Value>, values: seq<Value>, extra: seq<Value>)
    requires |strings| <= |values|
    ensures ParseTemplate(strings, values + extra) == ParseTemplate(strings, values)
  {
    PrefixIgnoresExtraValues(strings, values, extra, |strings|);
  }

  /** A resolved string (what an ICU helper returns) used bare is rejected, whatever its text. */
  lemma BareValueRejected(prefix: string, v: Value)
    requires !v.Obj?
    ensures ParseTemplate([Str(prefix), Str("")], [v]) == Failure(Thrown(TemplateNotationMessage))
  {
    assert !IsSingleKeyObject([v][0]);
    RejectsAnyNonObjectNotation([Str(prefix), Str("")], [v]);
  }

  /** `Hello ${{ name }}` gives "Hello {name}" with name bound. */
  lemma HelloNameExample(name: Value)
    ensures ParseTemplate([Str("Hello "), Str("")], [Obj([Entry("name", name)], true)])
            == Success(Parsed("Hello {name}", map["name" := name]))
  {
    var strings, values := [Str("Hello "), Str("")], [Obj([Entry("name", name)], true)];
    assert ToJsString(strings[0]) == "Hello " && ToJsString(strings[1]) == "";
    assert "" + "Hello " + "{" + "name" + "}" == "Hello {name}";
    assert "Hello {name}" + "" == "Hello {name}";
    assert AssignProperty(map[], "name", name) == map["name" := name];
    assert OwnEntries(values[0]).value[0].key == "name";
    assert ParsePrefix(strings, values, 0) == Success(Parsed("", map[]));
    assert ParseStep(Parsed("", map[]), strings, values, 0)
           == Success(Parsed("Hello {name}", map["name" := name]));
    assert ParsePrefix(strings, values, 1) == Success(Parsed("Hello {name}", map["name" := name]));
    assert ParseStep(Parsed("Hello {name}", map["name" := name]), strings, values, 1)
           == Success(Parsed("Hello {name}", map["name" := name]));
  }

  /** `Hello ${{ firstName }} ${{ lastName }}` */
  lemma TwoNamesExample(first: Value, last: Value)
    ensures ParseTemplate([Str("Hello "), Str(" "), Str("")],
                          [Obj([Entry("firstName", first)], true), Obj([Entry("lastName", last)], true)])
            == Success(Parsed("Hello {firstName} {lastName}", map["firstName" := first, "lastName" := last]))
  {
    var strings := [Str("Hello "), Str(" "), Str("")];
    var values := [Obj([Entry("firstName", first)], true), Obj([Entry("lastName", last)], true)];
    assert ToJsString(strings[0]) == "Hello " && ToJsString(strings[1]) == " " && ToJsString(strings[2]) == "";
    assert OwnEntries(values[0]).value[0].key == "firstName";
    assert OwnEntries(values[1]).value[0].key == "lastName";
    var m1 := "Hello {firstName}";
    assert "" + "Hello " + "{" + "firstName" + "}" == m1;
    var m2 := "Hello {firstName} {lastName}";
    assert m1 + " " + "{" + "lastName" + "}" == m2;
    assert m2 + "" == m2;
    var d1 := map["firstName" := first];
    var d2 := map["firstName" := first, "lastName" := last];
    assert AssignProperty(map[], "firstName", first) == d1;
    assert AssignProperty(d1, "lastName", last) == d2;
    assert ParsePrefix(strings, values, 0) == Success(Parsed("", map[]));
    assert ParsePrefix(strings, values, 1) == Success(Parsed(m1, d1));
    assert ParsePrefix(strings, values, 2) == Success(Parsed(m2, d2));
    assert ParsePrefix(strings, values, 3) == Success(Parsed(m2, d2));
  }
}
