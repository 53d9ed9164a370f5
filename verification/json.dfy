/** JSON values as they travel through request bodies, with the
    JavaScript notion of truthiness that `x || y` and `!x` use. */
module Json {
  import opened Wrappers
  import Text

  datatype Json =
    | JNull
    | JBool(b: bool)
    | JNum(n: real)
    | JStr(s: string)
    | JArr(items: seq<Json>)
    | JObj(fields: map<string, Json>)

  /** Truthiness of a present JSON value (NaN is not a JSON value). */
  predicate Truthy(j: Json) {
    match j
    case JNull => false
    case JBool(b) => b
    case JNum(n) => n != 0.0
    case JStr(s) => s != ""
    case JArr(_) => true
    case JObj(_) => true
  }

  /** Truthiness of a possibly-missing field: `undefined` is falsy. */
  predicate Present(o: Option<Json>) {
    o.Some? && Truthy(o.value)
  }

  /** `field || fallback`: the field when it is truthy, the fallback otherwise. */
  function OrElse(o: Option<Json>, fallback: Json): (r: Json)
    ensures Present(o) ==> r == o.value
    ensures !Present(o) ==> r == fallback
  {
    if o.Some? && Truthy(o.value) then o.value else fallback
  }

  /** Field lookup on an object body; `undefined` for a missing key. */
  function Field(body: map<string, Json>, key: string): (r: Option<Json>)
    ensures r.Some? <==> key in body
    ensures r.Some? ==> r.value == body[key]
  {
    if key in body then Some(body[key]) else None
  }

  /** `s || fallback` on an optional string: empty strings are falsy. */
  function StrOr(o: Option<string>, fallback: string): (r: string)
    ensures o.Some? && o.value != "" ==> r == o.value
    ensures o.None? || o.value == "" ==> r == fallback
  {
    if o.Some? && o.value != "" then o.value else fallback
  }

  /** Numbers from this bound on are written in exponent notation. */
  const ExponentFrom: int := 1_000_000_000_000_000_000_000

  /** `String(j)`, where JavaScript's text for `j` is modelled: `None` for a
      fractional number or one of magnitude `ExponentFrom` or more, or an
      array holding one. An array joins its elements' texts with commas,
      a `null` element giving the empty text. */
  function JsString(j: Json): (r: Option<string>)
    ensures j.JStr? ==> r == Some(j.s)
    ensures j.JNull? ==> r == Some("null")
    ensures j.JBool? ==> r == Some(if j.b then "true" else "false")
    ensures j.JObj? ==> r == Some("[object Object]")
    ensures j.JNum? ==> (r.Some? <==> j.n == j.n.Floor as real && -ExponentFrom < j.n.Floor < ExponentFrom)
    ensures j.JNum? && r.Some? ==> Text.ParseInt(r.value) == Some(j.n.Floor)
    ensures j.JArr? && j.items == [] ==> r == Some("")
    ensures j.JArr? && |j.items| == 1 && j.items[0].JNull? ==> r == Some("")
    ensures j.JArr? && |j.items| == 1 && !j.items[0].JNull? ==> r == JsString(j.items[0])
    decreases j, 0
  {
    match j
    case JNull => Some("null")
    case JBool(b) => Some(if b then "true" else "false")
    case JStr(s) => Some(s)
    case JObj(_) => Some("[object Object]")
    case JNum(n) =>
      if n == n.Floor as real && -ExponentFrom < n.Floor < ExponentFrom then
        Text.ParseIntOfRendered(n.Floor, []);
        assert Text.IntToString(n.Floor) + [] == Text.IntToString(n.Floor);
        Some(Text.IntToString(n.Floor))
      else None
    case JArr(items) =>
      var parts := seq(|items|, i requires 0 <= i < |items| => ItemText(items[i]));
      if exists i | 0 <= i < |parts| :: parts[i].None? then None
      else if parts == [] then Some("")
      else Some(Text.Join(seq(|parts|, i requires 0 <= i < |parts| => parts[i].value), ','))
  }

  /** A whole number is written in decimal, a fraction is outside the
      modelled numbers. */
  lemma NumberTexts()
    ensures JsString(JNum(-42.0)) == Some("-42")
    ensures JsString(JNum(0.5)).None?
  {
    assert Text.NatToString(4) == "4";
    assert Text.NatToString(42) == Text.NatToString(4) + "2";
    assert Text.IntToString(-42) == "-42";
  }

  /** An array element's text: `null` is written as nothing. */
  function ItemText(x: Json): (r: Option<string>)
    ensures x.JNull? ==> r == Some("")
    ensures !x.JNull? ==> r == JsString(x)
    decreases x, 1
  {
    if x.JNull? then Some("") else JsString(x)
  }

  /** An array of two or more elements is its first element's text, a
      comma, and the text of the rest; it is undefined exactly when one of
      those is. */
  lemma ArrayCons(x: Json, xs: seq<Json>)
    requires xs != []
    ensures JsString(JArr([x] + xs)) ==
            (if ItemText(x).Some? && JsString(JArr(xs)).Some?
             then Some(ItemText(x).value + "," + JsString(JArr(xs)).value)
             else None)
  {
    var items := [x] + xs;
    var parts := seq(|items|, i requires 0 <= i < |items| => ItemText(items[i]));
    var rest := seq(|xs|, i requires 0 <= i < |xs| => ItemText(xs[i]));
    assert parts == [ItemText(x)] + rest;
    if (forall i | 0 <= i < |parts| :: parts[i].Some?) {
      var texts := seq(|parts|, i requires 0 <= i < |parts| => parts[i].value);
      assert forall i | 0 <= i < |rest| :: rest[i] == parts[i + 1];
      var restTexts := seq(|rest|, i requires 0 <= i < |rest| => rest[i].value);
      assert texts[1..] == restTexts;
      assert Text.Join(texts, ',') == ItemText(x).value + [','] + Text.Join(restTexts, ',');
    } else {
      var i :| 0 <= i < |parts| && parts[i].None?;
      if i > 0 {
        assert rest[i - 1].None?;
      }
    }
  }

  /** An array is written with commas, `null` elements as nothing: two
      steps of `ArrayCons`. */
  lemma ArrayText()
    ensures JsString(JArr([JNum(1.0), JNull, JStr("a")])) == Some("1,,a")
  {
    assert Text.NatToString(1) == "1";
    assert JsString(JNum(1.0)) == Some("1");
    assert JsString(JArr([JStr("a")])) == Some("a");
    ArrayCons(JNull, [JStr("a")]);
    assert [JNull] + [JStr("a")] == [JNull, JStr("a")];
    assert "" + "," + "a" == ",a";
    ArrayCons(JNum(1.0), [JNull, JStr("a")]);
    assert [JNum(1.0)] + [JNull, JStr("a")] == [JNum(1.0), JNull, JStr("a")];
    assert "1" + "," + ",a" == "1,,a";
  }
}
