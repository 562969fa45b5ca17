/** A text format for debug objects that has the round trip `PopupView.Faithful` asks of
    `JSON.parse` and `JSON.stringify`. It shows that the premise of
    `PopupView.MergesAccumulate` can be met.

    The format is a prefix code over code units. A natural number is written in unary: a 1 per
    unit of its value, then a 0. A string is its length, then its units. A value starts with a
    tag unit. A list of items or members is each entry behind a 1, closed by a 0. */
module FaithfulCodec {
  import opened JsText
  import opened DebugMap
  import PopupView

  function EncNat(n: nat): JsString {
    if n == 0 then [0] else [1] + EncNat(n - 1)
  }

  function EncStr(s: JsString): JsString {
    EncNat(|s|) + s
  }

  function EncJson(j: Json): JsString
    decreases j
  {
    match j
    case JNull => [0]
    case JBool(b) => [1, if b then 1 else 0]
    case JNumber(n) => [2] + (if n >= 0 then [0] + EncNat(n) else [1] + EncNat(-n))
    case JString(s) => [3] + EncStr(s)
    case JArray(items) => [4] + EncItems(items)
    case JObject(ms) => [5] + EncMembers(ms)
  }

  function EncItems(items: seq<Json>): JsString
    decreases items
  {
    if items == [] then [0] else [1] + EncJson(items[0]) + EncItems(items[1..])
  }

  function EncMembers(ms: Members): JsString
    decreases ms
  {
    if ms == [] then [0]
    else
      var p := ms[0];
      assert p.1 < p;
      [1] + EncStr(p.0) + EncJson(p.1) + EncMembers(ms[1..])
  }

  /** Each decoder reads one entity off the front and returns it with the text left over,
      which is always shorter than the text it was given. */
  function DecNat(s: JsString): (r: Option<(nat, JsString)>)
    ensures r.Some? ==> |r.value.1| < |s|
  {
    if s == [] then None
    else if s[0] == 0 then Some((0, s[1..]))
    else if s[0] == 1 then
      match DecNat(s[1..])
      case None => None
      case Some((n, rest)) => Some((n + 1, rest))
    else None
  }

  function DecStr(s: JsString): (r: Option<(JsString, JsString)>)
    ensures r.Some? ==> |r.value.1| < |s|
  {
    match DecNat(s)
    case None => None
    case Some((n, rest)) => if n <= |rest| then Some((rest[..n], rest[n..])) else None
  }

  function DecJson(s: JsString): (r: Option<(Json, JsString)>)
    ensures r.Some? ==> |r.value.1| < |s|
    decreases |s|
  {
    if s == [] then None
    else if s[0] == 0 then Some((JNull, s[1..]))
    else if s[0] == 1 then
      if |s| >= 2 && (s[1] == 0 || s[1] == 1) then Some((JBool(s[1] == 1), s[2..])) else None
    else if s[0] == 2 then
      if |s| >= 2 && (s[1] == 0 || s[1] == 1) then
        match DecNat(s[2..])
        case None => None
        case Some((n, rest)) => Some((JNumber(if s[1] == 0 then n else -(n as int)), rest))
      else None
    else if s[0] == 3 then
      match DecStr(s[1..])
      case None => None
      case Some((t, rest)) => Some((JString(t), rest))
    else if s[0] == 4 then
      match DecItems(s[1..])
      case None => None
      case Some((items, rest)) => Some((JArray(items), rest))
    else if s[0] == 5 then
      match DecMembers(s[1..])
      case None => None
      case Some((ms, rest)) => Some((JObject(ms), rest))
    else None
  }

  function DecItems(s: JsString): (r: Option<(seq<Json>, JsString)>)
    ensures r.Some? ==> |r.value.1| < |s|
    decreases |s|
  {
    if s == [] then None
    else if s[0] == 0 then Some(([], s[1..]))
    else if s[0] == 1 then
      match DecJson(s[1..])
      case None => None
      case Some((j, rest)) =>
        match DecItems(rest)
        case None => None
        case Some((items, rest')) => Some(([j] + items, rest'))
    else None
  }

  function DecMembers(s: JsString): (r: Option<(Members, JsString)>)
    ensures r.Some? ==> |r.value.1| < |s|
    decreases |s|
  {
    if s == [] then None
    else if s[0] == 0 then Some(([], s[1..]))
    else if s[0] == 1 then
      match DecStr(s[1..])
      case None => None
      case Some((k, rest)) =>
        match DecJson(rest)
        case None => None
        case Some((v, rest')) =>
          match DecMembers(rest')
          case None => None
          case Some((ms, rest'')) => Some(([(k, v)] + ms, rest''))
    else None
  }

  // ---------------------------------------------------------------------------------------
  // Round trips

  lemma {:induction false} DecEncNat(n: nat, rest: JsString)
    ensures DecNat(EncNat(n) + rest) == Some((n, rest))
  {
    if n > 0 {
      assert (EncNat(n) + rest)[1..] == EncNat(n - 1) + rest;
      DecEncNat(n - 1, rest);
    }
  }

  lemma DecEncStr(s: JsString, rest: JsString)
    ensures DecStr(EncStr(s) + rest) == Some((s, rest))
  {
    assert EncStr(s) + rest == EncNat(|s|) + (s + rest);
    DecEncNat(|s|, s + rest);
    assert (s + rest)[..|s|] == s && (s + rest)[|s|..] == rest;
  }

  lemma {:induction false} DecEncJson(j: Json, rest: JsString)
    ensures DecJson(EncJson(j) + rest) == Some((j, rest))
    decreases j
  {
    match j
    case JNull =>
      DecEncNull(rest);
    case JBool(b) =>
      DecEncBool(b, rest);
    case JNumber(n) =>
      DecEncNumber(n, rest);
    case JString(t) =>
      DecEncString(t, rest);
    case JArray(items) =>
      DecEncItems(items, rest);
      TagFront(4, EncItems(items), rest);
      ArrayStep(items, EncItems(items) + rest, rest);
    case JObject(ms) =>
      DecEncMembers(ms, rest);
      TagFront(5, EncMembers(ms), rest);
      ObjectStep(ms, EncMembers(ms) + rest, rest);
  }

  /** An array or an object is its contents behind the tag. */
  lemma ArrayStep(items: seq<Json>, x: JsString, rest: JsString)
    requires DecItems(x) == Some((items, rest))
    ensures DecJson([4] + x) == Some((JArray(items), rest))
  {
    assert ([4] + x)[1..] == x;
  }

  lemma ObjectStep(ms: Members, x: JsString, rest: JsString)
    requires DecMembers(x) == Some((ms, rest))
    ensures DecJson([5] + x) == Some((JObject(ms), rest))
  {
    assert ([5] + x)[1..] == x;
  }

  lemma TagFront(tag: CodeUnit, a: JsString, b: JsString)
    ensures [tag] + a + b == [tag] + (a + b)
  {
  }

  lemma DecEncNull(rest: JsString)
    ensures DecJson(EncJson(JNull) + rest) == Some((JNull, rest))
  {
    assert ([0] + rest)[1..] == rest;
  }

  lemma DecEncBool(b: bool, rest: JsString)
    ensures DecJson(EncJson(JBool(b)) + rest) == Some((JBool(b), rest))
  {
    assert ([1, if b then 1 else 0] + rest)[2..] == rest;
  }

  lemma DecEncNumber(n: int, rest: JsString)
    ensures DecJson(EncJson(JNumber(n)) + rest) == Some((JNumber(n), rest))
  {
    var m: nat := if n >= 0 then n else -n;
    DecEncNat(m, rest);
    assert EncJson(JNumber(n)) == [2, if n >= 0 then 0 else 1] + EncNat(m);
    assert EncJson(JNumber(n)) + rest == [2, if n >= 0 then 0 else 1] + (EncNat(m) + rest);
    NumberStep(n, EncNat(m) + rest, rest);
  }

  lemma DecEncString(t: JsString, rest: JsString)
    ensures DecJson(EncJson(JString(t)) + rest) == Some((JString(t), rest))
  {
    DecEncStr(t, rest);
    var x := EncStr(t) + rest;
    TagFront(3, EncStr(t), rest);
    assert ([3] + x)[1..] == x;
  }

  lemma Regroup(a: JsString, b: JsString, c: JsString, d: JsString)
    ensures [1] + a + b + c + d == [1] + (a + (b + (c + d)))
    ensures [1] + a + b + c == [1] + (a + (b + c))
  {
  }

  /** A number is its sign unit and its magnitude behind the tag. */
  lemma NumberStep(n: int, x: JsString, rest: JsString)
    requires DecNat(x) == Some((if n >= 0 then n else -n, rest))
    ensures DecJson([2, if n >= 0 then 0 else 1] + x) == Some((JNumber(n), rest))
  {
    assert ([2, if n >= 0 then 0 else 1] + x)[2..] == x;
  }

  lemma {:induction false} DecEncItems(items: seq<Json>, rest: JsString)
    ensures DecItems(EncItems(items) + rest) == Some((items, rest))
    decreases items
  {
    if items == [] {
      assert (EncItems(items) + rest)[1..] == rest;
    } else {
      var tail := EncItems(items[1..]) + rest;
      DecEncJson(items[0], tail);
      DecEncItems(items[1..], rest);
      assert EncItems(items) == [1] + EncJson(items[0]) + EncItems(items[1..]);
      Regroup(EncJson(items[0]), EncItems(items[1..]), rest, []);
      ItemsStep(items[0], items[1..], EncJson(items[0]) + tail, tail, rest);
      assert [items[0]] + items[1..] == items;
    }
  }

  /** One more item in front of a list that decodes. */
  lemma ItemsStep(j: Json, items: seq<Json>, x: JsString, y: JsString, rest: JsString)
    requires DecJson(x) == Some((j, y)) && DecItems(y) == Some((items, rest))
    ensures DecItems([1] + x) == Some(([j] + items, rest))
  {
    assert ([1] + x)[1..] == x;
  }

  lemma {:induction false} DecEncMembers(ms: Members, rest: JsString)
    ensures DecMembers(EncMembers(ms) + rest) == Some((ms, rest))
    decreases ms
  {
    if ms == [] {
      assert (EncMembers(ms) + rest)[1..] == rest;
    } else {
      var p := ms[0];
      assert p.1 < p;
      var tail := EncMembers(ms[1..]) + rest;
      var afterKey := EncJson(p.1) + tail;
      DecEncStr(p.0, afterKey);
      DecEncJson(p.1, tail);
      DecEncMembers(ms[1..], rest);
      assert EncMembers(ms) == [1] + EncStr(p.0) + EncJson(p.1) + EncMembers(ms[1..]);
      Regroup(EncStr(p.0), EncJson(p.1), EncMembers(ms[1..]), rest);
      MembersStep(p.0, p.1, ms[1..], EncStr(p.0) + afterKey, afterKey, tail, rest);
      assert [(p.0, p.1)] + ms[1..] == ms;
    }
  }

  /** One more member in front of a list that decodes. */
  lemma MembersStep(k: JsString, v: Json, ms: Members, x: JsString, y: JsString, z: JsString, rest: JsString)
    requires DecStr(x) == Some((k, y)) && DecJson(y) == Some((v, z)) && DecMembers(z) == Some((ms, rest))
    ensures DecMembers([1] + x) == Some(([(k, v)] + ms, rest))
  {
    assert ([1] + x)[1..] == x;
  }

  // ---------------------------------------------------------------------------------------
  // The witness

  function Stringify(m: Members): JsString {
    EncMembers(m)
  }

  /** Reads a whole text as an object, and refuses one JavaScript cannot hold. */
  function Parse(t: JsString): Option<Members> {
    match DecMembers(t)
    case None => None
    case Some((m, rest)) => if rest == [] && WellFormed(JObject(m)) then Some(m) else None
  }

  /** The format reads back every object JavaScript can hold, never writes blank text, and
      reads only such objects. */
  lemma FaithfulSatisfiable()
    ensures PopupView.Faithful(Parse, Stringify)
  {
    forall m: Members | WellFormed(JObject(m))
      ensures Parse(Stringify(m)) == Some(m) && !AllSpace(Stringify(m))
    {
      DecEncMembers(m, []);
      assert EncMembers(m) + [] == EncMembers(m);
      assert !IsSpace(EncMembers(m)[0]);
    }
  }
}
