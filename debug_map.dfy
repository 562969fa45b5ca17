/** The popup's debug record: a JSON object kept as text in the debug box, merged key by key
    as the lookups answer. */
module DebugMap {
  import opened JsText

  /** A JSON value, as received from the background handlers. */
  datatype Json =
    | JNull
    | JBool(b: bool)
      /** The debug records carry only integers: statuses and lengths. */
    | JNumber(n: int)
    | JString(s: JsString)
    | JArray(items: seq<Json>)
    | JObject(members: seq<(JsString, Json)>)

  /** The own properties of an object, in order. */
  type Members = seq<(JsString, Json)>

  /** `JSON.parse` of the box's text followed by the spread `{ ...obj }`: the members it
      copies, or None when parsing throws. */
  type Parser = JsString -> Option<Members>

  /** `JSON.stringify(obj, null, 2)`. */
  type Stringifier = Members -> JsString

  function Keys(m: Members): (ks: seq<JsString>)
    ensures |ks| == |m|
    ensures forall i :: 0 <= i < |m| ==> ks[i] == m[i].0
  {
    if m == [] then [] else [m[0].0] + Keys(m[1..])
  }

  /** No key appears twice, as in any JavaScript object. */
  predicate UniqueKeys(m: Members) {
    forall i, j :: 0 <= i < j < |m| ==> m[i].0 != m[j].0
  }

  /** A key JavaScript treats as an array index: the canonical decimal numeral (no sign, no
      leading zero) of an integer below 2^32 - 1. */
  predicate IsIndexKey(k: JsString) {
    && k != [] && AllDigits(k)
    && (k[0] != 0x30 || |k| == 1)
    && DigitsValue(k) < 0xFFFF_FFFF
  }

  /** The order of an object's own keys: the array indices first, ascending, then the other
      keys (in the order they were created). */
  predicate IndexKeysFirst(m: Members) {
    forall i, j :: 0 <= i < j < |m| && IsIndexKey(m[j].0) ==>
      IsIndexKey(m[i].0) && DigitsValue(m[i].0) < DigitsValue(m[j].0)
  }

  /** A magnitude below 2^53 times some power of two: a significand a double can hold. */
  predicate FitsSignificand(a: nat)
    decreases a
  {
    a < 0x20_0000_0000_0000 || (a % 2 == 0 && FitsSignificand(a / 2))
  }

  /** An integer a finite JavaScript number holds exactly. */
  predicate IsDoubleInteger(n: int) {
    var a := if n < 0 then -n else n;
    a < Pow(2, 1024) && FitsSignificand(a)
  }

  /** A value JavaScript can hold: every object at every depth has distinct keys in the order
      JavaScript keeps them, and every number is an exact double. */
  predicate WellFormed(j: Json)
    decreases j
  {
    match j
    case JNull => true
    case JBool(_) => true
    case JNumber(n) => IsDoubleInteger(n)
    case JString(_) => true
    case JArray(items) => forall i :: 0 <= i < |items| ==> WellFormed(items[i])
    case JObject(ms) =>
      && UniqueKeys(ms) && IndexKeysFirst(ms)
      && forall i :: 0 <= i < |ms| ==> WellFormed(ms[i].1)
  }

  /** An object nested in a value may not repeat a key either. */
  lemma NestedRepeatNotWellFormed(a: JsString, x: JsString)
    ensures !WellFormed(JObject([(a, JObject([(x, JNull), (x, JNull)]))]))
  {
    var inner := [(x, JNull), (x, JNull)];
    assert !UniqueKeys(inner) by { assert inner[0].0 == inner[1].0; }
    var outer := [(a, JObject(inner))];
    assert outer[0].1 == JObject(inner);
  }

  /** The value of property `k`. */
  function Get(m: Members, k: JsString): (v: Option<Json>)
    ensures v.None? <==> forall i :: 0 <= i < |m| ==> m[i].0 != k
    ensures v.Some? ==> exists i :: 0 <= i < |m| && m[i] == (k, v.value)
  {
    if m == [] then None
    else if m[0].0 == k then Some(m[0].1)
    else
      var v := Get(m[1..], k);
      assert forall i :: 1 <= i < |m| ==> m[i] == m[1..][i - 1];
      v
  }

  /** `{ ...m, [k]: v }`: an existing property keeps its place and takes the new value; a new
      one goes last. */
  function Put(m: Members, k: JsString, v: Json): (r: Members)
    ensures k in Keys(m) ==> Keys(r) == Keys(m)
    ensures k !in Keys(m) ==> Keys(r) == Keys(m) + [k]
  {
    if m == [] then [(k, v)]
    else if m[0].0 == k then [(k, v)] + m[1..]
    else [m[0]] + Put(m[1..], k, v)
  }

  /** The new value is in place. */
  lemma {:induction false} PutGetSame(m: Members, k: JsString, v: Json)
    ensures Get(Put(m, k, v), k) == Some(v)
  {
    if m != [] && m[0].0 != k {
      var r := Put(m, k, v);
      assert r[1..] == Put(m[1..], k, v);
      PutGetSame(m[1..], k, v);
    }
  }

  /** Every other property keeps its value. */
  lemma {:induction false} PutGetOther(m: Members, k: JsString, v: Json, other: JsString)
    requires other != k
    ensures Get(Put(m, k, v), other) == Get(m, other)
  {
    if m != [] {
      var r := Put(m, k, v);
      if m[0].0 == k {
        assert r[1..] == m[1..];
      } else {
        assert r[1..] == Put(m[1..], k, v);
        PutGetOther(m[1..], k, v, other);
      }
    }
  }

  /** Setting a property never duplicates a key. */
  lemma PutUnique(m: Members, k: JsString, v: Json)
    requires UniqueKeys(m)
    ensures UniqueKeys(Put(m, k, v))
  {
    var r := Put(m, k, v);
    assert forall i :: 0 <= i < |r| ==> r[i].0 == Keys(r)[i];
    if k !in Keys(m) {
      assert forall i :: 0 <= i < |m| ==> r[i].0 == m[i].0;
      assert r[|m|].0 == k;
    } else {
      assert forall i :: 0 <= i < |m| ==> r[i].0 == m[i].0;
    }
  }

  /** Each member after a `Put` is the new one or the member that was at its place. */
  lemma {:induction false} PutMembers(m: Members, k: JsString, v: Json)
    ensures var r := Put(m, k, v);
            forall i :: 0 <= i < |r| ==> r[i] == (k, v) || (i < |m| && r[i] == m[i])
  {
    if m != [] && m[0].0 != k {
      PutMembers(m[1..], k, v);
      var r := Put(m, k, v);
      assert r == [m[0]] + Put(m[1..], k, v);
      forall i | 1 <= i < |r|
        ensures r[i] == (k, v) || (i < |m| && r[i] == m[i])
      {
        assert r[i] == Put(m[1..], k, v)[i - 1];
        if i - 1 < |m[1..]| {
          assert m[1..][i - 1] == m[i];
        }
      }
    }
  }

  /** Setting a well-formed value under a key that is not an array index keeps the object a
      JavaScript object, key order included. */
  lemma PutWellFormed(m: Members, k: JsString, v: Json)
    requires WellFormed(JObject(m)) && WellFormed(v) && !IsIndexKey(k)
    ensures WellFormed(JObject(Put(m, k, v)))
  {
    var r := Put(m, k, v);
    PutUnique(m, k, v);
    PutKeyOrder(m, k, v);
    PutMembers(m, k, v);
    forall i | 0 <= i < |r|
      ensures WellFormed(r[i].1)
    {
      if r[i] != (k, v) {
        assert WellFormed(m[i].1);
      }
    }
  }

  /** Setting a key that is not an array index keeps the order JavaScript gives keys. */
  lemma PutKeyOrder(m: Members, k: JsString, v: Json)
    requires IndexKeysFirst(m) && !IsIndexKey(k)
    ensures IndexKeysFirst(Put(m, k, v))
  {
    var r := Put(m, k, v);
    assert forall i :: 0 <= i < |r| ==> r[i].0 == Keys(r)[i];
    assert forall i :: 0 <= i < |m| ==> r[i].0 == m[i].0;
  }

  /** A member of a well-formed object is well formed. */
  lemma GetWellFormed(m: Members, k: JsString)
    requires WellFormed(JObject(m)) && Get(m, k).Some?
    ensures WellFormed(Get(m, k).value)
  {
    var i :| 0 <= i < |m| && m[i] == (k, Get(m, k).value);
    assert WellFormed(m[i].1);
  }

  /** Writing the same property twice keeps only the second value. */
  lemma {:induction false} PutPut(m: Members, k: JsString, v: Json, w: Json)
    ensures Put(Put(m, k, v), k, w) == Put(m, k, w)
  {
    if m != [] && m[0].0 != k {
      PutPut(m[1..], k, v, w);
    }
  }

  /** The debug-box update: when the box holds non-blank text that parses, that object with
      the one property `k` set; otherwise (blank text or a parse error) the initial object. */
  function Merge(current: JsString, parse: Parser, stringify: Stringifier, k: JsString, v: Json, initial: Members): (r: JsString)
    ensures AllSpace(current) ==> r == stringify(initial)
    ensures !AllSpace(current) && parse(current).None? ==> r == stringify(initial)
    ensures !AllSpace(current) && parse(current).Some? ==> r == stringify(Put(parse(current).value, k, v))
  {
    if current != [] && Trim(current) != [] then
      match parse(current)
      case Some(obj) => stringify(Put(obj, k, v))
      case None => stringify(initial)
    else stringify(initial)
  }
}
