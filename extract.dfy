/** Ordered first-match field extraction: the `pick` helpers of the message handlers and the
    detail-link search.

    Regular expressions are not interpreted. A `Regex` records a pattern of the program by its
    text, its flags and how many capture groups it has; what `text.match(re)` returns is
    decided by an `Engine` supplied from outside.
 */
module Extract {
  import opened JsText

  datatype Regex = Regex(source: string, flags: string, groupCount: nat)

  /** What `text.match(re)` returns for a non-global `re` when it matches: slot 0 is the whole
      match and `captures[k]` is slot k + 1 (None when that group took no part). */
  datatype MatchArray = MatchArray(whole: JsString, captures: seq<Option<JsString>>)

  type Engine = (Regex, JsString) -> Option<MatchArray>

  /** `m[1]`: undefined unless the pattern has a first capture group that took part. */
  function Group1(re: Regex, m: MatchArray): (g: Option<JsString>)
    ensures re.groupCount == 0 ==> g.None?
  {
    if re.groupCount >= 1 && |m.captures| >= 1 then m.captures[0] else None
  }

  /** The test `m && m[1]` of the source: a match whose first group is a non-empty string. */
  predicate Qualifies(engine: Engine, re: Regex, text: JsString): (b: bool)
    // a rule without a capture group never qualifies: its `m[1]` is undefined
    ensures b ==> re.groupCount >= 1 && engine(re, text).Some?
  {
    var m := engine(re, text);
    m.Some? && Group1(re, m.value).Some? && Group1(re, m.value).value != []
  }

  /** The first group of a qualifying rule. */
  function Capture(engine: Engine, re: Regex, text: JsString): (g: JsString)
    requires Qualifies(engine, re, text)
    ensures g != []
  {
    Group1(re, engine(re, text).value).value
  }

  /** The index of the first rule that qualifies, if any. */
  function FirstQualifying(engine: Engine, rules: seq<Regex>, text: JsString): (k: Option<nat>)
    ensures k.Some? ==> k.value < |rules| && Qualifies(engine, rules[k.value], text)
    ensures k.Some? ==> forall j :: 0 <= j < k.value ==> !Qualifies(engine, rules[j], text)
    ensures k.None? ==> forall j :: 0 <= j < |rules| ==> !Qualifies(engine, rules[j], text)
  {
    if rules == [] then None
    else if Qualifies(engine, rules[0], text) then Some(0)
    else
      match FirstQualifying(engine, rules[1..], text)
      case None => None
      case Some(k) => Some(k + 1)
  }

  /** `pick(rules)`: the trimmed first group of the first qualifying rule, else ''. */
  function PickValue(engine: Engine, rules: seq<Regex>, text: JsString): (r: JsString)
    ensures r != [] ==> !IsSpace(r[0]) && !IsSpace(r[|r| - 1])
  {
    match FirstQualifying(engine, rules, text)
    case None => []
    case Some(k) => Trim(Capture(engine, rules[k], text))
  }

  /** The detail-link search: the first group of the first qualifying rule, untrimmed. */
  function FirstGroupValue(engine: Engine, rules: seq<Regex>, text: JsString): (r: JsString)
    ensures r == [] <==> FirstQualifying(engine, rules, text).None?
  {
    match FirstQualifying(engine, rules, text)
    case None => []
    case Some(k) => Capture(engine, rules[k], text)
  }

  /** The loop of `pick` / `pickFromSearch`: try each rule in order and return on the first
      whose group 1 is non-empty. */
  method Pick(engine: Engine, rules: seq<Regex>, text: JsString) returns (r: JsString)
    ensures r == PickValue(engine, rules, text)
  {
    for i := 0 to |rules|
      invariant forall j :: 0 <= j < i ==> !Qualifies(engine, rules[j], text)
    {
      var m := engine(rules[i], text);
      if m.Some? {
        var g := Group1(rules[i], m.value);
        if g.Some? && g.value != [] {
          FirstQualifyingAt(engine, rules, text, i);
          return Trim(g.value);
        }
      }
    }
    FirstQualifyingAt(engine, rules, text, |rules|);
    return [];
  }

  /** When rule `i` is the first that qualifies, FirstQualifying finds it; when no rule before
      the end qualifies, it finds none. */
  lemma FirstQualifyingAt(engine: Engine, rules: seq<Regex>, text: JsString, i: nat)
    requires i <= |rules|
    requires forall j :: 0 <= j < i ==> !Qualifies(engine, rules[j], text)
    requires i < |rules| ==> Qualifies(engine, rules[i], text)
    ensures FirstQualifying(engine, rules, text) == if i < |rules| then Some(i) else None
  {
    var k := FirstQualifying(engine, rules, text);
    if k.Some? {
      assert k.value >= i;
      if i < |rules| {
        assert !(k.value > i);
      }
    }
  }

  /** The detail-link loop: assigns the first non-empty group 1 and breaks. */
  method FirstGroup(engine: Engine, rules: seq<Regex>, text: JsString) returns (path: JsString)
    ensures path == FirstGroupValue(engine, rules, text)
  {
    path := [];
    var i := 0;
    while i < |rules|
      invariant 0 <= i <= |rules|
      invariant path == []
      invariant forall j :: 0 <= j < i ==> !Qualifies(engine, rules[j], text)
    {
      var m := engine(rules[i], text);
      if m.Some? {
        var g := Group1(rules[i], m.value);
        if g.Some? && g.value != [] {
          FirstQualifyingAt(engine, rules, text, i);
          path := g.value;
          break;
        }
      }
      i := i + 1;
    }
    if path == [] {
      FirstQualifyingAt(engine, rules, text, |rules|);
    }
  }

  // ---------------------------------------------------------------------------------------
  // Properties of the ordered first-match rule

  /** Joining two rule lists: the second list is consulted only when no rule of the first
      qualifies. */
  lemma {:induction false} PickAppend(engine: Engine, a: seq<Regex>, b: seq<Regex>, text: JsString)
    ensures FirstQualifying(engine, a, text).Some? ==>
              PickValue(engine, a + b, text) == PickValue(engine, a, text)
    ensures FirstQualifying(engine, a, text).None? ==>
              PickValue(engine, a + b, text) == PickValue(engine, b, text)
  {
    FirstQualifyingAppend(engine, a, b, text);
    match FirstQualifying(engine, a, text)
    case Some(k) =>
      assert FirstQualifying(engine, a + b, text) == Some(k);
      assert (a + b)[k] == a[k];
      assert PickValue(engine, a + b, text) == Trim(Capture(engine, a[k], text));
    case None =>
      match FirstQualifying(engine, b, text)
      case None =>
        assert FirstQualifying(engine, a + b, text) == None;
      case Some(k) =>
        assert FirstQualifying(engine, a + b, text) == Some(|a| + k);
        assert (a + b)[|a| + k] == b[k];
        assert PickValue(engine, a + b, text) == Trim(Capture(engine, b[k], text));
  }

  lemma {:induction false} FirstQualifyingAppend(engine: Engine, a: seq<Regex>, b: seq<Regex>, text: JsString)
    ensures FirstQualifying(engine, a + b, text) ==
              match FirstQualifying(engine, a, text)
              case Some(k) => Some(k)
              case None =>
                match FirstQualifying(engine, b, text)
                case None => None
                case Some(k) => Some(|a| + k)
  {
    if a == [] {
      assert a + b == b;
    } else if Qualifies(engine, a[0], text) {
      assert (a + b)[0] == a[0];
    } else {
      assert (a + b)[0] == a[0];
      assert (a + b)[1..] == a[1..] + b;
      FirstQualifyingAppend(engine, a[1..], b, text);
    }
  }

  /** A rule with no capture group never contributes: dropping every such rule changes
      nothing. */
  lemma {:induction false} PickIgnoresGrouplessRules(engine: Engine, rules: seq<Regex>, text: JsString)
    ensures PickValue(engine, rules, text) == PickValue(engine, WithGroups(rules), text)
    ensures FirstGroupValue(engine, rules, text) == FirstGroupValue(engine, WithGroups(rules), text)
  {
    GrouplessNeverQualify(engine, rules, text);
  }

  /** The rules that have at least one capture group, in their original order. */
  function WithGroups(rules: seq<Regex>): (r: seq<Regex>)
    ensures |r| <= |rules|
    ensures forall j :: 0 <= j < |r| ==> r[j].groupCount >= 1
  {
    if rules == [] then []
    else if rules[0].groupCount == 0 then WithGroups(rules[1..])
    else [rules[0]] + WithGroups(rules[1..])
  }

  lemma {:induction false} GrouplessNeverQualify(engine: Engine, rules: seq<Regex>, text: JsString)
    ensures var k, k' := FirstQualifying(engine, rules, text), FirstQualifying(engine, WithGroups(rules), text);
            k.None? <==> k'.None?
    ensures var k, k' := FirstQualifying(engine, rules, text), FirstQualifying(engine, WithGroups(rules), text);
            k.Some? && k'.Some? ==> rules[k.value] == WithGroups(rules)[k'.value]
  {
    if rules != [] {
      GrouplessNeverQualify(engine, rules[1..], text);
    }
  }

  /** Removing one rule without a capture group from anywhere in a list changes neither the
      picked value nor the first group found. */
  lemma {:induction false} SkipGroupless(engine: Engine, a: seq<Regex>, r: Regex, b: seq<Regex>, text: JsString)
    requires r.groupCount == 0
    ensures PickValue(engine, a + [r] + b, text) == PickValue(engine, a + b, text)
    ensures FirstGroupValue(engine, a + [r] + b, text) == FirstGroupValue(engine, a + b, text)
  {
    SkipGrouplessRule(engine, a, r, b, text);
  }

  /** Both lists have a first qualifying rule, and it is the same rule, or neither has one. */
  lemma {:induction false} SkipGrouplessRule(engine: Engine, a: seq<Regex>, r: Regex, b: seq<Regex>, text: JsString)
    requires r.groupCount == 0
    ensures var k, k' := FirstQualifying(engine, a + [r] + b, text), FirstQualifying(engine, a + b, text);
            && (k.None? <==> k'.None?)
            && (k.Some? && k'.Some? ==> (a + [r] + b)[k.value] == (a + b)[k'.value])
  {
    FirstQualifyingAppend(engine, a + [r], b, text);
    FirstQualifyingAppend(engine, a, [r], text);
    FirstQualifyingAppend(engine, a, b, text);
    assert FirstQualifying(engine, [r], text).None?;
    match FirstQualifying(engine, a, text)
    case Some(k) =>
      assert (a + [r] + b)[k] == a[k] == (a + b)[k];
    case None =>
      match FirstQualifying(engine, b, text)
      case None =>
      case Some(k) =>
        assert (a + [r] + b)[|a| + 1 + k] == b[k] == (a + b)[|a| + k];
  }

  /** When the first qualifying rule's group is only white space, `pick` yields '' and the
      search still ends there: rules after it are not consulted. */
  lemma BlankCaptureStopsSearch(engine: Engine, rules: seq<Regex>, text: JsString, later: seq<Regex>)
    requires FirstQualifying(engine, rules, text).Some?
    requires AllSpace(Capture(engine, rules[FirstQualifying(engine, rules, text).value], text))
    ensures PickValue(engine, rules + later, text) == []
  {
    FirstQualifyingAppend(engine, rules, later, text);
    var k := FirstQualifying(engine, rules, text).value;
    assert (rules + later)[k] == rules[k];
  }
}
