/** The popup's lookup view: the cards `refresh` resets, the response callbacks that fill them,
    the chaining from the filing lookup to the corporate lookup, and the debug box. */
module PopupView {
  import opened JsText
  import opened TextFormat
  import opened DebugMap
  import Listener

  /** A card: its text and whether it carries the `muted` class. */
  datatype Card = Card(text: JsString, muted: bool)

  const Dash := Lit("-")

  /** `setText`: an empty value shows '-' and is muted; any other value shows as it is. */
  function ShowText(t: JsString): (c: Card)
    ensures c.muted <==> t == []
    ensures c.text != []
    ensures t != [] ==> c.text == t
  {
    if t == [] then Card(Dash, true) else Card(t, false)
  }

  const AizhanSource := Lit("aizhan")
  const AiqichaSource := Lit("aiqicha")
  const AizhanErrorKey := Lit("aizhanError")

  /** The filing response as the callback reads it; an absent field is ''. */
  datatype FilingView = FilingView(source: JsString, company: JsString, icpNumber: JsString,
                                   icpStatus: JsString, debug: Option<Json>)

  /** The corporate response as the callback reads it; an absent field is ''. */
  datatype CorporateView = CorporateView(source: JsString, legal: JsString, capital: JsString,
                                         phone: JsString, email: JsString, debug: Option<Json>)

  function ResolveTargetRequest(host: JsString): Listener.Message {
    Listener.Message(Listener.ResolveTargetKind, host, [], [], [])
  }

  function QueryAizhanRequest(q: JsString): Listener.Message {
    Listener.Message(Listener.QueryAizhanKind, [], [], [], q)
  }

  function QueryIcpRequest(q: JsString): Listener.Message {
    Listener.Message(Listener.QueryIcpKind, [], [], [], q)
  }

  /** The initial debug object of the corporate callback: `{ aizhan, aiqicha }`, where an
      absent filing debug record is dropped by `JSON.stringify`. */
  function CorporateDebugInitial(filingDebug: Option<Json>, d: Json): (m: Members)
    ensures Keys(m) == (if filingDebug.Some? then [AizhanSource] else []) + [AiqichaSource]
  {
    (if filingDebug.Some? then [(AizhanSource, filingDebug.value)] else []) + [(AiqichaSource, d)]
  }

  /** The cards of the popup. */
  datatype Cards = Cards(host: Card, ip: Card, company: Card, legal: Card, capital: Card, phone: Card,
                         email: Card, icpCompany: Card, icpNumber: Card, icpStatus: Card)

  /** The debug box's text and whether it is displayed; the debug toggle, whether it is
      displayed and whether it carries the `expanded` class. */
  datatype DebugBox = DebugBox(text: JsString, shown: bool, toggleShown: bool, toggleExpanded: bool)

  /** `if (v) setText(el, shown)`: a card changes only for a non-empty value. */
  function Overwrite(c: Card, v: JsString, shown: JsString): (r: Card)
    ensures v == [] ==> r == c
    ensures v != [] ==> r == ShowText(shown)
  {
    if v != [] then ShowText(shown) else c
  }

  /** A merge: the toggle is displayed and the box takes the merged text. */
  function Merged(box: DebugBox, text: JsString): (r: DebugBox)
    ensures r.text == text && r.toggleShown
    ensures r.shown == box.shown && r.toggleExpanded == box.toggleExpanded
  {
    box.(text := text, toggleShown := true)
  }

  class LookupView {
    var cards: Cards
    var debug: DebugBox

    /** The view before any lookup: every card empty, the debug box empty and hidden. */
    constructor ()
      ensures var e := ShowText([]); cards == Cards(e, e, e, e, e, e, e, e, e, e)
      ensures debug == DebugBox([], false, false, false)
    {
      var e := ShowText([]);
      cards := Cards(e, e, e, e, e, e, e, e, e, e);
      debug := DebugBox([], false, false, false);
    }

    /** `refresh`: show the trimmed query as the host, reset the other cards except the ICP
        company, clear and hide the debug box, and send the DNS and filing lookups. */
    method Refresh(input: JsString) returns (sent: seq<Listener.Message>)
      modifies this
      ensures var e := ShowText([]);
              cards == Cards(ShowText(Trim(input)), e, e, e, e, e, e, old(cards).icpCompany, e, e)
      ensures debug == DebugBox([], false, false, false)
      ensures sent == [ResolveTargetRequest(Trim(input)), QueryAizhanRequest(Trim(input))]
    {
      var q := Trim(input);
      var e := ShowText([]);
      cards := cards.(host := ShowText(q));
      cards := cards.(ip := e, company := e, legal := e, capital := e, phone := e, email := e);
      cards := cards.(icpNumber := e, icpStatus := e);
      debug := debug.(shown := false, text := []);
      debug := debug.(toggleShown := false, toggleExpanded := false);
      sent := [ResolveTargetRequest(q), QueryAizhanRequest(q)];
    }

    /** The DNS callback: `r && r.ip` shown on the IP card ('' for no reply). */
    method OnDnsReply(ipText: JsString)
      modifies this
      ensures cards == old(cards).(ip := ShowText(ipText))
      ensures debug == old(debug)
    {
      cards := cards.(ip := ShowText(ipText));
    }

    /** The filing callback. Only an `aizhan` response is used; a non-empty company fills both
        company cards (decoded) and sends the corporate lookup with the company as received;
        number and status overwrite their cards only when non-empty; a debug record is merged
        under `aizhan`. */
    method OnFilingReply(r: Option<FilingView>, parse: Parser, stringify: Stringifier)
      returns (sent: seq<Listener.Message>)
      modifies this
      ensures var use := r.Some? && r.value.source == AizhanSource;
              sent == if use && r.value.company != [] then [QueryIcpRequest(r.value.company)] else []
      ensures r.Some? && r.value.source == AizhanSource ==>
                var f := r.value;
                var shown := DecodeUnicode(f.company);
                cards == old(cards).(icpCompany := Overwrite(old(cards).icpCompany, f.company, shown),
                                     company := Overwrite(old(cards).company, f.company, shown),
                                     icpNumber := Overwrite(old(cards).icpNumber, f.icpNumber, f.icpNumber),
                                     icpStatus := Overwrite(old(cards).icpStatus, f.icpStatus, f.icpStatus))
      ensures !(r.Some? && r.value.source == AizhanSource) ==> cards == old(cards)
      ensures debug == if r.Some? && r.value.source == AizhanSource && r.value.debug.Some? then
                         Merged(old(debug), Merge(old(debug).text, parse, stringify, AizhanSource, r.value.debug.value,
                                                  [(AizhanSource, r.value.debug.value)]))
                       else old(debug)
    {
      sent := [];
      if r.Some? && r.value.source == AizhanSource {
        var f := r.value;
        if f.company != [] {
          cards := cards.(icpCompany := ShowText(DecodeUnicode(f.company)));
          cards := cards.(company := ShowText(DecodeUnicode(f.company)));
          sent := [QueryIcpRequest(f.company)];
        }
        if f.icpNumber != [] {
          cards := cards.(icpNumber := ShowText(f.icpNumber));
        }
        if f.icpStatus != [] {
          cards := cards.(icpStatus := ShowText(f.icpStatus));
        }
        if f.debug.Some? {
          var text := Merge(debug.text, parse, stringify, AizhanSource, f.debug.value, [(AizhanSource, f.debug.value)]);
          debug := debug.(toggleShown := true);
          debug := debug.(text := text);
        }
      }
    }

    /** The filing lookup's `catch`: `String(error)` is merged under `aizhanError`. */
    method OnFilingError(error: JsString, parse: Parser, stringify: Stringifier)
      modifies this
      ensures cards == old(cards)
      ensures debug == Merged(old(debug), Merge(old(debug).text, parse, stringify, AizhanErrorKey, JString(error),
                                                [(AizhanErrorKey, JString(error))]))
    {
      var text := Merge(debug.text, parse, stringify, AizhanErrorKey, JString(error), [(AizhanErrorKey, JString(error))]);
      debug := debug.(toggleShown := true);
      debug := debug.(text := text);
    }

    /** The corporate callback, with the filing response's debug record it closes over. Only
        an `aiqicha` response is used; each non-empty detail overwrites its card (the legal
        representative decoded, the capital formatted); a debug record is merged under
        `aiqicha`. A missing response throws before changing anything. */
    method OnCorporateReply(filingDebug: Option<Json>, a: Option<CorporateView>, parse: Parser,
                            stringify: Stringifier, render: Renderer)
      modifies this
      ensures a.Some? && a.value.source == AiqichaSource ==>
                var c := a.value;
                cards == old(cards).(legal := Overwrite(old(cards).legal, c.legal, DecodeUnicode(c.legal)),
                                     capital := Overwrite(old(cards).capital, c.capital, FormatCapital(c.capital, render)),
                                     phone := Overwrite(old(cards).phone, c.phone, c.phone),
                                     email := Overwrite(old(cards).email, c.email, c.email))
      ensures !(a.Some? && a.value.source == AiqichaSource) ==> cards == old(cards)
      ensures debug == if a.Some? && a.value.source == AiqichaSource && a.value.debug.Some? then
                         Merged(old(debug), Merge(old(debug).text, parse, stringify, AiqichaSource, a.value.debug.value,
                                                  CorporateDebugInitial(filingDebug, a.value.debug.value)))
                       else old(debug)
    {
      if a.Some? && a.value.source == AiqichaSource {
        var c := a.value;
        if c.legal != [] {
          cards := cards.(legal := ShowText(DecodeUnicode(c.legal)));
        }
        if c.capital != [] {
          cards := cards.(capital := ShowText(FormatCapital(c.capital, render)));
        }
        if c.phone != [] {
          cards := cards.(phone := ShowText(c.phone));
        }
        if c.email != [] {
          cards := cards.(email := ShowText(c.email));
        }
        if c.debug.Some? {
          var text := Merge(debug.text, parse, stringify, AiqichaSource, c.debug.value,
                            CorporateDebugInitial(filingDebug, c.debug.value));
          debug := debug.(toggleShown := true);
          debug := debug.(text := text);
        }
      }
    }
  }

  // ---------------------------------------------------------------------------------------
  // Properties of the view across callbacks

  /** `JSON.parse` reads back what `JSON.stringify` wrote for any object JavaScript can hold
      (`WellFormed`: distinct keys in JavaScript's order and exact numbers at every depth), and
      what it wrote is never blank; an object it parses is one JavaScript can hold (a key
      written twice keeps its last value). */
  ghost predicate Faithful(parse: Parser, stringify: Stringifier) {
    && (forall m: Members :: WellFormed(JObject(m)) ==> parse(stringify(m)) == Some(m) && !AllSpace(stringify(m)))
    && (forall t: JsString :: parse(t).Some? ==> WellFormed(JObject(parse(t).value)))
  }

  /** The keys the popup merges under are property names, not array indices. */
  lemma SourceKeysAreNames()
    ensures !IsIndexKey(AizhanSource) && !IsIndexKey(AiqichaSource) && !IsIndexKey(AizhanErrorKey)
  {
    assert AizhanSource[0] == 0x61 && AiqichaSource[0] == 0x61 && AizhanErrorKey[0] == 0x61;
  }

  /** The corporate callback's initial object is one JavaScript can hold when the records in
      it are. */
  lemma CorporateDebugInitialWellFormed(filingDebug: Option<Json>, d: Json)
    requires filingDebug.Some? ==> WellFormed(filingDebug.value)
    requires WellFormed(d)
    ensures WellFormed(JObject(CorporateDebugInitial(filingDebug, d)))
  {
    var m := CorporateDebugInitial(filingDebug, d);
    SourceKeysAreNames();
    assert AizhanSource[2] != AiqichaSource[2];
    assert forall i :: 0 <= i < |m| ==> m[i].0 == Keys(m)[i];
  }

  /** Two successive merges, under different keys, leave both values in the box: the debug
      record merged first (the filing one) survives the second (the corporate one). The keys
      are property names, not array indices, as `aizhan` and `aiqicha` are. */
  lemma MergesAccumulate(current: JsString, parse: Parser, stringify: Stringifier,
                         k1: JsString, v1: Json, initial1: Members,
                         k2: JsString, v2: Json, initial2: Members)
    requires Faithful(parse, stringify)
    requires WellFormed(JObject(initial1)) && WellFormed(v2)
    requires !IsIndexKey(k1) && !IsIndexKey(k2)
    requires k1 != k2 && Get(initial1, k1) == Some(v1)
    ensures var t1 := Merge(current, parse, stringify, k1, v1, initial1);
            var t2 := Merge(t1, parse, stringify, k2, v2, initial2);
            && parse(t2).Some?
            && Get(parse(t2).value, k1) == Some(v1)
            && Get(parse(t2).value, k2) == Some(v2)
  {
    var t1 := Merge(current, parse, stringify, k1, v1, initial1);
    GetWellFormed(initial1, k1);
    var m1: Members :| t1 == stringify(m1) && WellFormed(JObject(m1)) && Get(m1, k1) == Some(v1) by {
      if !AllSpace(current) && parse(current).Some? {
        PutGetSame(parse(current).value, k1, v1);
        PutWellFormed(parse(current).value, k1, v1);
      }
    }
    assert parse(t1) == Some(m1);
    var m2 := Put(m1, k2, v2);
    assert Merge(t1, parse, stringify, k2, v2, initial2) == stringify(m2);
    PutWellFormed(m1, k2, v2);
    PutGetSame(m1, k2, v2);
    PutGetOther(m1, k2, v2, k1);
  }
}
