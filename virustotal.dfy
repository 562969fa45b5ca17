/** The `queryVirusTotal` handler: VirusTotal's v3 API when a key is given, with a scrape of
    the public domain page as the fallback tier. */
module VirusTotal {
  import opened JsText
  import opened Extract
  import opened Fetch

  datatype Verdict = Malicious | Clean {
    function Name(): JsString {
      match this
      case Malicious => Lit("Malicious")
      case Clean => Lit("Clean")
    }
  }

  /** A number this handler stores: an integer, or the NaN a failed `parseInt` gives. */
  datatype Num = Int(value: int) | NaN

  /** `count > 0 ? 'Malicious' : 'Clean'` (NaN > 0 is false). */
  function StatusOf(count: Num): Verdict {
    if count.Int? && count.value > 0 then Malicious else Clean
  }

  datatype Detection = Detection(maliciousCount: Num, totalEngines: Num, status: Verdict)

  /** One value of `last_analysis_results`: null, or an object whose `result` is kept as a
      string ('' standing for every falsy value). */
  datatype EngineValue = NullEntry | Entry(result: JsString)

  datatype EngineResult = EngineResult(engineName: JsString, value: EngineValue)

  /** `data.attributes` of the API's JSON body. Each `Option` is None when the field is absent;
      `whois` is `attributes.whois || ''`; `results` lists `Object.entries` in order. */
  datatype VtAttributes = VtAttributes(
    malicious: Option<int>,
    undetected: Option<int>,
    harmless: Option<int>,
    whois: JsString,
    lastAnalysisDate: Option<int>,
    results: seq<EngineResult>)

  /** `JSON.parse` of the body and the walk down to `attributes`; the message of the
      exception when that throws. */
  datatype Decoded = Decoded(attributes: VtAttributes) | DecodeThrew(message: JsString)

  type ApiDecoder = JsString -> Decoded

  /** `new Date(seconds * 1000).toLocaleString()`. */
  type DateRenderer = int -> JsString

  datatype Vendor = Vendor(name: JsString, result: JsString)

  /** The optional fields of the reply; None where the handler never assigned them. */
  datatype VtFields = VtFields(
    detection: Option<Detection>,
    registrar: Option<JsString>,
    creationDate: Option<JsString>,
    lastAnalysis: Option<JsString>,
    vendors: Option<seq<Vendor>>)

  const NoFields := VtFields(None, None, None, None, None)

  datatype VtDebug = VtDebug(
    domain: JsString,
    apiKeyProvided: bool,
    apiUsed: bool,
    apiStatus: int,
    apiResponseLength: nat,
    apiResponseSample: JsString,
    htmlLength: nat,
    htmlSample: JsString,
    error: Option<JsString>)

  datatype VtReply =
    | VtReport(domain: JsString, fields: VtFields, debug: VtDebug)
      /** The outer `catch`: `error` is `String(error)`, repeated as the whole debug record. */
    | VtFailure(domain: JsString, error: JsString)

  const RegistrarRe := Regex(@"Registrar:\s*([^\n\r]+)", "i", 1)
  const CreationRe := Regex(@"Creation Date:\s*([^\n\r]+)", "i", 1)
  const MaliciousRe := Regex(@"""malicious"":\s*(\d+)", "", 1)
  const TotalRe := Regex(@"""total"":\s*(\d+)", "", 1)

  const ParseErrorPrefix := Lit("API JSON parse error: ")
  /** V8's messages for `undefined.trim()` and `null.result`. */
  const TrimOfUndefined := Lit("Cannot read properties of undefined (reading 'trim')")
  const ResultOfNull := Lit("Cannot read properties of null (reading 'result')")

  function ApiUrl(encodedDomain: JsString): JsString {
    Lit("https://www.virustotal.com/api/v3/domains/") + encodedDomain
  }

  function GuiUrl(encodedDomain: JsString): JsString {
    Lit("https://www.virustotal.com/gui/domain/") + encodedDomain
  }

  /** `x || 0`. */
  function OrZero(x: Option<int>): int {
    if x.Some? then x.value else 0
  }

  /** The counts and the verdict the API tier derives from `last_analysis_stats`. */
  function ApiDetection(a: VtAttributes): (d: Detection)
    ensures d.maliciousCount == Int(OrZero(a.malicious))
    ensures d.totalEngines == Int(OrZero(a.malicious) + OrZero(a.undetected) + OrZero(a.harmless))
    ensures d.status == Malicious <==> OrZero(a.malicious) > 0
  {
    var m := OrZero(a.malicious);
    Detection(Int(m), Int(m + OrZero(a.undetected) + OrZero(a.harmless)), StatusOf(Int(m)))
  }

  /** `Object.entries(results).map(([name, data]) => ({name, result: data.result || 'Unknown'}))`;
      None when an entry is null, where reading `.result` throws. */
  function VendorList(results: seq<EngineResult>): (vs: Option<seq<Vendor>>)
    ensures vs.None? <==> exists i :: 0 <= i < |results| && results[i].value.NullEntry?
    ensures vs.Some? ==> |vs.value| == |results|
    ensures vs.Some? ==> forall i :: 0 <= i < |results| ==>
              && vs.value[i].name == results[i].engineName
              && vs.value[i].result == (if results[i].value.result == [] then Lit("Unknown")
                                        else results[i].value.result)
  {
    if results == [] then Some([])
    else
      var e := results[0];
      match VendorList(results[1..])
      case None =>
        assert exists i :: 1 <= i < |results| && results[i].value.NullEntry? by {
          var i :| 0 <= i < |results[1..]| && results[1..][i].value.NullEntry?;
          assert results[i + 1] == results[1..][i];
        }
        None
      case Some(rest) =>
        assert forall i :: 1 <= i < |results| ==> results[i] == results[1..][i - 1];
        if e.value.NullEntry? then None
        else Some([Vendor(e.engineName, if e.value.result == [] then Lit("Unknown") else e.value.result)] + rest)
  }

  /** `whois.match(re)` followed by `m[1].trim()`. */
  datatype WhoisField = Absent | Found(value: JsString) | GroupMissing

  function WhoisMatch(engine: Engine, re: Regex, whois: JsString): (f: WhoisField)
    ensures f.Found? ==>
              engine(re, whois).Some? && Group1(re, engine(re, whois).value).Some? &&
              f.value == Trim(Group1(re, engine(re, whois).value).value)
    ensures f.Absent? <==> engine(re, whois).None?
  {
    match engine(re, whois)
    case None => Absent
    case Some(m) =>
      match Group1(re, m)
      case None => GroupMissing
      case Some(g) => Found(Trim(g))
  }

  /** What the field assignments of the API tier leave in `result` once the body decoded, and
      the message of the exception that stops them early, if any. */
  datatype ApiStage = ApiStage(fields: VtFields, thrown: Option<JsString>)

  function ApiStageOf(engine: Engine, renderDate: DateRenderer, a: VtAttributes): (st: ApiStage)
    // the counts and the status are assigned before anything can throw
    ensures st.fields.detection == Some(ApiDetection(a))
    ensures st.thrown.None? <==>
              && !WhoisMatch(engine, RegistrarRe, a.whois).GroupMissing?
              && !WhoisMatch(engine, CreationRe, a.whois).GroupMissing?
              && VendorList(a.results).Some?
    ensures st.thrown.None? ==> st.fields.vendors == VendorList(a.results)
    ensures st.thrown.Some? ==> st.fields.vendors.None?
    ensures st.fields.registrar.Some? <==> WhoisMatch(engine, RegistrarRe, a.whois).Found?
    ensures st.fields.registrar.Some? ==> st.fields.registrar.value == WhoisMatch(engine, RegistrarRe, a.whois).value
    ensures st.fields.lastAnalysis.Some? ==>
              a.lastAnalysisDate.Some? && a.lastAnalysisDate.value != 0 &&
              st.fields.lastAnalysis.value == renderDate(a.lastAnalysisDate.value)
  {
    var withCounts := NoFields.(detection := Some(ApiDetection(a)));
    var reg := WhoisMatch(engine, RegistrarRe, a.whois);
    if reg.GroupMissing? then ApiStage(withCounts, Some(TrimOfUndefined))
    else
      var withRegistrar := if reg.Found? then withCounts.(registrar := Some(reg.value)) else withCounts;
      var cre := WhoisMatch(engine, CreationRe, a.whois);
      if cre.GroupMissing? then ApiStage(withRegistrar, Some(TrimOfUndefined))
      else
        var withCreation := if cre.Found? then withRegistrar.(creationDate := Some(cre.value)) else withRegistrar;
        var withDate :=
          if a.lastAnalysisDate.Some? && a.lastAnalysisDate.value != 0
          then withCreation.(lastAnalysis := Some(renderDate(a.lastAnalysisDate.value)))
          else withCreation;
        match VendorList(a.results)
        case None => ApiStage(withDate, Some(ResultOfNull))
        case Some(vs) => ApiStage(withDate.(vendors := Some(vs)), None)
  }

  /** Which dates the API stage fills in: the creation date once the registrar line did not
      throw and the creation line matched; the analysis date once both whois lines are past,
      and only for a non-zero date. */
  lemma ApiStageDates(engine: Engine, renderDate: DateRenderer, a: VtAttributes)
    ensures var st := ApiStageOf(engine, renderDate, a);
            && (st.fields.creationDate.Some? <==>
                  && !WhoisMatch(engine, RegistrarRe, a.whois).GroupMissing?
                  && WhoisMatch(engine, CreationRe, a.whois).Found?)
            && (st.fields.creationDate.Some? ==>
                  st.fields.creationDate.value == WhoisMatch(engine, CreationRe, a.whois).value)
            && (st.fields.lastAnalysis.Some? <==>
                  && !WhoisMatch(engine, RegistrarRe, a.whois).GroupMissing?
                  && !WhoisMatch(engine, CreationRe, a.whois).GroupMissing?
                  && a.lastAnalysisDate.Some? && a.lastAnalysisDate.value != 0)
  {
  }

  /** How the API tier ends for its response: whether it answered, what it left in `result`,
      and the error it recorded in the debug record. */
  datatype ApiOutcome = ApiOutcome(answered: bool, fields: VtFields, error: Option<JsString>)

  function ApiOutcomeOf(engine: Engine, decode: ApiDecoder, renderDate: DateRenderer, res: FetchOutcome): (o: ApiOutcome)
    ensures !(res.ok && res.text != []) ==> o == ApiOutcome(false, NoFields, None)
    ensures o.answered <==>
              res.ok && res.text != [] && decode(res.text).Decoded? &&
              ApiStageOf(engine, renderDate, decode(res.text).attributes).thrown.None?
    ensures o.answered ==> o.error.None? && o.fields.detection.Some? && o.fields.vendors.Some?
    ensures res.ok && res.text != [] && decode(res.text).DecodeThrew? ==>
              o == ApiOutcome(false, NoFields, Some(ParseErrorPrefix + decode(res.text).message))
    ensures !o.answered && o.fields.detection.Some? ==>
              o.error.Some? && o.fields.detection == Some(ApiDetection(decode(res.text).attributes))
  {
    if !(res.ok && res.text != []) then ApiOutcome(false, NoFields, None)
    else
      match decode(res.text)
      case DecodeThrew(msg) => ApiOutcome(false, NoFields, Some(ParseErrorPrefix + msg))
      case Decoded(a) =>
        var st := ApiStageOf(engine, renderDate, a);
        match st.thrown
        case None => ApiOutcome(true, st.fields, None)
        case Some(msg) => ApiOutcome(false, st.fields, Some(ParseErrorPrefix + msg))
  }

  /** `parseInt(m[1])` for a matched count (undefined parses to NaN). */
  function ParseCount(re: Regex, m: MatchArray): Num {
    match Group1(re, m)
    case None => NaN
    case Some(g) =>
      match ParseInt(g)
      case None => NaN
      case Some(v) => Int(v)
  }

  /** A count whose group is a non-empty run of decimal digits is the value of those digits;
      a missing group is NaN. */
  lemma ParseCountDigits(re: Regex, m: MatchArray)
    ensures Group1(re, m).None? ==> ParseCount(re, m) == NaN
    ensures Group1(re, m).Some? && Group1(re, m).value != [] && AllDigits(Group1(re, m).value) ==>
              ParseCount(re, m) == Int(DigitsValue(Group1(re, m).value))
  {
    if Group1(re, m).Some? && Group1(re, m).value != [] && AllDigits(Group1(re, m).value) {
      ParseIntDigits(Group1(re, m).value);
    }
  }

  /** The HTML tier's counts: present only when both the `"malicious"` and the `"total"`
      patterns match. */
  function HtmlDetection(engine: Engine, html: JsString): (d: Option<Detection>)
    ensures d.Some? <==> engine(MaliciousRe, html).Some? && engine(TotalRe, html).Some?
    ensures d.Some? ==> d.value.status == StatusOf(d.value.maliciousCount)
    ensures d.Some? ==> d.value.maliciousCount == ParseCount(MaliciousRe, engine(MaliciousRe, html).value)
    ensures d.Some? ==> d.value.totalEngines == ParseCount(TotalRe, engine(TotalRe, html).value)
  {
    match (engine(MaliciousRe, html), engine(TotalRe, html))
    case (Some(mm), Some(tm)) =>
      var count := ParseCount(MaliciousRe, mm);
      Some(Detection(count, ParseCount(TotalRe, tm), StatusOf(count)))
    case _ => None
  }

  /** The HTML tier replaces the detection fields when, and only when, the page was fetched
      and both counts were found; every other field is kept. */
  function HtmlOverlay(engine: Engine, fields: VtFields, page: FetchOutcome): (r: VtFields)
    ensures r.(detection := fields.detection) == fields
    ensures page.ok && page.text != [] && HtmlDetection(engine, page.text).Some? ==>
              r.detection == HtmlDetection(engine, page.text)
    ensures !(page.ok && page.text != [] && HtmlDetection(engine, page.text).Some?) ==> r == fields
  {
    if page.ok && page.text != [] && HtmlDetection(engine, page.text).Some?
    then fields.(detection := HtmlDetection(engine, page.text))
    else fields
  }

  /** The API tier once the response is in: parse the body, then assign the counts, the whois
      fields, the analysis date and the vendor list one after another; an exception on the way
      leaves what was already assigned and records its message. */
  method ApiTier(engine: Engine, decode: ApiDecoder, renderDate: DateRenderer, res: FetchOutcome)
    returns (fields: VtFields, error: Option<JsString>, answered: bool)
    ensures ApiOutcome(answered, fields, error) == ApiOutcomeOf(engine, decode, renderDate, res)
  {
    fields, error, answered := NoFields, None, false;
    if res.ok && res.text != [] {
      var decoded := decode(res.text);
      if decoded.DecodeThrew? {
        error := Some(ParseErrorPrefix + decoded.message);
        return;
      }
      var a := decoded.attributes;
      fields := fields.(detection := Some(ApiDetection(a)));
      var thrown: Option<JsString> := None;
      var reg := WhoisMatch(engine, RegistrarRe, a.whois);
      if reg.GroupMissing? {
        thrown := Some(TrimOfUndefined);
      } else if reg.Found? {
        fields := fields.(registrar := Some(reg.value));
      }
      if thrown.None? {
        var cre := WhoisMatch(engine, CreationRe, a.whois);
        if cre.GroupMissing? {
          thrown := Some(TrimOfUndefined);
        } else if cre.Found? {
          fields := fields.(creationDate := Some(cre.value));
        }
      }
      if thrown.None? && a.lastAnalysisDate.Some? && a.lastAnalysisDate.value != 0 {
        fields := fields.(lastAnalysis := Some(renderDate(a.lastAnalysisDate.value)));
      }
      if thrown.None? {
        var vendors := VendorList(a.results);
        if vendors.None? {
          thrown := Some(ResultOfNull);
        } else {
          fields := fields.(vendors := vendors);
          answered := true;
          return;
        }
      }
      error := Some(ParseErrorPrefix + thrown.value);
    }
  }

  /** The outcome of the API tier: not tried without a key. */
  function ApiPart(engine: Engine, net: Network, decode: ApiDecoder, renderDate: DateRenderer,
                   enc: JsString, apiKey: JsString): ApiOutcome {
    if apiKey == [] then ApiOutcome(false, NoFields, None)
    else ApiOutcomeOf(engine, decode, renderDate, net(ApiUrl(enc)))
  }

  /** The reply of the handler: the API tier's fields when it answered, else those fields
      overlaid by the HTML tier, with the debug record of both tiers. */
  function VtReplyOf(engine: Engine, encode: UriEncoder, net: Network, decode: ApiDecoder,
                     renderDate: DateRenderer, domain: JsString, apiKey: JsString): VtReply {
    match encode(domain)
    case UriError(message) => VtFailure(domain, message)
    case Encoded(enc) =>
      var used := apiKey != [];
      var apiRes := net(ApiUrl(enc));
      var api := ApiPart(engine, net, decode, renderDate, enc, apiKey);
      var page := net(GuiUrl(enc));
      var debug := VtDebug(domain, used, used, if used then apiRes.status else 0,
                           if used then |apiRes.text| else 0, if used then Prefix(apiRes.text, 500) else [],
                           if api.answered then 0 else |page.text|,
                           if api.answered then [] else Prefix(page.text, 500), api.error);
      VtReport(domain, if api.answered then api.fields else HtmlOverlay(engine, api.fields, page), debug)
  }

  /** The requests of the handler: the API with a key, then the page unless the API answered. */
  function VtRequests(engine: Engine, encode: UriEncoder, net: Network, decode: ApiDecoder,
                      renderDate: DateRenderer, domain: JsString, apiKey: JsString): seq<JsString> {
    match encode(domain)
    case UriError(_) => []
    case Encoded(enc) =>
      (if apiKey != [] then [ApiUrl(enc)] else []) +
      (if ApiPart(engine, net, decode, renderDate, enc, apiKey).answered then [] else [GuiUrl(enc)])
  }

  /** The handler, building `result` and `debug` by successive assignments. */
  method QueryVirusTotal(engine: Engine, encode: UriEncoder, net: Network, decode: ApiDecoder,
                         renderDate: DateRenderer, domain: JsString, apiKey: JsString)
    returns (reply: VtReply, requests: seq<JsString>)
    ensures reply == VtReplyOf(engine, encode, net, decode, renderDate, domain, apiKey)
    ensures requests == VtRequests(engine, encode, net, decode, renderDate, domain, apiKey)
    ensures |requests| <= 2
    ensures encode(domain).UriError? ==>
              reply == VtFailure(domain, encode(domain).message) && requests == []
    ensures encode(domain).Encoded? ==> reply.VtReport? && reply.domain == domain
    ensures encode(domain).Encoded? ==>
              var enc := encode(domain).value;
              var apiRes := net(ApiUrl(enc));
              var api := if apiKey == [] then ApiOutcome(false, NoFields, None)
                         else ApiOutcomeOf(engine, decode, renderDate, apiRes);
              var page := net(GuiUrl(enc));
              && requests == (if apiKey != [] then [ApiUrl(enc)] else []) +
                             (if api.answered then [] else [GuiUrl(enc)])
              && reply.debug.domain == domain
              && reply.debug.apiKeyProvided == (apiKey != [])
              && reply.debug.apiUsed == (apiKey != [])
              && reply.debug.apiStatus == (if apiKey != [] then apiRes.status else 0)
              && reply.debug.apiResponseLength == (if apiKey != [] then |apiRes.text| else 0)
              && reply.debug.apiResponseSample == (if apiKey != [] then Prefix(apiRes.text, 500) else [])
              && reply.debug.error == api.error
              && (api.answered ==>
                    reply.fields == api.fields && reply.debug.htmlLength == 0 && reply.debug.htmlSample == [])
              && (!api.answered ==>
                    && reply.fields == HtmlOverlay(engine, api.fields, page)
                    && reply.debug.htmlLength == |page.text|
                    && reply.debug.htmlSample == Prefix(page.text, 500))
  {
    requests := [];
    var fields := NoFields;
    var debug := VtDebug(domain, apiKey != [], false, 0, 0, [], 0, [], None);
    var enc := encode(domain);
    if apiKey != [] {
      if enc.UriError? {
        return VtFailure(domain, enc.message), requests;
      }
      var apiUrl := ApiUrl(enc.value);
      var apiRes := net(apiUrl);
      requests := requests + [apiUrl];
      debug := debug.(apiUsed := true, apiStatus := apiRes.status);
      debug := debug.(apiResponseLength := |apiRes.text|, apiResponseSample := Prefix(apiRes.text, 500));
      var error, answered;
      fields, error, answered := ApiTier(engine, decode, renderDate, apiRes);
      debug := debug.(error := error);
      if answered {
        return VtReport(domain, fields, debug), requests;
      }
    }
    if enc.UriError? {
      return VtFailure(domain, enc.message), requests;
    }
    var guiUrl := GuiUrl(enc.value);
    var page := net(guiUrl);
    requests := requests + [guiUrl];
    debug := debug.(htmlLength := |page.text|, htmlSample := Prefix(page.text, 500));
    if page.ok && page.text != [] {
      var detection := HtmlDetection(engine, page.text);
      if detection.Some? {
        fields := fields.(detection := detection);
      }
    }
    reply := VtReport(domain, fields, debug);
  }
}
