/** The `queryAizhan` handler: ICP filing data scraped from the aizhan.com filing page. */
module Aizhan {
  import opened JsText
  import opened Extract
  import opened Fetch

  /** Operating company, current and historical markup first, label-adjacent text last. */
  const CompanyRules: seq<Regex> := [
    Regex(@"名称:\s*<span[^>]*id=""icp_name""[^>]*>([^<]{1,100})<", "", 1),
    Regex(@"名称:\s*<span[^>]*>([^<]{1,100})<", "", 1),
    Regex(@"<span[^>]*id=""icp_name""[^>]*>([^<]{1,100})<", "", 1),
    Regex(@"<span[^>]*id=""icp_company""[^>]*>([^<]{1,100})<", "", 1),
    Regex(@"备案信息[^<]*名称[^<]*>([^<]{1,100})<", "", 1),
    Regex(@"名称[^<]*>([^<]{1,100})<", "", 1),
    Regex(@"主办单位[^<]*>([^<]{1,100})<", "", 1),
    Regex(@"备案主体[^<]*>([^<]{1,100})<", "", 1),
    Regex(@"网站名称[^<]*>([^<]{1,100})<", "", 1),
    Regex(@"公司名称[^<]*>([^<]{1,100})<", "", 1),
    Regex(@"企业名称[^<]*>([^<]{1,100})<", "", 1),
    Regex(@"TITLE信息[^<]*>([^<]{1,100})<", "", 1)
  ]

  /** Filing number; the fourth rule is the structural `<region><letter>…ICP备<digits>号` form. */
  const IcpNumberRules: seq<Regex> := [
    Regex(@"<a[^>]*id=""icp_icp""[^>]*>([^<]{1,50})<", "", 1),
    Regex(@"备案号[^<]*>([^<]{1,50})<", "", 1),
    Regex(@"备案信息[^<]*备案号[^<]*>([^<]{1,50})<", "", 1),
    Regex(@"([京津沪渝冀豫云辽黑湘皖鲁新苏浙赣鄂桂甘晋蒙陕吉闽贵粤青藏川宁琼使领][A-Z][0-9A-Z]{4,10}ICP备[0-9]{4,8}号[^<]*)", "", 1),
    Regex(@"许可证号[^<]*>([^<]{1,50})<", "", 1)
  ]

  /** Filing status (the nature of the filing entity). */
  const IcpStatusRules: seq<Regex> := [
    Regex(@"<span[^>]*id=""icp_type""[^>]*>([^<]{1,20})<", "", 1),
    Regex(@"性质:\s*<span[^>]*>([^<]{1,20})<", "", 1),
    Regex(@"性质[^<]*>([^<]{1,20})<", "", 1),
    Regex(@"备案信息[^<]*性质[^<]*>([^<]{1,20})<", "", 1),
    Regex(@"备案状态[^<]*>([^<]{1,20})<", "", 1),
    Regex(@"状态[^<]*>([^<]{1,20})<", "", 1)
  ]

  const Source := Lit("aizhan")

  /** The constant `purpose` text of every debug record of this handler. */
  const Purpose := Lit("获取备案信息")

  datatype FilingFields = FilingFields(company: JsString, icpNumber: JsString, icpStatus: JsString)

  /** The debug record: the page URL and status, the purpose, and on success the `extracted`
      block. */
  datatype FilingDebug = FilingDebug(aizhanUrl: JsString, aizhanStatus: int, purpose: JsString,
                                     extracted: Option<FilingFields>)

  datatype AizhanReply =
    | Filing(url: JsString, fields: FilingFields, debug: FilingDebug)
    | AizhanError(url: JsString, error: LookupError, debug: FilingDebug)
      /** The `catch`: `url` is '', `message` is `String(e)` (reported as `error`) and the debug record holds only the
          purpose and that error. */
    | AizhanThrew(message: JsString)

  function AizhanUrl(encodedQuery: JsString): JsString {
    Lit("https://www.aizhan.com/cha/") + encodedQuery
  }

  /** The three extractions run over the filing page. */
  function FilingFieldsOf(engine: Engine, html: JsString): FilingFields {
    FilingFields(PickValue(engine, CompanyRules, html), PickValue(engine, IcpNumberRules, html),
                 PickValue(engine, IcpStatusRules, html))
  }

  /** The reply of the handler: the catch reply when the query cannot be encoded, the failure
      reply when the page cannot be fetched, and the three picks otherwise. */
  function AizhanReplyOf(engine: Engine, encode: UriEncoder, net: Network, q: JsString): AizhanReply {
    match encode(q)
    case UriError(message) => AizhanThrew(message)
    case Encoded(enc) =>
      var url := AizhanUrl(enc);
      var page := net(url);
      if !page.ok then AizhanError(url, FetchFailed, FilingDebug(url, page.status, Purpose, None))
      else
        var fields := FilingFieldsOf(engine, page.text);
        Filing(url, fields, FilingDebug(url, page.status, Purpose, Some(fields)))
  }

  function AizhanRequests(encode: UriEncoder, q: JsString): seq<JsString> {
    if encode(q).Encoded? then [AizhanUrl(encode(q).value)] else []
  }

  /** The handler. */
  method QueryAizhan(engine: Engine, encode: UriEncoder, net: Network, q: JsString)
    returns (reply: AizhanReply, requests: seq<JsString>)
    ensures reply == AizhanReplyOf(engine, encode, net, q)
    ensures requests == AizhanRequests(encode, q)
    ensures |requests| <= 1
    ensures encode(q).UriError? ==> reply == AizhanThrew(encode(q).message) && requests == []
    ensures encode(q).Encoded? ==> requests == [AizhanUrl(encode(q).value)]
    // a failed fetch reports `fetch_failed` with the URL and status, and extracts nothing
    ensures encode(q).Encoded? && !net(AizhanUrl(encode(q).value)).ok ==>
              var url := AizhanUrl(encode(q).value);
              reply == AizhanError(url, FetchFailed, FilingDebug(url, net(url).status, Purpose, None))
    ensures encode(q).Encoded? && net(AizhanUrl(encode(q).value)).ok ==>
              var url := AizhanUrl(encode(q).value);
              var page := net(url);
              && reply.Filing? && reply.url == url
              && reply.fields == FilingFieldsOf(engine, page.text)
              && reply.debug == FilingDebug(url, page.status, Purpose, Some(reply.fields))
  {
    requests := [];
    var enc := encode(q);
    if enc.UriError? {
      return AizhanThrew(enc.message), requests;
    }
    var url := AizhanUrl(enc.value);
    var page := net(url);
    requests := requests + [url];
    if !page.ok {
      return AizhanError(url, FetchFailed, FilingDebug(url, page.status, Purpose, None)), requests;
    }
    var html := page.text;
    var company := Pick(engine, CompanyRules, html);
    var icpNumber := Pick(engine, IcpNumberRules, html);
    var icpStatus := Pick(engine, IcpStatusRules, html);
    var fields := FilingFields(company, icpNumber, icpStatus);
    reply := Filing(url, fields, FilingDebug(url, page.status, Purpose, Some(fields)));
  }
}
