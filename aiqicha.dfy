/** The `queryICP` handler: company registration details from aiqicha.baidu.com, taken from
    the company's detail page when the search page links to one and from the search page
    itself otherwise. */
module Aiqicha {
  import opened JsText
  import opened Extract
  import opened Fetch

  /** Candidate detail-page links on the search page. The sixth and ninth rules have no capture
      group, so they can never supply a link (`DeadDetailLinkRules`). */
  const DetailLinkRules: seq<Regex> := [
    Regex(@"href=\""(\/company_detail_[^\""?#]+)[^\""]*\""", "", 1),
    Regex(@"""href""\s*:\s*""(\/company_detail_[^""]+)""", "", 1),
    Regex(@"(\/company_detail_[a-zA-Z0-9_\-]+)\b", "", 1),
    Regex(@"href=""([^""]*company_detail_[^""]*)""", "", 1),
    Regex(@"""url""\s*:\s*""([^""]*company_detail_[^""]*)""", "", 1),
    Regex(@"company_detail_[a-zA-Z0-9_\-]+", "", 0),
    Regex(@"href=""([^""]*\/company\/[^""]*)""", "", 1),
    Regex(@"""url""\s*:\s*""([^""]*\/company\/[^""]*)""", "", 1),
    Regex(@"\/company\/[a-zA-Z0-9_\-]+", "", 0)
  ]

  // The search-page rules, used when no detail link is found.

  const SearchLegalRules: seq<Regex> := [
    Regex(@"法定代表人[^<]*>([^<]{1,40})<", "i", 1),
    Regex(@"法人代表[^<]*>([^<]{1,40})<", "i", 1),
    Regex(@"法人[^<]*>([^<]{1,40})<", "i", 1)
  ]

  const SearchCapitalRules: seq<Regex> := [
    Regex(@"注册资本[^<]*>([^<]{1,60})<", "i", 1),
    Regex(@"注册资金[^<]*>([^<]{1,60})<", "i", 1)
  ]

  const SearchPhoneRules: seq<Regex> := [
    Regex(@"电话[^<]*>([^<]{3,20})<", "i", 1),
    Regex(@"联系电话[^<]*>([^<]{3,20})<", "i", 1)
  ]

  /** The bare address pattern at the end has no capture group. */
  const SearchEmailRules: seq<Regex> := [
    Regex(@"邮箱[^<]*>([^<]{3,60})<", "i", 1),
    Regex(@"电子邮箱[^<]*>([^<]{3,60})<", "i", 1),
    Regex(@"[A-Za-z0-9._%+-]+@[A-Za-z0-9.-]+\.[A-Za-z]{2,}", "", 0)
  ]

  // The detail-page rules: embedded JSON keys first, then the page title and labels.

  const DetailCompanyRules: seq<Regex> := [
    Regex(@"\""entName\""\s*:\s*\""([^\""]{1,80})\""", "i", 1),
    Regex(@"\""companyName\""\s*:\s*\""([^\""]{1,80})\""", "i", 1),
    Regex(@"<title>\s*([^<>{}]{1,80}?)\s*-\s*爱企查\s*<\/title>", "i", 1),
    Regex(@"公司名称[^<]*>([^<]{1,80})<", "i", 1),
    Regex(@"企业名称[^<]*>([^<]{1,80})<", "i", 1)
  ]

  const DetailLegalRules: seq<Regex> := [
    Regex(@"\""legalPersonName\""\s*:\s*\""([^\""]{1,40})\""", "i", 1),
    Regex(@"\""legalPerson\""\s*:\s*\""([^\""]{1,40})\""", "i", 1),
    Regex(@"法定代表人[^<]*>([^<]{1,40})<", "i", 1),
    Regex(@"法人代表[^<]*>([^<]{1,40})<", "i", 1),
    Regex(@"法人[^<]*>([^<]{1,40})<", "i", 1)
  ]

  const DetailCapitalRules: seq<Regex> := [
    Regex(@"\""regCapital\""\s*:\s*\""([^\""]{1,40})\""", "i", 1),
    Regex(@"\""registeredCapital\""\s*:\s*\""([^\""]{1,40})\""", "i", 1),
    Regex(@"注册资本[^<]*>([^<]{1,60})<", "i", 1),
    Regex(@"注册资金[^<]*>([^<]{1,60})<", "i", 1)
  ]

  const DetailPhoneRules: seq<Regex> := [
    Regex(@"\""telephone\""\s*:\s*\""([^\""]{3,20})\""", "i", 1),
    Regex(@"电话[^<]*>([^<]{3,20})<", "i", 1),
    Regex(@"联系电话[^<]*>([^<]{3,20})<", "i", 1)
  ]

  /** As on the search page, the bare address pattern has no capture group. */
  const DetailEmailRules: seq<Regex> := [
    Regex(@"\""email\""\s*:\s*\""([^\""]{3,60})\""", "i", 1),
    Regex(@"邮箱[^<]*>([^<]{3,60})<", "i", 1),
    Regex(@"电子邮箱[^<]*>([^<]{3,60})<", "i", 1),
    Regex(@"[A-Za-z0-9._%+-]+@[A-Za-z0-9.-]+\.[A-Za-z]{2,}", "", 0)
  ]

  const Source := Lit("aiqicha")

  const SearchPurpose := Lit("搜索公司信息")
  const DetailPurpose := Lit("获取公司详细信息")

  /** How many leading code units of a page go into the debug samples. */
  const SampleSize: nat := 1000

  datatype CompanyFields = CompanyFields(company: JsString, legal: JsString, capital: JsString,
                                         phone: JsString, email: JsString)

  /** One fetched page in the debug record: `{ url, purpose }` and its status. */
  datatype Step = Step(url: JsString, purpose: JsString, status: int)

  /** The debug record; each optional part is present exactly on the outcomes that report it. */
  datatype AiqichaDebug = AiqichaDebug(search: Step, detail: Option<Step>,
                                       extracted: Option<CompanyFields>,
                                       htmlSample: Option<JsString>,
                                       detailHtmlSample: Option<JsString>)

  datatype AiqichaReply =
    | Company(url: JsString, fields: CompanyFields, debug: AiqichaDebug)
    | AiqichaError(url: JsString, error: LookupError, debug: AiqichaDebug)
      /** The `catch`: `url` is '', `message` is `String(e)` (reported as `error`). */
    | AiqichaThrew(message: JsString)

  function SearchUrl(encodedQuery: JsString): JsString {
    Lit("https://aiqicha.baidu.com/s?q=") + encodedQuery
  }

  function DetailUrl(path: JsString): JsString {
    Lit("https://aiqicha.baidu.com") + path
  }

  /** What the search page yields when it has no detail link; the company is the query. */
  function SearchFields(engine: Engine, q: JsString, html: JsString): CompanyFields {
    CompanyFields(q, PickValue(engine, SearchLegalRules, html), PickValue(engine, SearchCapitalRules, html),
                  PickValue(engine, SearchPhoneRules, html), PickValue(engine, SearchEmailRules, html))
  }

  /** What the detail page yields. */
  function DetailFields(engine: Engine, html: JsString): CompanyFields {
    CompanyFields(PickValue(engine, DetailCompanyRules, html), PickValue(engine, DetailLegalRules, html),
                  PickValue(engine, DetailCapitalRules, html), PickValue(engine, DetailPhoneRules, html),
                  PickValue(engine, DetailEmailRules, html))
  }

  /** `legal || capital || phone || email`. */
  predicate AnyDetail(f: CompanyFields) {
    f.legal != [] || f.capital != [] || f.phone != [] || f.email != []
  }

  /** The reply of the handler, outcome by outcome in the order the handler decides them. */
  function IcpReplyOf(engine: Engine, encode: UriEncoder, net: Network, q: JsString): AiqichaReply {
    match encode(q)
    case UriError(message) => AiqichaThrew(message)
    case Encoded(enc) =>
      var searchUrl := SearchUrl(enc);
      var rs := net(searchUrl);
      var search := Step(searchUrl, SearchPurpose, rs.status);
      if !rs.ok then AiqichaError(searchUrl, SearchFailed, AiqichaDebug(search, None, None, None, None))
      else
        var path := FirstGroupValue(engine, DetailLinkRules, rs.text);
        if path == [] then
          var f := SearchFields(engine, q, rs.text);
          var sample := Some(Prefix(rs.text, SampleSize));
          if AnyDetail(f) then Company(searchUrl, f, AiqichaDebug(search, None, Some(f), sample, None))
          else AiqichaError(searchUrl, DetailLinkNotFound, AiqichaDebug(search, None, None, sample, None))
        else
          var rd := net(DetailUrl(path));
          var detail := Step(DetailUrl(path), DetailPurpose, rd.status);
          if !rd.ok then
            AiqichaError(DetailUrl(path), DetailFetchFailed, AiqichaDebug(search, Some(detail), None, None, None))
          else
            var f := DetailFields(engine, rd.text);
            Company(DetailUrl(path), f,
                    AiqichaDebug(search, Some(detail), Some(f), None, Some(Prefix(rd.text, SampleSize))))
  }

  /** The requests whose outcome the handler reads: the search page, then the detail page
      when the search page links to one. */
  function IcpRequests(engine: Engine, encode: UriEncoder, net: Network, q: JsString): seq<JsString> {
    match encode(q)
    case UriError(_) => []
    case Encoded(enc) =>
      var searchUrl := SearchUrl(enc);
      var rs := net(searchUrl);
      var path := FirstGroupValue(engine, DetailLinkRules, rs.text);
      if !rs.ok || path == [] then [searchUrl] else [searchUrl, DetailUrl(path)]
  }

  /** The handler. The outcomes are decided in this order: the search fetch failed; no detail
      link, but the search page names at least one detail; no detail link and nothing found;
      the detail fetch failed; the detail page was read. */
  method QueryICP(engine: Engine, encode: UriEncoder, net: Network, q: JsString)
    returns (reply: AiqichaReply, requests: seq<JsString>)
    ensures reply == IcpReplyOf(engine, encode, net, q)
    ensures requests == IcpRequests(engine, encode, net, q)
    ensures |requests| <= 2
    ensures encode(q).UriError? ==> reply == AiqichaThrew(encode(q).message) && requests == []
    ensures encode(q).Encoded? ==>
              var searchUrl := SearchUrl(encode(q).value);
              var rs := net(searchUrl);
              var search := Step(searchUrl, SearchPurpose, rs.status);
              var path := FirstGroupValue(engine, DetailLinkRules, rs.text);
              var rd := net(DetailUrl(path));
              && (!rs.ok ==>
                    && requests == [searchUrl]
                    && reply == AiqichaError(searchUrl, SearchFailed, AiqichaDebug(search, None, None, None, None)))
              && (rs.ok && path == [] ==>
                    var f := SearchFields(engine, q, rs.text);
                    var sample := Some(Prefix(rs.text, SampleSize));
                    && requests == [searchUrl]
                    && (AnyDetail(f) ==>
                          reply == Company(searchUrl, f, AiqichaDebug(search, None, Some(f), sample, None)))
                    && (!AnyDetail(f) ==>
                          reply == AiqichaError(searchUrl, DetailLinkNotFound,
                                                AiqichaDebug(search, None, None, sample, None))))
              && (rs.ok && path != [] ==>
                    var detail := Step(DetailUrl(path), DetailPurpose, rd.status);
                    && requests == [searchUrl, DetailUrl(path)]
                    && (!rd.ok ==>
                          reply == AiqichaError(DetailUrl(path), DetailFetchFailed,
                                                AiqichaDebug(search, Some(detail), None, None, None)))
                    && (rd.ok ==>
                          var f := DetailFields(engine, rd.text);
                          reply == Company(DetailUrl(path), f,
                                           AiqichaDebug(search, Some(detail), Some(f), None,
                                                        Some(Prefix(rd.text, SampleSize))))))
  {
    requests := [];
    var enc := encode(q);
    if enc.UriError? {
      return AiqichaThrew(enc.message), requests;
    }
    var searchUrl := SearchUrl(enc.value);
    var rSearch := net(searchUrl);
    requests := requests + [searchUrl];
    var search := Step(searchUrl, SearchPurpose, rSearch.status);
    if !rSearch.ok {
      return AiqichaError(searchUrl, SearchFailed, AiqichaDebug(search, None, None, None, None)), requests;
    }
    var html := rSearch.text;
    var detailPath := FirstGroup(engine, DetailLinkRules, html);
    if detailPath == [] {
      var legal := Pick(engine, SearchLegalRules, html);
      var capital := Pick(engine, SearchCapitalRules, html);
      var phone := Pick(engine, SearchPhoneRules, html);
      var email := Pick(engine, SearchEmailRules, html);
      var sample := Some(Prefix(html, SampleSize));
      if legal != [] || capital != [] || phone != [] || email != [] {
        var f := CompanyFields(q, legal, capital, phone, email);
        return Company(searchUrl, f, AiqichaDebug(search, None, Some(f), sample, None)), requests;
      }
      return AiqichaError(searchUrl, DetailLinkNotFound, AiqichaDebug(search, None, None, sample, None)), requests;
    }
    var detailUrl := DetailUrl(detailPath);
    var rDetail := net(detailUrl);
    requests := requests + [detailUrl];
    var detail := Step(detailUrl, DetailPurpose, rDetail.status);
    if !rDetail.ok {
      return AiqichaError(detailUrl, DetailFetchFailed, AiqichaDebug(search, Some(detail), None, None, None)), requests;
    }
    var dh := rDetail.text;
    var company := Pick(engine, DetailCompanyRules, dh);
    var legal := Pick(engine, DetailLegalRules, dh);
    var capital := Pick(engine, DetailCapitalRules, dh);
    var phone := Pick(engine, DetailPhoneRules, dh);
    var email := Pick(engine, DetailEmailRules, dh);
    var f := CompanyFields(company, legal, capital, phone, email);
    reply := Company(detailUrl, f, AiqichaDebug(search, Some(detail), Some(f), None, Some(Prefix(dh, SampleSize))));
  }

  // ---------------------------------------------------------------------------------------
  // Properties of the rule lists

  /** The two detail-link patterns without a capture group never supply a link: the search
      behaves exactly as the seven grouped patterns alone. */
  lemma DeadDetailLinkRules(engine: Engine, html: JsString)
    ensures FirstGroupValue(engine, DetailLinkRules, html) ==
              FirstGroupValue(engine, DetailLinkRules[..5] + DetailLinkRules[6..8], html)
  {
    var r := DetailLinkRules;
    assert r == r[..5] + [r[5]] + r[6..];
    SkipGroupless(engine, r[..5], r[5], r[6..], html);
    assert r[..5] + r[6..] == r[..5] + r[6..8] + [r[8]] + [];
    SkipGroupless(engine, r[..5] + r[6..8], r[8], [], html);
    assert r[..5] + r[6..8] + [] == r[..5] + r[6..8];
  }

  /** The bare e-mail address patterns never supply an e-mail: only the labelled and JSON
      rules do. */
  lemma DeadEmailRules(engine: Engine, html: JsString)
    ensures PickValue(engine, SearchEmailRules, html) == PickValue(engine, SearchEmailRules[..2], html)
    ensures PickValue(engine, DetailEmailRules, html) == PickValue(engine, DetailEmailRules[..3], html)
  {
    var s, d := SearchEmailRules, DetailEmailRules;
    assert s == s[..2] + [s[2]] + [];
    SkipGroupless(engine, s[..2], s[2], [], html);
    assert s[..2] + [] == s[..2];
    assert d == d[..3] + [d[3]] + [];
    SkipGroupless(engine, d[..3], d[3], [], html);
    assert d[..3] + [] == d[..3];
  }
}
