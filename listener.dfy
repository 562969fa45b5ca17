/** The background message listener: dispatch on the message's `type` to one of the four
    handlers, and `{}` for anything else. */
module Listener {
  import opened JsText
  import opened Extract
  import opened Fetch
  import Dns
  import VirusTotal
  import Aizhan
  import Aiqicha

  /** A runtime message. Each field stands for `msg.<field> || ''`: an absent field is ''. */
  datatype Message = Message(kind: JsString, target: JsString, domain: JsString, apiKey: JsString, query: JsString)

  const ResolveTargetKind := Lit("resolveTarget")
  const QueryVirusTotalKind := Lit("queryVirusTotal")
  const QueryAizhanKind := Lit("queryAizhan")
  const QueryIcpKind := Lit("queryICP")

  /** The message types the listener answers with a handler. */
  predicate Known(kind: JsString) {
    kind == ResolveTargetKind || kind == QueryVirusTotalKind || kind == QueryAizhanKind || kind == QueryIcpKind
  }

  /** What is passed to `sendResponse`. */
  datatype Response =
    | DnsResponse(dns: Dns.DnsReply)
    | VtResponse(vt: VirusTotal.VtReply)
    | FilingResponse(filing: Aizhan.AizhanReply)
    | CorporateResponse(corporate: Aiqicha.AiqichaReply)
      /** `{}`. */
    | EmptyObject

  /** The listener. `msg` is None for a null or undefined message; `response` is None when
      the handler throws before calling `sendResponse`. */
  method OnMessage(engine: Engine, encode: UriEncoder, net: Network, parseDns: Dns.AnswerParser,
                   decode: VirusTotal.ApiDecoder, renderDate: VirusTotal.DateRenderer, msg: Option<Message>)
    returns (response: Option<Response>, requests: seq<JsString>)
    ensures msg.None? || !Known(msg.value.kind) ==> response == Some(EmptyObject) && requests == []
    ensures msg.Some? && msg.value.kind == ResolveTargetKind ==>
              (response.None? <==> msg.value.target != [] && encode(msg.value.target).UriError?) &&
              (response.Some? ==>
                 response.value.DnsResponse? &&
                 Some(response.value.dns) == Dns.ResolveTargetReply(encode, net, parseDns, msg.value.target)) &&
              requests == Dns.ResolveTargetRequests(encode, msg.value.target)
    ensures msg.Some? && msg.value.kind == QueryVirusTotalKind ==>
              && response == Some(VtResponse(VirusTotal.VtReplyOf(engine, encode, net, decode, renderDate,
                                                                 msg.value.domain, msg.value.apiKey)))
              && requests == VirusTotal.VtRequests(engine, encode, net, decode, renderDate,
                                                   msg.value.domain, msg.value.apiKey)
    ensures msg.Some? && msg.value.kind == QueryAizhanKind ==>
              && response == Some(FilingResponse(Aizhan.AizhanReplyOf(engine, encode, net, msg.value.query)))
              && requests == Aizhan.AizhanRequests(encode, msg.value.query)
    ensures msg.Some? && msg.value.kind == QueryIcpKind ==>
              && response == Some(CorporateResponse(Aiqicha.IcpReplyOf(engine, encode, net, msg.value.query)))
              && requests == Aiqicha.IcpRequests(engine, encode, net, msg.value.query)
    // no message lists more than two requests whose outcome is read
    ensures |requests| <= 2
  {
    if msg.None? {
      return Some(EmptyObject), [];
    }
    var m := msg.value;
    if m.kind == ResolveTargetKind {
      var reply;
      reply, requests := Dns.ResolveTarget(encode, net, parseDns, m.target);
      if reply.None? {
        return None, requests;
      }
      return Some(DnsResponse(reply.value)), requests;
    }
    if m.kind == QueryVirusTotalKind {
      var reply;
      reply, requests := VirusTotal.QueryVirusTotal(engine, encode, net, decode, renderDate, m.domain, m.apiKey);
      return Some(VtResponse(reply)), requests;
    }
    if m.kind == QueryAizhanKind {
      var reply;
      reply, requests := Aizhan.QueryAizhan(engine, encode, net, m.query);
      return Some(FilingResponse(reply)), requests;
    }
    if m.kind == QueryIcpKind {
      var reply;
      reply, requests := Aiqicha.QueryICP(engine, encode, net, m.query);
      return Some(CorporateResponse(reply)), requests;
    }
    return Some(EmptyObject), [];
  }
}
