/** The `resolveTarget` handler: an A-record lookup through Google's DNS-over-HTTPS JSON API. */
module Dns {
  import opened JsText
  import opened Fetch

  /** One entry of the `Answer` array. */
  datatype DnsRecord = DnsRecord(rtype: int, data: JsString)

  /** `JSON.parse` of the body followed by `(j && j.Answer) || []`, as the records the `find`
      below goes through; None when any of it throws. That includes an `Answer` holding a null
      entry ahead of every A record: `find` reads `x.type` of that entry and throws, and the
      `catch` leaves the address ''. */
  type AnswerParser = JsString -> Option<seq<DnsRecord>>

  datatype DnsReply = DnsReply(ip: JsString)

  function DohUrl(encodedTarget: JsString): JsString {
    Lit("https://dns.google/resolve?name=") + encodedTarget + Lit("&type=A")
  }

  predicate HasTypeA(ans: seq<DnsRecord>) {
    exists i :: 0 <= i < |ans| && ans[i].rtype == 1
  }

  /** `ans.find(x => x.type === 1)`, as an index. */
  function FindTypeA(ans: seq<DnsRecord>): (k: Option<nat>)
    ensures k.Some? ==> k.value < |ans| && ans[k.value].rtype == 1
    ensures k.Some? ==> forall j :: 0 <= j < k.value ==> ans[j].rtype != 1
    ensures k.None? <==> !HasTypeA(ans)
  {
    if ans == [] then None
    else if ans[0].rtype == 1 then Some(0)
    else
      match FindTypeA(ans[1..])
      case None =>
        assert forall i :: 1 <= i < |ans| ==> ans[i] == ans[1..][i - 1];
        None
      case Some(k) => Some(k + 1)
  }

  /** `ans.find(x => x.type === 1) || ans[0]`: the first A record, else the first record. */
  function SelectAnswer(ans: seq<DnsRecord>): (a: Option<DnsRecord>)
    ensures a.None? <==> ans == []
    ensures HasTypeA(ans) ==> a.Some? && a.value.rtype == 1
    ensures HasTypeA(ans) ==>
              exists k :: 0 <= k < |ans| && ans[k] == a.value && forall j :: 0 <= j < k ==> ans[j].rtype != 1
    ensures !HasTypeA(ans) && ans != [] ==> a == Some(ans[0])
  {
    match FindTypeA(ans)
    case Some(k) => Some(ans[k])
    case None => if ans == [] then None else Some(ans[0])
  }

  /** The reply of the handler, decided by the target, its encoding, the response and what
      parsing its body finds. */
  function ResolveTargetReply(encode: UriEncoder, net: Network, parse: AnswerParser, target: JsString): Option<DnsReply> {
    if target == [] then Some(DnsReply([]))
    else
      match encode(target)
      case UriError(_) => None
      case Encoded(enc) =>
        var res := net(DohUrl(enc));
        if !res.ok then Some(DnsReply([]))
        else
          match parse(res.text)
          case None => Some(DnsReply([]))
          case Some(ans) =>
            Some(DnsReply(match SelectAnswer(ans) case None => [] case Some(a) => a.data))
  }

  /** The requests of the handler: one lookup, unless the target is empty or cannot be encoded. */
  function ResolveTargetRequests(encode: UriEncoder, target: JsString): seq<JsString> {
    if target != [] && encode(target).Encoded? then [DohUrl(encode(target).value)] else []
  }

  /** The handler. `reply` is None when the handler throws before answering: the
      `encodeURIComponent` call is outside any `try`, so no response is sent then. */
  method ResolveTarget(encode: UriEncoder, net: Network, parse: AnswerParser, target: JsString)
    returns (reply: Option<DnsReply>, requests: seq<JsString>)
    ensures reply == ResolveTargetReply(encode, net, parse, target)
    ensures requests == ResolveTargetRequests(encode, target)
    ensures |requests| <= 1
    ensures target == [] ==> reply == Some(DnsReply([])) && requests == []
    ensures target != [] && encode(target).UriError? ==> reply.None? && requests == []
    ensures target != [] && encode(target).Encoded? ==> requests == [DohUrl(encode(target).value)]
    ensures target != [] && encode(target).Encoded? ==>
              var res := net(DohUrl(encode(target).value));
              && (!res.ok ==> reply == Some(DnsReply([])))
              && (res.ok && parse(res.text).None? ==> reply == Some(DnsReply([])))
              && (res.ok && parse(res.text).Some? ==>
                    reply == Some(DnsReply(match SelectAnswer(parse(res.text).value)
                                           case None => []
                                           case Some(a) => a.data)))
  {
    var ip: JsString := [];
    requests := [];
    if target != [] {
      var enc := encode(target);
      if enc.UriError? {
        return None, requests;
      }
      var url := DohUrl(enc.value);
      var r := net(url);
      requests := requests + [url];
      if r.ok {
        var j := parse(r.text);
        if j.Some? {
          var a := SelectAnswer(j.value);
          if a.Some? {
            ip := a.value.data;
          }
        }
      }
    }
    reply := Some(DnsReply(ip));
  }
}
