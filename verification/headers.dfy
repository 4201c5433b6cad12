/** The outbound header allow-list of the JSON forwarding path
    (src/middleware/gateway.service.ts, `handleRequest`).

    The forwarder never passes the inbound header set through: it builds a
    fresh header object from a fixed table of (outbound name, source) rules and
    adds `x-channel-id` only when the inbound value is truthy. Header-name case
    folding is done by the HTTP framework before this code runs, so inbound
    names are already lower-case here. */
module Headers {
  import opened Wrappers

  /** Inbound request headers, names lower-cased by the framework. */
  type Inbound = map<string, string>

  /** The outbound header object. A key can be present with an `undefined`
      value (`None`): the object literal always has its four keys, even when the
      inbound request lacks the header it copies from. */
  type Outbound = map<string, Option<string>>

  /** Where an outbound value comes from: an inbound header, or a constant. */
  datatype Source = FromInbound(name: string) | Fixed(value: string)

  datatype Rule = Rule(outName: string, source: Source)

  const ChannelHeader: string := "x-channel-id"
  const JsonContentType: string := "application/json"

  /** The fixed part of the allow-list, in the order of the object literal.
      Note the case change: outbound `tenantId` is read from inbound `tenantid`. */
  const JsonRules: seq<Rule> := [
    Rule("tenantId", FromInbound("tenantid")),
    Rule("academicyearid", FromInbound("academicyearid")),
    Rule("content-type", Fixed(JsonContentType)),
    Rule("authorization", FromInbound("authorization"))
  ]

  /** Every outbound name the forwarder can ever emit. */
  const AllowedOutNames: set<string> :=
    {"tenantId", "academicyearid", "content-type", "authorization", ChannelHeader}

  /** Every inbound name the forwarder ever reads. */
  const ConsultedNames: set<string> :=
    {"tenantid", "academicyearid", "authorization", ChannelHeader}

  /** `oheaders[name]`: `None` when the header is absent (`undefined`). */
  function Lookup(h: Inbound, name: string): Option<string>
  {
    if name in h then Some(h[name]) else None
  }

  function Resolve(src: Source, h: Inbound): Option<string>
  {
    match src
    case FromInbound(n) => Lookup(h, n)
    case Fixed(v) => Some(v)
  }

  predicate DistinctNames(rules: seq<Rule>)
  {
    forall i, j :: 0 <= i < j < |rules| ==> rules[i].outName != rules[j].outName
  }

  /** Builds the header object a table of rules describes. Later rules are
      written after earlier ones, as properties of an object literal are. */
  function ApplyRules(rules: seq<Rule>, h: Inbound): (r: Outbound)
    requires DistinctNames(rules)
    ensures r.Keys == set i | 0 <= i < |rules| :: rules[i].outName
    ensures forall i :: 0 <= i < |rules| ==> r[rules[i].outName] == Resolve(rules[i].source, h)
    decreases |rules|
  {
    if |rules| == 0 then map[]
    else
      var init := rules[..|rules| - 1];
      var last := rules[|rules| - 1];
      assert forall i :: 0 <= i < |init| ==> init[i] == rules[i];
      ApplyRules(init, h)[last.outName := Resolve(last.source, h)]
  }

  /** The channel header is forwarded only when its inbound value is truthy,
      and a header value is truthy iff it is a non-empty string. */
  predicate ChannelPresent(h: Inbound)
  {
    ChannelHeader in h && h[ChannelHeader] != ""
  }

  /** The header object the JSON path sends downstream. */
  function OutboundHeaders(h: Inbound): (r: Outbound)
    ensures r.Keys == {"tenantId", "academicyearid", "content-type", "authorization"}
                      + (if ChannelPresent(h) then {ChannelHeader} else {})
    ensures r.Keys <= AllowedOutNames
    ensures r["tenantId"] == Lookup(h, "tenantid")
    ensures r["academicyearid"] == Lookup(h, "academicyearid")
    ensures r["content-type"] == Some(JsonContentType)
    ensures r["authorization"] == Lookup(h, "authorization")
    ensures ChannelPresent(h) ==> r[ChannelHeader] == Lookup(h, ChannelHeader)
  {
    assert DistinctNames(JsonRules);
    var base := ApplyRules(JsonRules, h);
    assert JsonRules[0].outName == "tenantId" && JsonRules[1].outName == "academicyearid";
    assert JsonRules[2].outName == "content-type" && JsonRules[3].outName == "authorization";
    assert base.Keys == {"tenantId", "academicyearid", "content-type", "authorization"};
    if ChannelPresent(h) then base[ChannelHeader := Some(h[ChannelHeader])] else base
  }

  /** Adding an inbound `x-channel-id` adds exactly that key and value to the
      outbound headers when it is non-empty, and changes nothing when it is empty. */
  lemma ChannelAddsExactlyThatHeader(h: Inbound, c: string)
    requires ChannelHeader !in h
    ensures c != "" ==> OutboundHeaders(h[ChannelHeader := c]) == OutboundHeaders(h)[ChannelHeader := Some(c)]
    ensures c == "" ==> OutboundHeaders(h[ChannelHeader := c]) == OutboundHeaders(h)
  {
  }

  /** Non-interference: two inbound header sets that agree on the four consulted
      names produce the same outbound headers, so no other inbound header can
      ever reach the downstream service. */
  lemma OnlyConsultedHeadersMatter(h1: Inbound, h2: Inbound)
    requires forall n :: n in ConsultedNames ==> Lookup(h1, n) == Lookup(h2, n)
    ensures OutboundHeaders(h1) == OutboundHeaders(h2)
  {
  }

  /** The outbound `content-type` is `application/json` whatever the inbound
      `content-type` says. */
  lemma ContentTypeAlwaysJson(h: Inbound, v: string)
    ensures OutboundHeaders(h["content-type" := v])["content-type"] == Some(JsonContentType)
    ensures OutboundHeaders(h["content-type" := v]) == OutboundHeaders(h)
  {
    OnlyConsultedHeadersMatter(h["content-type" := v], h);
  }
}
