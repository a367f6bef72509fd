/** The JSON values an SDP object is made of. The member names the SDP code uses are an
    enumeration, so that two different names are different by construction. */
module Json {
  import opened Text

  datatype Key =
    // session level
    | Version | Origin | Name | Description | Uri | Email | Phone | Bandwidth | Timing | Repeats
    | TimeZones | Media | Icelite | MsidSemantic | Fingerprint | Groups
    | Username | SessionId | SessionVersion | NetType | IpVer | Address | Start | Stop
    | Semantic | Token | Type | Hash | Mids
    // m-section level
    | Connection | Ttl | Limit | Mid | Protocol | Ip | Port | NumPorts | Payloads
    | Setup | Direction | Rtp | Fmtp | RtcpFb | RtcpFbTrrInt | Ext | ExtmapAllowMixed
    | Simulcast | Rids | RtcpMux | RtcpRsize | SctpPort | MaxMessageSize | IceUfrag | IcePwd
    | Candidates | EndOfCandidates | RemoteCandidates | IceOptions | Ssrcs | SsrcGroups
    | Control | Rtcp | Crypto | Msid | Ptime | MaxPtime | SctpMap | XGoogleFlag | Simulcast03
    | SourceFilter | TsRefclk | MediaClk | Invalid
    // entries
    | Payload | Codec | Rate | Encoding | Config | Subtype | Value | EncryptUri | Dir1 | List1
    | Dir2 | List2 | Id | Params | Foundation | Component | Transport | Priority | RAddr | RPort
    | TcpType | Generation | NetworkId | NetworkCost | Attribute | Semantics | Suite
    | SessionConfig | SctpMapNumber | App | FilterMode | AddressTypes | DestAddress | SrcList

  datatype Json =
    | Num(n: int)
    | Str(s: string)
    | Obj(fields: map<Key, Json>)
    | Arr(items: seq<map<Key, Json>>)

  type Object = map<Key, Json>

  /** `o.find(k)` of a string member. */
  predicate HasStr(o: Object, k: Key) {
    k in o && o[k].Str?
  }

  predicate HasNum(o: Object, k: Key) {
    k in o && o[k].Num?
  }

  predicate HasArr(o: Object, k: Key) {
    k in o && o[k].Arr?
  }

  /** A number or a string as it is streamed into text. */
  function ArgText(v: Json): string {
    match v
    case Str(s) => s
    case Num(n) => Decimal(n)
    case _ => ""
  }
}
