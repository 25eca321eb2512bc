/** The gate in front of v4 payload decoding: an empty payload is refused first, then a
    payload whose protocol-v4 feature flag is absent or off; only then is the JSON decoded.
    The feature-flag retriever is a map from flag name to value, and the JSON decoder is a
    function given by the caller whose outcome the model does not interpret. */
module PayloadGate {
  import opened Results
  import opened Protocol

  type Byte = b: int | 0 <= b < 256

  /** The name under which the protocol-v4 feature flag is looked up. */
  const FlagProtocolV4: string := "protocol_v4"

  /** Why a payload was not turned into data. */
  datatype ParseError =
    | NoContentToParse
    | ProtocolV4NotEnabled
    | DecodeFailed(reason: string)

  /** The text of each error, as the error values declare it. */
  function ErrorMessage(e: ParseError): string
  {
    match e
    case NoContentToParse => "no content to parse"
    case ProtocolV4NotEnabled => "integration protocol version 4 is not enabled"
    case DecodeFailed(reason) => reason
  }

  /** The retriever's lookup: the flag's value, and whether the flag is known at all. */
  function GetFeatureFlag(flags: map<string, bool>, name: string): (bool, bool)
  {
    if name in flags then (flags[name], true) else (false, false)
  }

  predicate ProtocolV4Enabled(flags: map<string, bool>) {
    FlagProtocolV4 in flags && flags[FlagProtocolV4]
  }

  /** The gate in front of the decoder: empty input first, then the protocol-v4 flag,
      and only then the decoder, whose outcome is passed on. */
  function ParsePayloadV4(raw: seq<Byte>, flags: map<string, bool>,
                          decode: seq<Byte> -> Result<DataV4, string>): (r: Result<DataV4, ParseError>)
    ensures r.Success? ==> |raw| > 0 && ProtocolV4Enabled(flags) && decode(raw) == Success(r.value)
    ensures r.Failure? && r.error.DecodeFailed? ==> decode(raw) == Failure(r.error.reason)
  {
    if |raw| == 0 then Failure(NoContentToParse)
    else
      var (enabled, ok) := GetFeatureFlag(flags, FlagProtocolV4);
      if !ok || !enabled then Failure(ProtocolV4NotEnabled)
      else
        match decode(raw)
        case Success(data) => Success(data)
        case Failure(reason) => Failure(DecodeFailed(reason))
  }

  /** Empty input is refused as having no content whatever the flags say: this check
      comes before the flag check. */
  lemma EmptyPayloadRejectedFirst(flags: map<string, bool>, decode: seq<Byte> -> Result<DataV4, string>)
    ensures ParsePayloadV4([], flags, decode) == Failure(NoContentToParse)
    ensures ErrorMessage(ParsePayloadV4([], flags, decode).error) == "no content to parse"
  {
  }

  /** Non-empty input with the flag missing or false is refused as protocol disabled. */
  lemma DisabledProtocolRejected(raw: seq<Byte>, flags: map<string, bool>,
                                 decode: seq<Byte> -> Result<DataV4, string>)
    requires |raw| > 0 && !ProtocolV4Enabled(flags)
    ensures ParsePayloadV4(raw, flags, decode) == Failure(ProtocolV4NotEnabled)
    ensures ErrorMessage(ParsePayloadV4(raw, flags, decode).error)
         == "integration protocol version 4 is not enabled"
  {
  }

  /** When the gate refuses, the decoder is never consulted: any two decoders give the
      same outcome. */
  lemma GateRefusalIgnoresDecoder(raw: seq<Byte>, flags: map<string, bool>,
                                  decode1: seq<Byte> -> Result<DataV4, string>,
                                  decode2: seq<Byte> -> Result<DataV4, string>)
    requires |raw| == 0 || !ProtocolV4Enabled(flags)
    ensures ParsePayloadV4(raw, flags, decode1) == ParsePayloadV4(raw, flags, decode2)
    ensures ParsePayloadV4(raw, flags, decode1).Failure?
  {
  }

  /** Data comes out of the gate only for non-empty input with the flag on, and it is
      exactly what the decoder produced; a decoder failure is passed on as the error. */
  lemma GatePassesOnlyDecodedData(raw: seq<Byte>, flags: map<string, bool>,
                                  decode: seq<Byte> -> Result<DataV4, string>)
    ensures ParsePayloadV4(raw, flags, decode).Success?
        <==> |raw| > 0 && ProtocolV4Enabled(flags) && decode(raw).Success?
    ensures ParsePayloadV4(raw, flags, decode).Success? ==>
              ParsePayloadV4(raw, flags, decode).value == decode(raw).value
    ensures |raw| > 0 && ProtocolV4Enabled(flags) && decode(raw).Failure? ==>
              ParsePayloadV4(raw, flags, decode) == Failure(DecodeFailed(decode(raw).error))
  {
  }
}
