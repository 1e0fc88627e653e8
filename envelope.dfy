/** The message envelope: a flat map from the six fixed keys to strings. */
module Envelope {

  const SourceSystemKey: string := "sourceSystem"
  const DestinationAddressKey: string := "destinationAddress"
  const MessageIdKey: string := "messageId"
  const CorrelationIdKey: string := "correlationId"
  const RenderTechnologyKey: string := "messageRenderTechnology"
  const PayloadKey: string := "payload"

  const MessageIdPrefix: string := "msg-"
  const CorrelationIdPrefix: string := "corr-"

  /** The configured metadata copied into every envelope. */
  datatype Metadata = Metadata(sourceSystem: string, destinationAddress: string, renderTechnology: string)

  function Keys(): set<string> {
    {SourceSystemKey, DestinationAddressKey, MessageIdKey, CorrelationIdKey, RenderTechnologyKey, PayloadKey}
  }

  /** The envelope for a file with base name `base` and text `content`. */
  function Build(meta: Metadata, base: string, content: string): map<string, string> {
    map[SourceSystemKey := meta.sourceSystem,
        DestinationAddressKey := meta.destinationAddress,
        MessageIdKey := MessageIdPrefix + base,
        CorrelationIdKey := CorrelationIdPrefix + base,
        RenderTechnologyKey := meta.renderTechnology,
        PayloadKey := content]
  }

  /** The envelope holds exactly the six keys, the two identifiers derived from the base name,
      the file text as payload and the configured metadata unchanged. */
  lemma BuildFields(meta: Metadata, base: string, content: string)
    ensures var e := Build(meta, base, content);
      && e.Keys == Keys() && |e| == 6
      && e[MessageIdKey] == MessageIdPrefix + base && e[CorrelationIdKey] == CorrelationIdPrefix + base
      && e[PayloadKey] == content
      && e[SourceSystemKey] == meta.sourceSystem && e[DestinationAddressKey] == meta.destinationAddress
      && e[RenderTechnologyKey] == meta.renderTechnology
  {
  }

  /** The base name recovered from an envelope's message id. */
  function BaseOf(e: map<string, string>): (base: string)
    requires MessageIdKey in e && |e[MessageIdKey]| >= |MessageIdPrefix|
  {
    e[MessageIdKey][|MessageIdPrefix|..]
  }

  /** The envelope can be read back: its message id gives the base name, its correlation id
      agrees with the message id, and its payload is the file text. */
  lemma BuildRoundTrip(meta: Metadata, base: string, content: string)
    ensures BaseOf(Build(meta, base, content)) == base
    ensures Build(meta, base, content)[CorrelationIdKey] == CorrelationIdPrefix + BaseOf(Build(meta, base, content))
    ensures Build(meta, base, content)[PayloadKey] == content
  {
  }

  /** Different files (different base name or text) never produce the same envelope. */
  lemma BuildInjective(meta: Metadata, base1: string, content1: string, base2: string, content2: string)
    requires Build(meta, base1, content1) == Build(meta, base2, content2)
    ensures base1 == base2 && content1 == content2
  {
    BuildRoundTrip(meta, base1, content1);
    BuildRoundTrip(meta, base2, content2);
  }
}
