/**
 * The attribute records of a Firehose `<response>` element. Every
 * optional attribute is kept as an Option (present or absent); the C#
 * property getters read an absent attribute as a default, and the
 * `ShouldSerialize*` predicates say whether the attribute was present.
 */
module FirehoseXml {
  import opened Wrappers
  import opened Ints

  /** The `value` attribute of a response. */
  datatype ResponseValue = ACK | NAK

  /** The `storage_type` attribute; the enumeration's full list of media is not part of this model. */
  datatype StorageType = UFS | SPINOR | EMMC | NAND | SDCC

  /** The attributes a `<configure>` response carries. */
  datatype ConfigureResponse = ConfigureResponse(
    storageType: Option<StorageType>,
    minVersionSupported: Option<int32>,
    version: Option<int32>,
    maxPayloadSizeToTargetInBytes: Option<int32>,
    maxPayloadSizeToTargetInBytesSupported: Option<int32>,
    maxXmlSizeInBytes: Option<int32>,
    dateTime: Option<string>)
  {
    /** Property getters: an absent attribute reads as its default. */
    function GetStorageType(): StorageType { storageType.GetOr(UFS) }
    function MinVersionSupported(): int32 { minVersionSupported.GetOr(0) }
    function Version(): int32 { version.GetOr(0) }
    function MaxPayloadSizeToTargetInBytes(): int32 { maxPayloadSizeToTargetInBytes.GetOr(0) }
    function MaxPayloadSizeToTargetInBytesSupported(): int32 { maxPayloadSizeToTargetInBytesSupported.GetOr(0) }
    function MaxXmlSizeInBytes(): int32 { maxXmlSizeInBytes.GetOr(0) }

    /** An attribute is written back exactly when it has been set. */
    predicate ShouldSerializeStorageType() { storageType.Some? }
    predicate ShouldSerializeMinVersionSupported() { minVersionSupported.Some? }
    predicate ShouldSerializeVersion() { version.Some? }
    predicate ShouldSerializeMaxPayloadSizeToTargetInBytes() { maxPayloadSizeToTargetInBytes.Some? }
    predicate ShouldSerializeMaxPayloadSizeToTargetInBytesSupported() { maxPayloadSizeToTargetInBytesSupported.Some? }
    predicate ShouldSerializeMaxXmlSizeInBytes() { maxXmlSizeInBytes.Some? }

    /** True when the two records agree on every attribute except possibly `except`'s. */
    predicate SameExcept(other: ConfigureResponse, except: nat)
    {
      && (except != 0 ==> storageType == other.storageType)
      && (except != 1 ==> minVersionSupported == other.minVersionSupported)
      && (except != 2 ==> version == other.version)
      && (except != 3 ==> maxPayloadSizeToTargetInBytes == other.maxPayloadSizeToTargetInBytes)
      && (except != 4 ==> maxPayloadSizeToTargetInBytesSupported == other.maxPayloadSizeToTargetInBytesSupported)
      && (except != 5 ==> maxXmlSizeInBytes == other.maxXmlSizeInBytes)
      && (except != 6 ==> dateTime == other.dateTime)
    }

    /** Property setters: the value reads back, the attribute becomes serialisable, nothing else changes. */
    function SetStorageType(v: StorageType): (r: ConfigureResponse)
      ensures r.GetStorageType() == v && r.ShouldSerializeStorageType()
      ensures r.SameExcept(this, 0)
    {
      this.(storageType := Some(v))
    }

    function SetMinVersionSupported(v: int32): (r: ConfigureResponse)
      ensures r.MinVersionSupported() == v && r.ShouldSerializeMinVersionSupported()
      ensures r.SameExcept(this, 1)
    {
      this.(minVersionSupported := Some(v))
    }

    function SetVersion(v: int32): (r: ConfigureResponse)
      ensures r.Version() == v && r.ShouldSerializeVersion()
      ensures r.SameExcept(this, 2)
    {
      this.(version := Some(v))
    }

    function SetMaxPayloadSizeToTargetInBytes(v: int32): (r: ConfigureResponse)
      ensures r.MaxPayloadSizeToTargetInBytes() == v && r.ShouldSerializeMaxPayloadSizeToTargetInBytes()
      ensures r.SameExcept(this, 3)
    {
      this.(maxPayloadSizeToTargetInBytes := Some(v))
    }

    function SetMaxPayloadSizeToTargetInBytesSupported(v: int32): (r: ConfigureResponse)
      ensures r.MaxPayloadSizeToTargetInBytesSupported() == v
      ensures r.ShouldSerializeMaxPayloadSizeToTargetInBytesSupported()
      ensures r.SameExcept(this, 4)
    {
      this.(maxPayloadSizeToTargetInBytesSupported := Some(v))
    }

    function SetMaxXmlSizeInBytes(v: int32): (r: ConfigureResponse)
      ensures r.MaxXmlSizeInBytes() == v && r.ShouldSerializeMaxXmlSizeInBytes()
      ensures r.SameExcept(this, 5)
    {
      this.(maxXmlSizeInBytes := Some(v))
    }

    /** `DateTime` is a plain nullable string property. */
    function SetDateTime(v: Option<string>): (r: ConfigureResponse)
      ensures r.dateTime == v
      ensures r.SameExcept(this, 6)
    {
      this.(dateTime := v)
    }
  }

  /** A configure response that carried no attributes at all. */
  const NoConfigureAttributes: ConfigureResponse :=
    ConfigureResponse(None, None, None, None, None, None, None)

  /**
   * A `<response>`: the configure attributes it inherits, then its own
   * `value`, `rawmode` and `sha256` attributes.
   */
  datatype Response = Response(
    config: ConfigureResponse,
    value: Option<ResponseValue>,
    rawMode: bool,
    sha256: Option<string>)
  {
    /** An absent `value` reads as NAK. */
    function Value(): ResponseValue { value.GetOr(NAK) }
    predicate ShouldSerializeValue() { value.Some? }
    predicate ShouldSerializeSha256() { sha256.Some? }

    function SetValue(v: ResponseValue): (r: Response)
      ensures r.Value() == v && r.ShouldSerializeValue()
      ensures r.config == config && r.rawMode == rawMode && r.sha256 == sha256
    {
      this.(value := Some(v))
    }

    function SetRawMode(b: bool): (r: Response)
      ensures r.rawMode == b
      ensures r.config == config && r.value == value && r.sha256 == sha256
    {
      this.(rawMode := b)
    }

    function SetSha256(h: Option<string>): (r: Response)
      ensures r.ShouldSerializeSha256() <==> h.Some?
      ensures r.sha256 == h
      ensures r.config == config && r.value == value && r.rawMode == rawMode
    {
      this.(sha256 := h)
    }
  }

  /** A response element that carried no attributes at all. */
  const NoResponseAttributes: Response := Response(NoConfigureAttributes, None, false, None)

  /**
   * Reading an element that carried no attributes: every getter yields
   * its default and nothing is serialised back.
   */
  lemma AbsentAttributesReadAsDefaults()
    ensures NoConfigureAttributes.GetStorageType() == UFS
    ensures NoConfigureAttributes.MinVersionSupported() == 0
    ensures NoConfigureAttributes.Version() == 0
    ensures NoConfigureAttributes.MaxPayloadSizeToTargetInBytes() == 0
    ensures NoConfigureAttributes.MaxPayloadSizeToTargetInBytesSupported() == 0
    ensures NoConfigureAttributes.MaxXmlSizeInBytes() == 0
    ensures !NoConfigureAttributes.ShouldSerializeStorageType()
    ensures !NoConfigureAttributes.ShouldSerializeMinVersionSupported()
    ensures !NoConfigureAttributes.ShouldSerializeVersion()
    ensures !NoConfigureAttributes.ShouldSerializeMaxPayloadSizeToTargetInBytes()
    ensures !NoConfigureAttributes.ShouldSerializeMaxPayloadSizeToTargetInBytesSupported()
    ensures !NoConfigureAttributes.ShouldSerializeMaxXmlSizeInBytes()
    ensures NoResponseAttributes.Value() == NAK && !NoResponseAttributes.ShouldSerializeValue()
    ensures !NoResponseAttributes.rawMode && !NoResponseAttributes.ShouldSerializeSha256()
  {
  }

  /**
   * A NAK keeps the inherited attributes: the supported payload size a
   * device reports on rejection stays readable however the response's own
   * attributes are set.
   */
  lemma NakKeepsSupportedPayload(c: ConfigureResponse, raw: bool, h: Option<string>, supported: int32)
    ensures var r := Response(c.SetMaxPayloadSizeToTargetInBytesSupported(supported), None, raw, h).SetValue(NAK);
      r.Value() == NAK && r.config.MaxPayloadSizeToTargetInBytesSupported() == supported
  {
  }
}
