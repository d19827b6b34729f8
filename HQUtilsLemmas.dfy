/**
 * What the translation layer of HQUtils.cpp promises, proved about the model:
 * the error-code translation agrees with the HTTP/3 mapping table and each
 * generic code has the preimage the table gives it; the QUIC classifier
 * uses the peer flag only for ordinary application codes; the two setting
 * translators are inverse on the three settings HQ knows; the constants hold
 * the values the HQ session relies on.
 */
module HQUtilsLemmas {
  import opened Wrappers
  import opened Uints
  import opened HQUtils
  import Proxygen
  import Http3
  import Hq
  import Quic

  // ---------------------------------------------------------------------------
  // Error codes

  /** The authoritative HTTP/3 to generic mapping, one entry per HTTP/3 code the translator names. */
  const ErrorCodeTable: map<Http3.ErrorCode, Proxygen.ErrorCode> := map[
    Http3.HttpNoError := Proxygen.NoError,
    Http3.HttpRequestRejected := Proxygen.RefusedStream,
    Http3.HttpInternalError := Proxygen.InternalError,
    Http3.HttpRequestCancelled := Proxygen.Cancel,
    Http3.HttpConnectError := Proxygen.ConnectError,
    Http3.HttpExcessiveLoad := Proxygen.EnhanceYourCalm,
    Http3.HttpVersionFallback := Proxygen.InternalError,
    Http3.HttpClosedCriticalStream := Proxygen.ProtocolError,
    Http3.HttpMissingSettings := Proxygen.ProtocolError,
    Http3.HttpFrameUnexpected := Proxygen.ProtocolError,
    Http3.HttpStreamCreationError := Proxygen.ProtocolError,
    Http3.HttpFrameError := Proxygen.ProtocolError,
    Http3.HttpIdError := Proxygen.ProtocolError,
    Http3.HttpSettingsError := Proxygen.ProtocolError,
    Http3.HttpIncompleteRequest := Proxygen.ProtocolError,
    Http3.HttpMessageError := Proxygen.ProtocolError
  ]

  /**
   * hqToHttpErrorCode is the mapping table; a code the table does not list
   * (the zero round-trip give-up, any unknown value) is an internal error.
   */
  lemma HqToHttpErrorCodeFollowsTable(err: Http3.ErrorCode)
    ensures err in ErrorCodeTable ==> HqToHttpErrorCode(err) == ErrorCodeTable[err]
    ensures err !in ErrorCodeTable ==> HqToHttpErrorCode(err) == Proxygen.InternalError
  {
  }

  /** The nine framing and stream-integrity violations. */
  predicate IsFramingOrStreamViolation(err: Http3.ErrorCode)
  {
    err in {Http3.HttpClosedCriticalStream, Http3.HttpMissingSettings, Http3.HttpFrameUnexpected,
            Http3.HttpStreamCreationError, Http3.HttpFrameError, Http3.HttpIdError,
            Http3.HttpSettingsError, Http3.HttpIncompleteRequest, Http3.HttpMessageError}
  }

  /** Exactly the nine framing and stream-integrity violations become PROTOCOL_ERROR. */
  lemma ProtocolErrorPreimage(err: Http3.ErrorCode)
    ensures HqToHttpErrorCode(err) == Proxygen.ProtocolError <==> IsFramingOrStreamViolation(err)
  {
  }

  /** Rejected, cancelled, connect-failed and overloaded requests each have their own generic code. */
  lemma RequestOutcomePreimages(err: Http3.ErrorCode)
    ensures HqToHttpErrorCode(err) == Proxygen.RefusedStream <==> err == Http3.HttpRequestRejected
    ensures HqToHttpErrorCode(err) == Proxygen.Cancel <==> err == Http3.HttpRequestCancelled
    ensures HqToHttpErrorCode(err) == Proxygen.ConnectError <==> err == Http3.HttpConnectError
    ensures HqToHttpErrorCode(err) == Proxygen.EnhanceYourCalm <==> err == Http3.HttpExcessiveLoad
  {
  }

  /**
   * INTERNAL_ERROR is what an internal error, a version fallback, the zero
   * round-trip give-up and every code the translator does not know become.
   */
  lemma InternalErrorPreimage(err: Http3.ErrorCode)
    ensures HqToHttpErrorCode(err) == Proxygen.InternalError <==>
      err == Http3.HttpInternalError || err == Http3.HttpVersionFallback
      || err == Http3.GiveupZeroRtt || err.OtherCode?
  {
  }

  // ---------------------------------------------------------------------------
  // Transport faults

  /** Each transport fault the classifier produces, and exactly the inputs that produce it. */
  lemma ProxygenErrorPreimages(error: Quic.QuicErrorCode, fromPeer: bool)
    ensures ToProxygenError(error, fromPeer) == Proxygen.ErrorEarlyDataFailed <==>
      error == Quic.ApplicationErrorCode(Http3.GiveupZeroRtt)
    ensures ToProxygenError(error, fromPeer) == Proxygen.ErrorShutdown <==> error.LocalErrorCode?
    ensures ToProxygenError(error, fromPeer) == Proxygen.ErrorConnection <==>
      error.ApplicationErrorCode? && error.app != Http3.GiveupZeroRtt && !fromPeer
    ensures ToProxygenError(error, fromPeer) == Proxygen.ErrorConnectionReset <==>
      error.TransportErrorCode? || (error.ApplicationErrorCode? && error.app != Http3.GiveupZeroRtt && fromPeer)
  {
  }

  /** Who reported the error matters only for an application code other than the give-up. */
  lemma PeerFlagMattersOnlyForApplicationCodes(error: Quic.QuicErrorCode)
    ensures ToProxygenError(error, true) != ToProxygenError(error, false) <==>
      error.ApplicationErrorCode? && error.app != Http3.GiveupZeroRtt
  {
  }

  // ---------------------------------------------------------------------------
  // Setting identifiers

  /** The HTTP settings that have an HQ counterpart, paired with it. */
  const SettingsTable: map<Proxygen.SettingsId, Hq.SettingId> := map[
    Proxygen.HeaderTableSize := Hq.HeaderTableSize,
    Proxygen.MaxHeaderListSize := Hq.MaxHeaderListSize,
    Proxygen.HqQpackBlockedStreams := Hq.QpackBlockedStreams
  ]

  /**
   * Both translators follow the pairing table: HTTP to HQ looks the setting
   * up (none when it has no entry), HQ to HTTP returns the setting paired
   * with the HQ identifier.
   */
  lemma SettingTranslatorsFollowTable(http: Proxygen.SettingsId, hq: Hq.SettingId)
    ensures HttpToHqSettingsId(http) == if http in SettingsTable then Some(SettingsTable[http]) else None
    ensures HqToHttpSettingsId(hq).Some?
    ensures HqToHttpSettingsId(hq).value in SettingsTable
    ensures SettingsTable[HqToHttpSettingsId(hq).value] == hq
  {
  }

  /** HQ to HTTP and back gives the HQ setting again. */
  lemma HqSettingRoundTrip(id: Hq.SettingId)
    ensures HttpToHqSettingsId(HqToHttpSettingsId(id).value) == Some(id)
  {
  }

  /** HTTP to HQ and back gives the HTTP setting again, for the three settings HQ knows. */
  lemma HttpSettingRoundTrip(id: Proxygen.SettingsId)
    requires HasHqMeaning(id)
    ensures HttpToHqSettingsId(id).Some?
    ensures HqToHttpSettingsId(HttpToHqSettingsId(id).value) == Some(id)
  {
  }

  /** The two translators are each other's inverse: they relate the same pairs. */
  lemma SettingTranslatorsAreInverse(http: Proxygen.SettingsId, hq: Hq.SettingId)
    ensures HttpToHqSettingsId(http) == Some(hq) <==> HqToHttpSettingsId(hq) == Some(http)
  {
  }

  // ---------------------------------------------------------------------------
  // Constants

  /**
   * The session stream identifier is the largest uint64_t, 2^64 - 1; a QUIC
   * stream identifier is below 2^62 (section 2.1 of RFC 9000), so no stream
   * of the connection can carry it.
   */
  lemma SessionStreamIdIsReserved()
    ensures SessionStreamId as int == Pow2(64) - 1
    ensures !Quic.IsQuicStreamId(SessionStreamId)
    ensures forall id: Quic.StreamId :: Quic.IsQuicStreamId(id) ==> id < SessionStreamId
  {
    Pow2Values();
  }

  /**
   * The eight defaults: `1u << 17` does not overflow 32 bits, so both max
   * header list sizes are 2^17 = 131072; the rest are literal.
   */
  lemma DefaultSettingsValues()
    ensures DefaultIngressMaxHeaderListSize as int == Pow2(17) == 131072
    ensures DefaultEgressMaxHeaderListSize == DefaultIngressMaxHeaderListSize
    ensures DefaultIngressHeaderTableSize == 0 && DefaultEgressHeaderTableSize == 4096
    ensures DefaultIngressQpackBlockedStream == 0 && DefaultEgressQpackBlockedStream == 100
    ensures DefaultIngressNumPlaceHolders == 0 && DefaultEgressNumPlaceHolders == 16
  {
    Pow2Values();
  }

  /** The ingress defaults never assume more of the peer than this endpoint offers. */
  lemma IngressDefaultsAreConservative()
    ensures DefaultIngressHeaderTableSize < DefaultEgressHeaderTableSize
    ensures DefaultIngressQpackBlockedStream < DefaultEgressQpackBlockedStream
    ensures DefaultIngressNumPlaceHolders < DefaultEgressNumPlaceHolders
    ensures DefaultIngressMaxHeaderListSize == DefaultEgressMaxHeaderListSize
  {
  }
}
