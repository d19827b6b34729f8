/**
 * The vocabularies that the translation layer in HQUtils.cpp maps between.
 * They are declared in headers that are not part of this model (HQUtils.h,
 * the HTTP/3 error-code header, proxygen's ErrorCode / SettingsId /
 * ProxygenError headers and the QUIC error-code header), so each enumeration
 * is a datatype whose constructors carry the source's names and no integer
 * values. Where an enumeration is open (an integer the peer may send, or a
 * registry with members this file never touches), a catch-all constructor
 * stands for every value the file does not name.
 */

/** proxygen's own vocabulary: generic HTTP error codes, HTTP settings, transport faults. */
module Proxygen {

  /** The generic HTTP error codes; they carry the names of section 7 of RFC 7540. */
  datatype ErrorCode =
    | NoError
    | ProtocolError
    | InternalError
    | FlowControlError
    | SettingsTimeout
    | StreamClosed
    | FrameSizeError
    | RefusedStream
    | Cancel
    | CompressionError
    | ConnectError
    | EnhanceYourCalm
    | InadequateSecurity
    | Http11Required

  /**
   * The HTTP settings registry. The six settings of section 6.5.2 of RFC 7540,
   * proxygen's HQ-only `_HQ_QPACK_BLOCKED_STREAMS`, and every other registry
   * entry (extensions that have no meaning in HQ) as OtherSetting.
   */
  datatype SettingsId =
    | HeaderTableSize
    | EnablePush
    | MaxConcurrentStreams
    | InitialWindowSize
    | MaxFrameSize
    | MaxHeaderListSize
    | HqQpackBlockedStreams
    | OtherSetting(id: nat)

  /**
   * The transport faults the HTTP layer reacts to. The four that the QUIC
   * classifier produces are named; the many other kinds of ProxygenError
   * (read, write, timeout, TLS, parse errors ...) are one catch-all, since
   * this layer never produces them.
   */
  datatype ProxygenError =
    | ErrorEarlyDataFailed
    | ErrorConnectionReset
    | ErrorShutdown
    | ErrorConnection
    | OtherProxygenError
}

/** The HTTP/3 application error codes (draft-era names of section 8.1 of RFC 9114). */
module Http3 {

  /**
   * The sixteen codes the translator names, the zero round-trip give-up code,
   * and any other value a peer may send as OtherCode.
   */
  datatype ErrorCode =
    | HttpNoError
    | HttpRequestRejected
    | HttpInternalError
    | HttpRequestCancelled
    | HttpConnectError
    | HttpExcessiveLoad
    | HttpVersionFallback
    | HttpClosedCriticalStream
    | HttpMissingSettings
    | HttpFrameUnexpected
    | HttpStreamCreationError
    | HttpFrameError
    | HttpIdError
    | HttpSettingsError
    | HttpIncompleteRequest
    | HttpMessageError
    | GiveupZeroRtt
    | OtherCode(value: nat)
}

/** The HQ setting identifiers (section 7.2.4.1 of RFC 9114, section 5 of RFC 9204). */
module Hq {

  datatype SettingId =
    | HeaderTableSize
    | MaxHeaderListSize
    | QpackBlockedStreams
}

/** The QUIC transport's error union and stream identifiers. */
module Quic {
  import Http3
  import Uints

  /** quic::StreamId is a uint64_t. */
  type StreamId = Uints.uint64

  /** A stream of a QUIC connection has a 62-bit identifier (section 2.1 of RFC 9000). */
  predicate IsQuicStreamId(id: StreamId)
  {
    id as int < Uints.Pow2(62)
  }

  /**
   * The three-way QuicErrorCode union. An application code is the integer
   * both endpoints' application protocols agree on, here read in the HTTP/3
   * vocabulary; local and transport codes are opaque to this layer (section
   * 20 of RFC 9000 lists the transport ones).
   */
  datatype QuicErrorCode =
    | ApplicationErrorCode(app: Http3.ErrorCode)
    | LocalErrorCode(local: nat)
    | TransportErrorCode(transport: nat)
}
