/**
 * The translation layer of proxygen/lib/http/codec/HQUtils.cpp: four pure
 * mappings between the HTTP/3, QUIC and proxygen vocabularies, and the named
 * constants of the HQ session (the reserved session stream identifier and the
 * default ingress and egress settings values).
 */
module HQUtils {
  import opened Wrappers
  import opened Uints
  import Proxygen
  import Http3
  import Hq
  import Quic

  // ---------------------------------------------------------------------------
  // Constants

  /** The session's own stream: the largest uint64_t, which no QUIC stream can carry. */
  const SessionStreamId: Quic.StreamId := Uint64Max

  /** Ingress defaults: what is assumed of the peer until its SETTINGS arrive. */
  const DefaultIngressHeaderTableSize: uint64 := 0
  const DefaultIngressNumPlaceHolders: uint64 := 0
  const DefaultIngressMaxHeaderListSize: uint64 := ShiftLeftU32(1, 17) as uint64
  const DefaultIngressQpackBlockedStream: uint64 := 0

  /** Egress defaults: what this endpoint advertises. */
  const DefaultEgressHeaderTableSize: uint64 := 4096
  const DefaultEgressNumPlaceHolders: uint64 := 16
  const DefaultEgressMaxHeaderListSize: uint64 := ShiftLeftU32(1, 17) as uint64
  const DefaultEgressQpackBlockedStream: uint64 := 100

  // ---------------------------------------------------------------------------
  // Error codes

  /** The generic codes an HTTP/3 error code can be translated to. */
  ghost predicate ReachableFromHttp3(c: Proxygen.ErrorCode)
  {
    c in {Proxygen.NoError, Proxygen.RefusedStream, Proxygen.InternalError, Proxygen.Cancel,
          Proxygen.ConnectError, Proxygen.EnhanceYourCalm, Proxygen.ProtocolError}
  }

  /**
   * hqToHttpErrorCode: total; every code it does not name, GIVEUP_ZERO_RTT
   * included, falls to the default branch and reads as an internal error.
   * The HTTP/2-only codes (flow control, settings timeout, ...) never come out.
   */
  function HqToHttpErrorCode(err: Http3.ErrorCode): (r: Proxygen.ErrorCode)
    ensures ReachableFromHttp3(r)
    ensures r == Proxygen.NoError <==> err == Http3.HttpNoError
  {
    match err
    case HttpNoError => Proxygen.NoError
    case HttpRequestRejected => Proxygen.RefusedStream
    case HttpInternalError => Proxygen.InternalError
    case HttpRequestCancelled => Proxygen.Cancel
    case HttpConnectError => Proxygen.ConnectError
    case HttpExcessiveLoad => Proxygen.EnhanceYourCalm
    case HttpVersionFallback => Proxygen.InternalError
    case HttpClosedCriticalStream => Proxygen.ProtocolError
    case HttpMissingSettings => Proxygen.ProtocolError
    case HttpFrameUnexpected => Proxygen.ProtocolError
    case HttpStreamCreationError => Proxygen.ProtocolError
    case HttpFrameError => Proxygen.ProtocolError
    case HttpIdError => Proxygen.ProtocolError
    case HttpSettingsError => Proxygen.ProtocolError
    case HttpIncompleteRequest => Proxygen.ProtocolError
    case HttpMessageError => Proxygen.ProtocolError
    case _ => Proxygen.InternalError
  }

  // ---------------------------------------------------------------------------
  // Transport faults

  /**
   * toProxygenError: classifies a QUIC error; whether the peer reported it
   * only matters for an application code other than the zero round-trip
   * give-up. The match is exhaustive, so the source's unreachable tail has
   * no counterpart.
   */
  function ToProxygenError(error: Quic.QuicErrorCode, fromPeer: bool): (r: Proxygen.ProxygenError)
    ensures r != Proxygen.OtherProxygenError
  {
    match error
    case ApplicationErrorCode(app) =>
      if app == Http3.GiveupZeroRtt then Proxygen.ErrorEarlyDataFailed
      else if fromPeer then Proxygen.ErrorConnectionReset
      else Proxygen.ErrorConnection
    case LocalErrorCode(_) => Proxygen.ErrorShutdown
    case TransportErrorCode(_) => Proxygen.ErrorConnectionReset
  }

  // ---------------------------------------------------------------------------
  // Setting identifiers

  /** The three HTTP settings that have a meaning in HQ. */
  predicate HasHqMeaning(id: Proxygen.SettingsId)
  {
    id == Proxygen.HeaderTableSize || id == Proxygen.MaxHeaderListSize
    || id == Proxygen.HqQpackBlockedStreams
  }

  /** httpToHqSettingsId: partial; a setting with no meaning in HQ gives None. */
  function HttpToHqSettingsId(id: Proxygen.SettingsId): (r: Option<Hq.SettingId>)
    ensures r.Some? <==> HasHqMeaning(id)
  {
    match id
    case HeaderTableSize => Some(Hq.HeaderTableSize)
    case MaxHeaderListSize => Some(Hq.MaxHeaderListSize)
    case HqQpackBlockedStreams => Some(Hq.QpackBlockedStreams)
    case _ => None
  }

  /**
   * hqToHttpSettingsId: declared to return an optional, but every HQ setting
   * has an HTTP counterpart, one with a meaning in HQ.
   */
  function HqToHttpSettingsId(id: Hq.SettingId): (r: Option<Proxygen.SettingsId>)
    ensures r.Some? && HasHqMeaning(r.value)
  {
    match id
    case HeaderTableSize => Some(Proxygen.HeaderTableSize)
    case MaxHeaderListSize => Some(Proxygen.MaxHeaderListSize)
    case QpackBlockedStreams => Some(Proxygen.HqQpackBlockedStreams)
  }
}
