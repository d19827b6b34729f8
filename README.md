# HQUtils: the HTTP/3 code-translation layer of proxygen, in Dafny

This project models `proxygen/lib/http/codec/HQUtils.cpp`, the pure and stateless translation layer of proxygen's HTTP/3-over-QUIC ("HQ") codec. It has four mappings and a set of named constants:

- `hqToHttpErrorCode` turns an HTTP/3 application error code into proxygen's generic (HTTP/2-named) `ErrorCode`. It is total: any code it does not name becomes `INTERNAL_ERROR`.
- `toProxygenError` classifies a QUIC error into a `ProxygenError`. The QUIC error is an application, local or transport code, and the function also takes whether the peer reported it.
- `httpToHqSettingsId` is partial: only header table size, max header list size and QPACK blocked streams have an HQ identifier.
- `hqToHttpSettingsId` is its inverse. It is declared to return an optional value, but it always returns one.
- The constants are the reserved session stream identifier and the eight default ingress and egress settings values.

Files:

- `Types.dfy` declares the enumerations that live in headers outside this model, as datatypes with no integer values: modules `Proxygen`, `Http3`, `Hq` and `Quic`. An open enumeration gets a catch-all constructor. `Http3.ErrorCode.OtherCode(n)` stands for any code a peer may send that the translator does not name. `Proxygen.SettingsId.OtherSetting(n)` stands for a registry entry with no HQ meaning. `Proxygen.ProxygenError.OtherProxygenError` stands for the error kinds this file never produces. `GIVEUP_ZERO_RTT` is the named constructor `Http3.GiveupZeroRtt`.
- `Uints.dfy` holds the C++ unsigned types and `1u << 17` as a 32-bit unsigned shift.
- `Wrappers.dfy` holds `Option`, which stands in for `folly::Optional`.
- `HQUtils.dfy` holds the four mappings and the constants.
- `HQUtilsLemmas.dfy` holds the properties: the authoritative mapping table, the preimage of each output, the round trips, and the constant values.

Two facts about the source worth noting:

- Nine codes (lines 45-53) collapse to `PROTOCOL_ERROR`.
- `hqToHttpSettingsId` is declared to return `folly::Optional`; the model keeps `Option` and proves the result is always `Some`.

## Model

| member | source | states |
|---|---|---|
| HQUtils.HqToHttpErrorCode | proxygen/lib/http/codec/HQUtils.cpp:29-58 | the translation is total and yields only NO_ERROR, REFUSED_STREAM, INTERNAL_ERROR, CANCEL, CONNECT_ERROR, ENHANCE_YOUR_CALM or PROTOCOL_ERROR, never an HTTP/2-only code; NO_ERROR comes from HTTP_NO_ERROR and nothing else |
| HQUtilsLemmas.HqToHttpErrorCodeFollowsTable | proxygen/lib/http/codec/HQUtils.cpp:29-58 | the translation agrees with the sixteen-entry HTTP/3 mapping table, and every code outside the table becomes INTERNAL_ERROR |
| HQUtilsLemmas.ProtocolErrorPreimage | proxygen/lib/http/codec/HQUtils.cpp:45-54 | a code becomes PROTOCOL_ERROR if and only if it is one of the nine framing and stream-integrity violations (closed critical stream through message error) |
| HQUtilsLemmas.RequestOutcomePreimages | proxygen/lib/http/codec/HQUtils.cpp:33-42 | REFUSED_STREAM, CANCEL, CONNECT_ERROR and ENHANCE_YOUR_CALM each come from exactly one code: request rejected, request cancelled, connect error and excessive load |
| HQUtilsLemmas.InternalErrorPreimage | proxygen/lib/http/codec/HQUtils.cpp:35-56 | INTERNAL_ERROR comes from exactly HTTP_INTERNAL_ERROR, HTTP_VERSION_FALLBACK, GIVEUP_ZERO_RTT and every code the switch does not name |
| HQUtils.ToProxygenError | proxygen/lib/http/codec/HQUtils.cpp:60-74 | the classification is total over the three variants of the QUIC error and yields one of the four transport faults, never another ProxygenError |
| HQUtilsLemmas.ProxygenErrorPreimages | proxygen/lib/http/codec/HQUtils.cpp:60-74 | early-data failure comes exactly from the GIVEUP_ZERO_RTT application code, whatever the peer flag; shutdown exactly from a local code; generic connection failure exactly from another application code that this endpoint reported; connection reset exactly from a transport code or from another application code that the peer reported |
| HQUtilsLemmas.PeerFlagMattersOnlyForApplicationCodes | proxygen/lib/http/codec/HQUtils.cpp:62-71 | the peer flag changes the result if and only if the error is an application code other than GIVEUP_ZERO_RTT |
| HQUtils.HttpToHqSettingsId | proxygen/lib/http/codec/HQUtils.cpp:76-88 | an HQ identifier comes back if and only if the setting is HEADER_TABLE_SIZE, MAX_HEADER_LIST_SIZE or _HQ_QPACK_BLOCKED_STREAMS; every other setting gives none |
| HQUtils.HqToHttpSettingsId | proxygen/lib/http/codec/HQUtils.cpp:90-100 | never returns none, and always returns one of the three HTTP settings that have an HQ meaning |
| HQUtilsLemmas.SettingTranslatorsFollowTable | proxygen/lib/http/codec/HQUtils.cpp:76-100 | both translators follow the three-entry pairing HEADER_TABLE_SIZE with HEADER_TABLE_SIZE, MAX_HEADER_LIST_SIZE with MAX_HEADER_LIST_SIZE, _HQ_QPACK_BLOCKED_STREAMS with QPACK_BLOCKED_STREAMS; an HTTP setting outside the pairing gives none |
| HQUtilsLemmas.HqSettingRoundTrip | proxygen/lib/http/codec/HQUtils.cpp:76-100 | going from HQ to HTTP and back returns the original HQ identifier |
| HQUtilsLemmas.HttpSettingRoundTrip | proxygen/lib/http/codec/HQUtils.cpp:76-100 | for each of the three HTTP settings with an HQ meaning, going from HTTP to HQ and back returns the original identifier |
| HQUtilsLemmas.SettingTranslatorsAreInverse | proxygen/lib/http/codec/HQUtils.cpp:76-100 | the HTTP setting maps to the HQ setting if and only if the HQ setting maps back to it |
| HQUtilsLemmas.SessionStreamIdIsReserved | proxygen/lib/http/codec/HQUtils.cpp:15 | the session stream identifier is 2^64 - 1, the largest uint64_t; it exceeds every 62-bit QUIC stream identifier, so no stream of the connection can carry it |
| HQUtilsLemmas.DefaultSettingsValues | proxygen/lib/http/codec/HQUtils.cpp:17-27 | `1u << 17` does not overflow 32 bits, so both max header list sizes are 131072; the table sizes are 0 and 4096, the QPACK blocked streams 0 and 100, the placeholders 0 and 16 |
| HQUtilsLemmas.IngressDefaultsAreConservative | proxygen/lib/http/codec/HQUtils.cpp:17-27 | the ingress table size, blocked-stream limit and placeholder count are below the egress ones, and the two max header list sizes are equal |

## Left out

- Numeric values of the enumerations (`HTTP3::ErrorCode`, `GIVEUP_ZERO_RTT`, `ErrorCode`, `SettingsId`, `hq::SettingId`, the QUIC codes): they are declared in headers that are not part of this model, so constructors stand for them and no integers are invented.
- The integer of a QUIC application error code is modelled as the HTTP/3 code it reads as. An integer the HTTP/3 enumeration does not name is `OtherCode`. Local and transport codes are opaque natural numbers, because the classifier never looks at them.
- The ProxygenError kinds other than the four this file returns are one catch-all constructor, because this file never produces or reads them.
- `folly::Optional` becomes `Option`, and `folly::assume_unreachable` plus the trailing `return folly::none` lines (87 and 99) have no counterpart, because the Dafny matches are exhaustive.
- Frame parsing, QPACK, stream multiplexing and socket I/O are outside this file and are not part of this model.
