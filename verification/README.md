# Network-diagnostic aggregation in the OpenThread border router's REST server

This project models, in Dafny, the part of the REST resource of `ot-br-posix` that answers
`/diagnostics`, together with the lookup tables around it:

- **Issue** (`Resource::Diagnostic`): sends a diagnostic-get for the fixed list of 15 TLV types.
  The first goes to the node's own RLOC and the second to the all-routers group `ff03::2`. On
  success the response is stamped with a start time and marked as waiting for its callback.
- **Collect** (`Resource::DiagnosticResponseHandler`): reads the TLVs of one reply until the
  iterator stops succeeding. The correlation key is the last short-address TLV formatted as
  `0x%04x` and passed through the JSON string encoder; without one it is the raw sentinel
  `"0xffee"`. The reply is then stored.
- **Store** (`Resource::UpdateDiag`): the table `mDiagSet` maps a key to its capture time and TLV
  list. A new reply replaces the old entry for its key (last writer wins).
- **Completion gate** (`Resource::HandleDiagnosticCallback`): polled by the server loop. It does
  nothing until 2,000,000 µs after the start time. After that it sweeps the table, copies every
  entry's TLV list into the body and completes the response with `200 OK`.
- **Sweep** (`Resource::DeleteOutDatedDiagnostic`): erases, in place, every entry aged
  3,000,000 µs or more.
- **Dispatch** (`Resource::Handle`, `Resource::HandleCallback`): maps a URL to its handler
  through the maps the constructor fills. An unknown URL gets 404 from `Handle`.
- **Status lines** (`GetHttpStatus`) and the enum-to-name functions of `api_strings.cpp`.

Layout: `types.dfy` (integer widths, `Option`), `diag_tlvs.dfy` (TLVs, the reply iterator, the
correlation key), `diag_store.dfy` (the table as a value: update, sweep, enumeration),
`http_status.dfy`, `api_strings.dfy`, `resource.dfy` (the classes `Response` and `Resource`) and
`scenarios.dfy`. The last file holds client methods that drive four end-to-end cycles (one
reply, three replies, a stale entry evicted, two replies colliding on the sentinel key) and the
failure paths. They rely only on the contracts.

The classes follow the source's form. `Resource.diagSet` is a `map` field that `UpdateDiag`
reassigns. `DeleteOutDatedDiagnostic` erases from it entry by entry in a loop. The snapshot and
the TLV read are loops with invariants. `Response` holds the fields the handlers set. Each
state-changing method's `ensures` ties the new state to a specification function of the old one
(`Stored`, `Swept`, `AfterIssue`, `WithSnapshot`, `WithError`). The properties are proved as
lemmas about those functions.

Inputs that stand for code outside the model:
- The clock (`steady_clock::now()`) is an explicit `now: int` in microseconds.
- The results of `otThreadSendDiagnosticGet` and `otIp6AddressFromString` are `OtError`
  parameters of `Diagnostic`. The sends it attempts are its output.
- The reply iterator `otThreadGetNextDiagnosticTlv` is a sequence of steps, each a TLV or a
  non-success status.
- `Json::CString2JsonString` is the function parameter `toJson`.
- `Json::Diag2JsonString` and `Json::Error2JsonString` are the `Body` constructors. They record
  the arguments passed to the encoder.

## Model

| member | source | states |
|---|---|---|
| `RestResource.Resource.UpdateDiag` | src/rest/resource.cpp:1570-1577 | the table afterwards is the old one with the key bound to exactly the given TLVs stamped `now` |
| `DiagStore.StoredReplaces` | src/rest/resource.cpp:1570-1577 | after an update the key maps to the new TLVs and time, every other key keeps its entry, and the key set grows by at most that one key |
| `DiagStore.StoredTwice` | src/rest/resource.cpp:1576 | two replies under one key leave only the second (last writer wins, judged by value) |
| `RestResource.Resource.DeleteOutDatedDiagnostic` | src/rest/resource.cpp:1551-1568 | the erase loop leaves exactly the entries younger than the retention horizon, unchanged |
| `DiagStore.SweptHasNoOutdated` | src/rest/resource.cpp:1557-1562 | after the sweep no entry has `now - startTime >= 3000000` |
| `DiagStore.SweptKeepsCurrent` | src/rest/resource.cpp:1563-1566 | every entry younger than the horizon survives with its content and timestamp, and no key is added |
| `DiagStore.SweptLater` | src/rest/resource.cpp:1551-1568 | sweeping at one time and then at a later time equals one sweep at the later time |
| `DiagStore.SweptSize` | src/rest/resource.cpp:1551-1568 | the sweep never grows the table |
| `DiagStore.StoredSurvivesSweep` | src/rest/resource.cpp:1559-1574 | an entry stored less than 3,000,000 µs before a sweep is still there with its TLVs |
| `DiagStore.ReplyInWindowSurvives` | src/rest/resource.cpp:212-216 | a reply stored after the request started is in the swept table, with its TLVs, at every completing poll (from the 2,000,000 µs deadline) made before 3,000,000 µs have passed since the start |
| `RestResource.Resource.CollectContents` | src/rest/resource.cpp:219-222 | the copy loop returns one TLV list per entry: it visits every key exactly once, in some iteration order, and puts that entry's TLV list at the key's position, so every entry's list is present and every list comes from an entry |
| `DiagStore.ContentsAlong` | src/rest/resource.cpp:219-222 | the listed contents has one element per visited key, the TLV list of that key's entry |
| `DiagStore.EnumerationSize` | src/rest/resource.cpp:219-222 | a duplicate-free visit of every key has exactly as many elements as the table |
| `DiagStore.EnumerationVisitsOnce` | src/rest/resource.cpp:219-222 | each entry's TLV list appears in the snapshot, at exactly one position |
| `RestResource.Resource.HandleDiagnosticCallback` | src/rest/resource.cpp:207-230 | before 2,000,000 µs have elapsed the table and the response are unchanged and the response is not completed. From then on the table is the swept one, the body lists the swept entries' TLV lists (one per key), and the response is `200 OK` and complete |
| `RestResource.WithSnapshot` | src/rest/resource.cpp:224-228 | the completed response carries `200 OK`, the diagnostic body and the complete flag, and keeps start time and callback flag |
| `RestResource.Resource.ReadReply` | src/rest/resource.cpp:1631-1639 | the read loop keeps exactly the TLVs before the first non-success iterator result, in order, and ends with `KeyOf` of them: the JSON form of the last short-address TLV's formatted address (`keyRloc`, lines 1624-1637), or the sentinel |
| `DiagTlvs.Yielded` | src/rest/resource.cpp:1631 | the TLVs read are a prefix of the steps, all successful, followed by a non-success step or the end |
| `DiagTlvs.YieldedUnique` | src/rest/resource.cpp:1631-1639 | any list read up to the first non-success result is that prefix |
| `DiagTlvs.KeyOfAppend` | src/rest/resource.cpp:1633-1638 | one loop step: a short-address TLV sets the key to its formatted address, any other TLV keeps it |
| `DiagTlvs.KeyWithoutShortAddress` | src/rest/resource.cpp:1625 | a reply with no short-address TLV is filed under the raw sentinel `"0xffee"` |
| `DiagTlvs.KeyFromLastShortAddress` | src/rest/resource.cpp:1633-1637 | with several short-address TLVs, the key comes from the last one |
| `DiagTlvs.FormatRloc16` | src/rest/resource.cpp:1635 | `0x%04x` of a 16-bit value is six characters: `0x` and four lower-case hex digits |
| `DiagTlvs.RoundTripRloc16` | src/rest/resource.cpp:1635 | the address can be read back from its key text |
| `DiagTlvs.FormatRloc16Injective` | src/rest/resource.cpp:1635 | distinct addresses give distinct key texts |
| `DiagTlvs.DistinctSendersDistinctKeys` | src/rest/resource.cpp:1633-1640 | replies whose last short-address TLVs (at any position, later TLVs of other types allowed) carry different addresses get different keys when the JSON string encoder is injective |
| `RestResource.Resource.DiagnosticResponseHandler` | src/rest/resource.cpp:1618-1647 | on `OT_ERROR_NONE` it updates the table once, with every TLV read before the iterator stopped, under the derived key, stamped `now`. On any other error the table is unchanged and a warning is logged |
| `RestResource.Resource.Diagnostic` | src/rest/resource.cpp:1579-1608 | attempts the unicast and then the multicast query with the 15-type list. On success it stamps the start time and sets the callback flag. On any failure it answers 500, sets neither, and keeps the earlier send. It changes only the response, never the table |
| `RestResource.AttemptedQueries` | src/rest/resource.cpp:1586-1595 | the unicast to the own RLOC is always attempted. The multicast to `ff03::2` follows only when the unicast was accepted and the address parsed |
| `RestResource.AfterIssue` | src/rest/resource.cpp:1597-1607 | success stamps `now` and sets the callback flag without completing; failure completes with `500 Internal Server Error` and leaves start time and flag alone |
| `RestResource.Resource.ErrorHandler` | src/rest/resource.cpp:232-240 | the response gets the error's status line and JSON error body and is complete |
| `RestResource.WithError` | src/rest/resource.cpp:232-240 | the error response carries the status line of its code and is complete; start time and callback flag are kept |
| `RestResource.Registered` | src/rest/resource.cpp:146-171 | emplacing the registrations in order binds exactly the registered paths, each to the handler of its first registration |
| `RestResource.Resource.constructor` | src/rest/resource.cpp:141-172 | the resource map holds the emplaced paths (the SRP-server path only with the advertising proxy), the callback map holds `/diagnostics`, the table starts empty |
| `RestResource.Resource.Handle` | src/rest/resource.cpp:179-193 | a registered URL is dispatched to its handler (`Diagnostic` behaves as above); any other URL is answered 404 |
| `RestResource.Resource.HandleCallback` | src/rest/resource.cpp:195-205 | `/diagnostics` is polled through the completion gate; any other URL changes nothing |
| `HttpStatus.GetHttpStatus` | src/rest/resource.cpp:100-139 | every code is sent as a status line: three digits, a space, a reason phrase |
| `HttpStatus.StatusLineCarriesCode` | src/rest/resource.cpp:67-76 | each status line begins with its code's number |
| `HttpStatus.GetHttpStatusInjective` | src/rest/resource.cpp:100-139 | no two codes share a status line |
| `HttpStatus.SuccessLines` | src/rest/resource.cpp:67-69 | only OK, Created and No Content are 2xx lines |
| `ApiStrings.GetDeviceRoleName` | src/common/api_strings.cpp:31-55 | each of the five roles gets its name constant; any other value gets the empty string |
| `ApiStrings.GetDhcp6PdStateName` | src/common/api_strings.cpp:57-77 | disabled, stopped and running get their names; any other value gets the empty string |
| `ApiStrings.GetCommissionerStateName` | src/common/api_strings.cpp:79-97 | disabled, petition and active get their names; any other value gets the empty string |
| `ApiStrings.GetSrpServerStateName` | src/common/api_strings.cpp:99-117 | disabled, running and stopped get their names; any other value gets the empty string |
| `ApiStrings.GetSrpClientItemStateName` | src/common/api_strings.cpp:119-152 | each of the eight item states gets its own name; any other value gets the empty string |
| `ApiStrings.RoleNamesDistinct` | src/common/api_strings.cpp:37-51 | the five role names are non-empty and pairwise distinct |
| `ApiStrings.SrpClientItemStateNamesDistinct` | src/common/api_strings.cpp:125-148 | the eight item-state names are non-empty and pairwise distinct |
| `ApiStrings.NameIdentifiesValue` | src/common/api_strings.cpp:31-152 | with a distinct-name table, a non-empty name is produced exactly by an enumerator and identifies it |
| `ApiStrings.DeviceRoleNameInjective` | src/common/api_strings.cpp:31-55 | distinct roles are reported under distinct names |
| `ApiStrings.Dhcp6PdStateNameInjective` | src/common/api_strings.cpp:57-77 | distinct prefix-delegation states are reported under distinct names |
| `ApiStrings.CommissionerStateNameInjective` | src/common/api_strings.cpp:79-97 | distinct commissioner states are reported under distinct names |
| `ApiStrings.SrpServerStateNameInjective` | src/common/api_strings.cpp:99-117 | distinct SRP server states are reported under distinct names |
| `ApiStrings.SrpClientItemStateNameInjective` | src/common/api_strings.cpp:119-152 | distinct SRP item states are reported under distinct names |

## Behaviours worth noting

- **Issue failure.** A unicast accepted before a later step fails is not undone
  (`AttemptedQueries`).
- **Partial replies.** An iterator error in the middle of a reply ends the loop, and the TLVs read
  before it are still stored. Only a non-success `aError` skips the store.
- **Repeated polls.** The complete flag is not checked. A repeated poll past the deadline sweeps
  again and completes the response again, with a fresh snapshot. No idempotence is claimed.

## Left out

- OpenThread calls (`otThreadSendDiagnosticGet`, `otThreadGetNextDiagnosticTlv`, `otIp6AddressFromString`, `otThreadGetRloc`): foreign library code. Their results are inputs and the destinations are symbolic (`OwnRloc`, the group text `ff03::2`).
- JSON encoders (`Json::CString2JsonString`, `Diag2JsonString`, `Error2JsonString`): their code is not part of this model. The first is an arbitrary function parameter; the other two are recorded as the `Body` they are applied to.
- The static trampoline `DiagnosticResponseHandler(otError, otMessage*, const otMessageInfo*, void*)`: it only casts its context pointer and forwards.
- The single-shot getters and setters behind the other URLs (node info, state, dataset, commissioner, joiner, SRP client and server): each is a call-translate-respond wrapper over the OpenThread instance.
- RestResource.Resource.Handle: for a URL bound to one of those handlers, the contract states only the handler chosen; what that handler writes into the response is left unspecified.
- Logging: `otbrLogWarning` is reduced to the `warned` result of `DiagnosticResponseHandler`.
- The clock: `steady_clock` is an explicit `now` in whole microseconds. One `now` serves the whole sweep, where the source reads the clock once per entry. The `duration_cast` truncation below a microsecond and the 64-bit range of the count are not modelled.
- Iteration order of `mDiagSet`: the container type is declared in `resource.hpp`, which is not part of this model. The snapshot is specified for every duplicate-free order of the keys. Where a new key lands in that order is not modelled.
- The `Response` class (`resource.hpp`, `response.cpp`) is not part of this model. Only the five fields set by these handlers are modelled, with an assumed initial state (empty code, no body, not complete, start time 0, no callback).
- Enumerator values and name texts: the numeric values of the OpenThread enums and the texts of the `OTBR_*_NAME_*` constants come from headers that are not part of this model. The values used are OpenThread's numbering from 0 in declaration order, and the texts are the header's names. The proved properties (enumerators named, other values empty, names distinct) hold for any distinct non-empty texts.
- Build options: `OTBR_ENABLE_DHCP6_PD` is not modelled, and `GetDhcp6PdStateName` is always present. `OTBR_ENABLE_SRP_ADVERTISING_PROXY` is the constructor's `srpAdvertisingProxy` flag.
- Completion-once enforcement and concurrency: these live in the server loop that calls these handlers, which is single-threaded and not part of this model.
