# Legato GNSS demo: a verified model of its core

The component (`Component/main.c`) runs on a Legato device. A 30 s timer raises
`WaitingForConnection`, arms a 10 s one-shot timeout and requests a data
connection. When the connection comes up, `ConnectionStateHandler` stops the
timeout, clears the flag, fetches a probe URL and an upload URL carrying the
latest fix, and releases the connection. A separate thread receives GNSS
position notifications: `PositionHandlerFunction` drops samples without a
position, and `getPositionInfo` copies the location and UTC time into globals
and rewrites `time_string` as `%02d:%02d:%02d:%02d`. Responses are gathered by
`getUrl` into a growable, NUL-terminated buffer (`curlStr_t`, `initString`,
`writeFunction`).

The model is in five modules:

- `CTypes` (`c_types.dfy`): `byte`, `uint16` and `int32`; the C string held in
  a sequence (`CString`); what `strcpy`/`sprintf` leave in a destination array
  (`StoreCString`, and the copy loop `CopyCString`).
- `HttpClient` (`http_client.dfy`): the class `CurlStr` (a `byte` array `ptr`
  and `len`) with `initString` as its constructor and `writeFunction` as an
  in-place method. `ReceiveBody` runs one write callback per delivered chunk.
  `GetUrl` models `getUrl`. A libcurl transfer is an abstract input
  (`Transfer`): whether `curl_easy_init` succeeded, the chunks delivered, and
  the code `curl_easy_perform` returned.
- `TimeFormat` (`time_format.dfy`): `%d` and `%02d` as pure functions and the
  time text. A parser reads the text back, and `ParseFormatTime` proves it
  recovers the four values.
- `Position` (`position.dfy`): the fix filter and `getPositionInfo` as
  functions on the values of the globals (`Fix`). The class `PositionGlobals`
  holds the globals, with `time_string` as a 30-element `char` array, and its
  methods are proved against those functions. A GNSS sample is an abstract
  input (`Sample`): each read's result code and the values it leaves.
- `Connection` (`connection.dfy`): the class `Orchestrator` holds
  `WaitingForConnection`, the armed/stopped state of the timeout timer and
  `ConnectionRef`. It records every Legato call it makes in a ghost trace.
  Its three handlers are proved against `Step`, a function from a `Session`
  and an `Event` to the new session and the calls made. Lemmas about `Run`,
  the fold of `Step` over any sequence of events, state the properties that
  span several events.

Behaviour of the code worth noting:

- The filter at Component/main.c:278 rejects only `LE_GNSS_STATE_FIX_NO_POS`
  or a failed state read. An `ESTIMATED` fix is accepted too, not only 2D/3D.
- `le_gnss_GetLocation` and `le_gnss_GetTime` take the globals as
  out-parameters (lines 237, 246), so the globals hold whatever the call
  leaves there, whatever its result. The model takes those values from the
  `Sample` input. The result codes gate only the logging and the
  `time_string` rewrite.
- Milliseconds are printed with `%02d` (line 250), not as three digits: 5 ms
  prints as `05` (`TimeFormat.FormatTimeExamples`).
- A disconnect and a timeout leave `WaitingForConnection` as it is (lines
  89-94, 205-209). Nothing returns the session to "idle" except a connect.
- `altitude` and `magneticDeviation` are never written, and no fix-state
  global exists.

## Model

| member | source | states |
|---|---|---|
| `CTypes.CString` | Component/main.c:156 | the C string in a buffer is its longest NUL-free prefix: a prefix, NUL-free, and followed by a NUL when shorter than the buffer |
| `CTypes.CStringOfStored` | Component/main.c:250 | a text without NUL written by `sprintf`/`strcpy` reads back as exactly that text |
| `CTypes.CStringOfAppendedNul` | Component/main.c:119 | appending the terminator does not change the C string the buffer holds |
| `CTypes.CopyCString` | Component/main.c:156 | the destination array holds the text, then a NUL, then its old elements; nothing else changes |
| `HttpClient.ConcatLength` | Component/main.c:139-144 | the joined chunks are exactly as long as the sum of the chunk sizes |
| `HttpClient.CurlStr.InitString` | Component/main.c:98-107 | the new buffer is empty: `len == 0`, and `ptr` is one byte, the terminator |
| `HttpClient.CurlStr.WriteFunction` | Component/main.c:110-123 | returns `size*nmemb`; `len` grows by exactly `size*nmemb`; bytes `[0, old len)` are unchanged; bytes `[old len, len)` are the chunk; `ptr[len]` is NUL |
| `HttpClient.Realloc` | Component/main.c:113 | the new block has the requested size and starts with the old block's bytes, as many as fit |
| `HttpClient.ReceiveBody` | Component/main.c:138-144 | `initString` and then one `writeFunction` call per chunk leave the concatenation of all chunks plus a NUL, with `len` equal to the sum of the chunk sizes |
| `HttpClient.GetUrl` | Component/main.c:126-165 | returns true iff curl initialised and `curl_easy_perform` returned `CURLE_OK`; only then is `dataout` written, with the accumulated text as a C string; otherwise `dataout` is unchanged |
| `TimeFormat.Decimal` | Component/main.c:250 | `%d` of a non-negative value: digits only, no leading zero, denoting the value |
| `TimeFormat.DecimalWidth` | Component/main.c:54-57 | a value below `10^k` prints in at most `k` digits |
| `TimeFormat.LeadingZero` | Component/main.c:250 | the zero that `%02d` pads with does not change the value the digits denote |
| `TimeFormat.Pad2` | Component/main.c:250 | `%02d`: at least two digits, denoting the value; exactly two when below 10 and otherwise exactly the `%d` digits, so a leading zero only ever pads to two; at most five for a `uint16` |
| `TimeFormat.FormatTime` | Component/main.c:54-58 | the time text is 11 to 23 characters with no NUL, so it and its terminator fit the 30-character `time_string` |
| `TimeFormat.ParseFormatTime` | Component/main.c:250 | reading the time text back gives the four values it was printed from, for every `uint16` input |
| `TimeFormat.FormatTimeExamples` | Component/main.c:250 | (14, 5, 9, 250) prints as `14:05:09:250`; 5 ms prints as `05` |
| `Position.InitialFix` | Component/main.c:46-58 | the globals start at zero and `time_string` holds the empty C string |
| `Position.PositionInfo` | Component/main.c:233-257 | location and time take the values the reads left; `time_string` reads as the formatted time when `le_gnss_GetTime` returned OK or OUT_OF_RANGE, and is untouched otherwise |
| `Position.RejectedChangesNothing` | Component/main.c:278-283 | a sample whose state read failed or reported no position changes no global |
| `Position.LocationIsLastAccepted` | Component/main.c:264-290 | after any run of notifications, latitude, longitude, accuracy and time fields hold the last accepted sample's values, or their old values if none was accepted; altitude and magnetic deviation never change |
| `Position.TimeStringIsLastTimed` | Component/main.c:246-256 | after any run, `time_string` reads as the time of the last accepted sample whose time read was usable, or is unchanged if there was none |
| `Position.PositionGlobals.constructor` | Component/main.c:46-58 | every global starts at zero and no sample has been released |
| `Position.PositionGlobals.GetPositionInfo` | Component/main.c:233-257 | the globals become `PositionInfo` of their old values; `time_string` keeps a terminator |
| `Position.PositionGlobals.PositionHandlerFunction` | Component/main.c:264-290 | the globals change only for an accepted sample, as `getPositionInfo` does; the sample is released exactly once on both paths |
| `Connection.RunKeepsConsistent` | Component/main.c:183-218 | over any run of events, the timeout timer runs only while `WaitingForConnection` is set |
| `Connection.WaitingUntilConnected` | Component/main.c:84-95 | once set, the flag stays set through ticks, disconnects and timeouts until a connect |
| `Connection.QuietEventsKeepFlag` | Component/main.c:205-209 | disconnects and timeouts never change the flag or `ConnectionRef` |
| `Connection.StepCounts` | Component/main.c:183-204 | a connect makes exactly one probe fetch, one upload fetch and one release; a tick makes exactly one connection request; other events make none of these |
| `Connection.RunCounts` | Component/main.c:183-226 | over any run, probe fetches, upload fetches and releases each equal the number of connects, and connection requests equal the number of ticks |
| `Connection.Orchestrator.constructor` | Component/main.c:40-42 | not waiting, timeout stopped, no request, no calls made |
| `Connection.Orchestrator.TimerHandler` | Component/main.c:212-226 | sets the flag; starts the timeout; then the GNSS service connect, the hot restart and the connection request; keeps the returned reference |
| `Connection.Orchestrator.ConnectionStateHandler` | Component/main.c:173-210 | on connect: stop the timeout, clear the flag, fetch the probe, fetch the upload URL built from the fix globals, release `ConnectionRef`, in that order and whatever the fetches return; on disconnect: no change and no call |
| `Connection.Orchestrator.TimeoutHandler` | Component/main.c:84-95 | the expired one-shot timer is stopped; the flag is unchanged; `le_timer_Stop` is called only when the flag is set |

## Left out

- libcurl (`curl_easy_*`) and the Legato services (`le_data_*`, `le_timer_*`,
  `le_gnss_*`) are not modelled. Their outcomes are inputs (`Transfer`,
  `Sample`, the `RequestRef` a request returns), and their calls are entries
  in a trace.
- `HttpClient.GetUrl`: the URL is not a parameter, because what libcurl does
  with it is the `Transfer` input.
- The position thread, its event loop and the unsynchronised sharing of the
  fix globals between threads (lines 297-309, 333-335) are concurrency. On
  connect, the model reads the globals as one consistent snapshot.
- The `%f` rendering of longitude and latitude in the upload URL and the logs
  is floating-point output. The upload target keeps the raw micro-degree
  integers and the `time_string` text it is printed from.
- The `malloc`/`realloc` failure paths that call `exit` (lines 102-105,
  114-117). Allocation always succeeds in the model.
- Freeing memory is not modelled, since Dafny is garbage-collected. The source
  frees the response buffer only on the success path (line 157), so a failed
  transfer leaks it.
- The overflow of the 1024-byte `dataout` by `strcpy` is not modelled.
  `Connection.Orchestrator.ConnectionStateHandler` requires that a successful
  response's text is shorter than `MAX_RECEIVE_LEN`.
- `HttpClient.CurlStr.WriteFunction`: `size*nmemb` and `len + size*nmemb + 1`
  are unbounded integers, not `size_t`. The wrap-around would need a response
  near the size of the address space.
- Logging text is not modelled, and neither is the `le_gnss_GetLocation`
  result, which only selects log lines. This includes the SSL help messages
  and the `STRINGIZE(TIMEOUT_SECS)` name mismatch at line 91.
- `sleep(10)`, `COMPONENT_INIT` (handler registration, timer creation, thread
  start, `le_gnss_Start`), and the real 30 s and 10 s intervals are not
  modelled. Timers are an armed/stopped flag and their expiries are events.
  Restarting a timer that is already running leaves it armed.
