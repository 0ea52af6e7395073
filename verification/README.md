# Windows loopback capture core of audio-share, modelled in Dafny

audio-share captures what a Windows playback device is outputting and broadcasts it to network clients.
This project models the logic in `server-core/src/win32/audio_manager_impl.cpp` that sits under the COM/WASAPI calls:

- **Format normalisation** (`AudioFormats`, `audio_format.dfy`). `set_format` maps the device mix format
  (a WAVEFORMATEX, or the WAVEFORMATEXTENSIBLE wrapper) to the `AudioFormat` message. Tags use the mmreg.h values:
  PCM = 1, IEEE_FLOAT = 3, EXTENSIBLE = 0xFFFE. The sub-format GUID becomes `SubPCM | SubFloat | SubOther`.
  `do_loopback_recording` rewrites an extensible float format to the plain IEEE_FLOAT tag before `set_format` runs,
  and the model includes that rewrite.
- **Endpoint directory** (`Endpoints`, `endpoints.dfy`). This covers `get_default_endpoint` and `get_endpoint_list`.
  Each COM call is replaced by the HRESULT it returned, plus the value it produced.
  The quirks of the code are kept as written:
  - `default_index` is reset to -1 before each data flow.
  - The stored index is the position inside the current collection.
  - Entries are appended to the caller's list, which is never cleared.
- **Capture loop** (`CaptureLoop`, `capture_loop.dfy`). The `do … while (!_stoppped)` loop of `do_loopback_recording`
  is a recursive function over a trace of `Wake` records, one per pass through the body. A `Wake` holds:
  - whether the timer wait failed;
  - the GetNextPacketSize, GetBuffer and ReleaseBuffer statuses, with the packet size and frame count;
  - the value of the stop flag when the loop condition reads it.

  The loop emits the calls it makes, its timer deadlines and its `broadcast_audio_data(count, nBlockAlign)`
  hand-offs as `Event`s. It ends `Stopped` (after `Stop()`), `Aborted(hr)` (`exit_on_failed`) or `Pending`
  (the trace ran out while the loop was still running). The `Initialize` call with its one
  EVENTCALLBACK fallback is modelled as well.
- **Failure policy** (`WinTypes`, `win_types.dfy`). `FAILED(hr)` is `hr < 0`. `exit_on_failed` becomes a
  `Checked<T> = Ok(value) | Fatal(hr)` result. `HRESULT_FROM_WIN32` and ERROR_NOT_FOUND (1168) are spelled out.
  The C++ integer widths are subset types: `u16`, `u32`, `i32` and `i64`.

Behaviour of the code kept as written:
- A device whose friendly name cannot be read ends the listing as a fatal error. It is not listed under its raw id.
- An unresolved format tag is not rejected before streaming. `set_format` just leaves the tag as it was.
- `default_index` is not a position in the returned list, and it never identifies the default playback device
  (see Findings).

## Model

| member | source | states |
|---|---|---|
| WinTypes.ExitOnFailed | server-core/src/win32/audio_manager_impl.cpp:333-339 | the process ends exactly when FAILED(hr), i.e. hr < 0; otherwise execution goes on with the value |
| WinTypes.HResultFromWin32 | server-core/src/win32/audio_manager_impl.cpp:269 | a code in 1..0x7FFFFFFF becomes a failing HRESULT with facility 7 and the code's low 16 bits; 0 stays S_OK; a code that is ≤ 0 when read as an HRESULT (0x80000000 and up) is returned unchanged |
| WinTypes.NotFound | server-core/src/win32/audio_manager_impl.cpp:269 | the "no default device" status is itself a failing HRESULT |
| WinTypes.NotFoundValue | server-core/src/win32/audio_manager_impl.cpp:269 | that status is 0x80070490 |
| AudioFormats.SetFormat | server-core/src/win32/audio_manager_impl.cpp:281-296 | PCM and IEEE_FLOAT tags are kept as they are, EXTENSIBLE+PCM gives PCM, EXTENSIBLE+float gives IEEE_FLOAT; any other input leaves the previous tag; channels, rate and bits are copied in every case |
| AudioFormats.SetFormatFollowsTable | server-core/src/win32/audio_manager_impl.cpp:283-292 | on a fresh message the tag is set exactly for the pairs in a closed (tag, sub-format) lookup table, and to the table's value |
| AudioFormats.SetFormatTagIsFlat | server-core/src/win32/audio_manager_impl.cpp:283-292 | a tag written by set_format is always PCM or IEEE_FLOAT, never EXTENSIBLE |
| AudioFormats.RewriteExtensible | server-core/src/win32/audio_manager_impl.cpp:99-105 | only the tag can change, and only EXTENSIBLE with a float sub-format changes, to IEEE_FLOAT |
| AudioFormats.RewriteIdempotent | server-core/src/win32/audio_manager_impl.cpp:99-105 | applying the rewrite twice is the same as applying it once |
| AudioFormats.RewriteThenSetFormat | server-core/src/win32/audio_manager_impl.cpp:99-107 | rewrite followed by set_format gives the same message as set_format alone, for every input and prior message |
| Endpoints.GetDefaultEndpoint | server-core/src/win32/audio_manager_impl.cpp:259-279 | returns "" when the lookup reports ERROR_NOT_FOUND and the default render id when every call succeeds; any other failed call is fatal |
| Endpoints.ReadDevice | server-core/src/win32/audio_manager_impl.cpp:224-242 | a device is read only when Item, GetId, OpenPropertyStore and GetValue all succeed, yielding its id and name |
| Endpoints.ReadDevices | server-core/src/win32/audio_manager_impl.cpp:222-242 | a collection reads to every device in order exactly when each device read succeeds; otherwise the first failing device decides the fatal status |
| Endpoints.LabelAll | server-core/src/win32/audio_manager_impl.cpp:244-246 | one entry per device, in collection order: the id, and the flow label, a space and the name |
| Endpoints.LabelText | server-core/src/win32/audio_manager_impl.cpp:245-246 | the labels are "[Playback] " for render devices and "[Recording] " for capture devices |
| Endpoints.ScanDevices | server-core/src/win32/audio_manager_impl.cpp:222-253 | the inner loop appends the labelled devices after the existing entries; the index ends at the last in-collection position whose id matches, or stays as it was if none does |
| Endpoints.FlowCalls | server-core/src/win32/audio_manager_impl.cpp:207-217 | one flow's enumeration goes on only when creating the enumerator, EnumAudioEndpoints and GetCount all succeed |
| Endpoints.ReadFlow | server-core/src/win32/audio_manager_impl.cpp:207-242 | one flow succeeds exactly when all its calls succeed (a "not found" default included), giving its devices and its re-queried default id |
| Endpoints.Assemble | server-core/src/win32/audio_manager_impl.cpp:200-256 | the caller's entries, then the render entries, then the capture entries; the index is the last capture position matching the capture-flow default id, -1 iff none matches |
| Endpoints.GetEndpointList | server-core/src/win32/audio_manager_impl.cpp:195-257 | succeeds exactly when every backend call succeeds; the caller's list is kept as a prefix with render then capture entries appended; default_index is the last in-group capture match or -1 |
| Endpoints.RenderGroupIgnored | server-core/src/win32/audio_manager_impl.cpp:219-250 | the render collection never affects the returned default_index |
| Endpoints.ListEndpointsIntended | server-core/src/win32/audio_manager_impl.cpp:248-250 | corrected index: -1 iff no render device has the default id, otherwise the position in the returned list of the LAST render entry with that id (no later render device has it) |
| Endpoints.DefaultPlaybackNotReported | server-core/src/win32/audio_manager_impl.cpp:219-256 | with one default speaker and one microphone, the code returns -1 although the speaker is entry 0 |
| CaptureLoop.PeriodMillis | server-core/src/win32/audio_manager_impl.cpp:141 | the timer period is the device period in 100ns units divided by 10000, rounded toward zero |
| CaptureLoop.PeriodMillisOdd | server-core/src/win32/audio_manager_impl.cpp:141 | that division is C++ `/` (toward zero), not Dafny's Euclidean `/`: negating the period negates the result |
| CaptureLoop.InitializeClient | server-core/src/win32/audio_manager_impl.cpp:119-127 | loopback mode is tried first; the event-callback attempt happens only when it fails, and the process ends only when both fail |
| CaptureLoop.ByteCount | server-core/src/win32/audio_manager_impl.cpp:175-176 | the byte count is frames times nBlockAlign wrapped to a 32-bit int, and equal to the product while the product fits |
| CaptureLoop.Iteration | server-core/src/win32/audio_manager_impl.cpp:153-189 | each pass moves the deadline on by one period and waits first; a failed wait breaks, a failed backend call aborts; otherwise the stop flag alone decides between going round again and leaving |
| CaptureLoop.NoPacketNoBufferWork | server-core/src/win32/audio_manager_impl.cpp:160-166 | a pass with a zero packet size (or a failed wait or packet query) only waits and asks for the size: no GetBuffer, broadcast or release |
| CaptureLoop.DeliveringPass | server-core/src/win32/audio_manager_impl.cpp:168-187 | a pass that gets its buffer makes exactly one broadcast of frames*nBlockAlign bytes with nBlockAlign bytes per frame, then releases the same frames |
| CaptureLoop.StopFlagOnlyAtCondition | server-core/src/win32/audio_manager_impl.cpp:153-189 | the stop flag never changes what a pass does, only whether another pass follows |
| CaptureLoop.PassDeadlines | server-core/src/win32/audio_manager_impl.cpp:154-155 | each pass sets the timer exactly once, to the previous deadline plus the period |
| CaptureLoop.PassReleases | server-core/src/win32/audio_manager_impl.cpp:172-187 | a pass releases the frames of its buffer if it got one, and nothing otherwise |
| CaptureLoop.PassPaired | server-core/src/win32/audio_manager_impl.cpp:172-187 | in one pass every broadcast follows GetBuffer and precedes the release of its frames |
| CaptureLoop.Executed | server-core/src/win32/audio_manager_impl.cpp:153-189 | the passes made: every one before the last goes round again, and the last leaves the loop unless the trace ran out |
| CaptureLoop.Loop | server-core/src/win32/audio_manager_impl.cpp:151-192 | the loop ends Stopped iff its last pass breaks or sees the stop flag, Aborted (with a failed status) iff that pass has a failed call, and is still running iff every pass goes round again |
| CaptureLoop.LoopPaired | server-core/src/win32/audio_manager_impl.cpp:168-187 | throughout a run, each broadcast sits between GetBuffer and the ReleaseBuffer of the same frames |
| CaptureLoop.LoopSchedule | server-core/src/win32/audio_manager_impl.cpp:151-155 | a run waits once per pass, and the k-th wait is for start + (k+1)*period, whatever the passes did |
| CaptureLoop.LoopReleases | server-core/src/win32/audio_manager_impl.cpp:160-187 | the frames released over a run are, in capture order, those of the passes that got a buffer |
| CaptureLoop.LoopStopsOnce | server-core/src/win32/audio_manager_impl.cpp:189-192 | Stop() is called iff the loop left normally, exactly once, as the last event |
| CaptureLoop.FirstPassUnconditional | server-core/src/win32/audio_manager_impl.cpp:153-189 | the first pass always runs, whatever the stop flag says |
| CaptureLoop.DoLoopbackRecording | server-core/src/win32/audio_manager_impl.cpp:99-192 | the published format equals set_format of the raw mix format; capture runs iff Initialize succeeds, using the mix format's nBlockAlign and the truncated period |

## Left out

- COM set-up in `do_loopback_recording` (enumerator, GetDevice, property store, Activate, GetMixFormat, GetDevicePeriod, GetBufferSize, GetService, Start): these are foreign calls, and the model takes their results (mix format, device period) as inputs that succeeded. A failure would be one more `exit_on_failed`.
- The `dwFlags` returned by GetBuffer (for example the silent-buffer flag): the code ignores them, and so does the model.
- The DEBUG-only `frame_count`/`seconds` bookkeeping: it is compiled out of release builds and only feeds a commented-out trace.
- The return value of `pAudioClient->Stop()`: the code ignores it, and the model only records the call.
- Real time, the asio timer and threading: deadlines are integers in milliseconds, and the start time is a parameter. `_stoppped` is written by another thread and is modelled as a per-pass input read at the loop condition.
- `network_manager::broadcast_audio_data`, client sessions, per-session queues and backpressure: network_manager.hpp is not part of this model. A broadcast is only the event `(count, nBlockAlign)`.
- `wchars_to_mbs`, `wchars_to_utf8`, `mbs_to_wchars`, `str_win_err`, `wstr_win_err`: these are code-page and message wrappers over Win32, so ids and names are opaque strings.
- `print_endpoints`, spdlog output, the constructor and destructor (COM init), and the process exit code of `exit_on_failed`: these are logging and process plumbing.
- The payload bytes of a broadcast: the code moves them verbatim, so only their count and frame size are modelled.

## Findings

| source | as written | input that shows it | evidently intended | confidence | as-written member | corrected member |
|---|---|---|---|---|---|---|
| server-core/src/win32/audio_manager_impl.cpp:219-250 | `default_index` is reset to -1 before each data flow and set to the in-collection position `i`, so only capture devices can match the default playback id | render devices [("A", "Speakers")], capture devices [("B", "Microphone")], default playback id "A": returns -1, yet entry 0 is the default speaker | the position in the returned list of the default playback device (0 here) | medium; not executed | Endpoints.Assemble, Endpoints.DefaultPlaybackNotReported | Endpoints.ListEndpointsIntended |
