# inkycal core, modelled in Dafny

inkycal drives an e-ink calendar dashboard. A timer runs `run_once` periodically; each run:

- fetches today's and tomorrow's events;
- deduplicates them;
- folds all-day events into one merged line;
- annotates timed events with driving times;
- hashes the render-relevant payload;
- redraws the panel only when something visible changed, an hour passed, or the overnight sleep banner is due.

Around this pipeline are:

- a WMO weather-code mapping and an hourly forecast lookup;
- two sysfs probes, one for the UPS/battery and one for Wi-Fi;
- a provisioning service that reads and writes the `.env` file, merges settings into the YAML configuration and talks to `nmcli`;
- a BLE provisioning daemon, a small state machine that validates JSON payloads.

The model has one Dafny module per concern:

- `Wrappers`, `Text`, `Sorting`, `JsonValue`, `Sysfs`: the Python behaviour the core relies on. This covers `strip`, `lower`, `split`, `splitlines`, `int()`, stable `sorted`, `dict.get` on decoded JSON, and reading a sysfs file.
- `EventModel`: the `Event` record and `_normalize_text`. A datetime is an instant in epoch seconds plus its UTC offset. It also holds the display order `_event_sort_key`.
- `Dedupe`, `AllDayMerge`, `Travel`, `TravelTimes`, `SleepSchedule`, `Signature`, `RunDecision`: `src/inkycal/main.py` and `src/inkycal/travel.py`. `RunDecision.State` is the `State` record of `src/inkycal/state.py`.
- `Weather`, `Ups`, `Network`: `src/inkycal/weather.py`, `src/inkycal/ups.py`, `src/inkycal/network.py`.
- `EnvFile`, `Provisioning`: `src/inkycal/provisioning.py`.
- `ProvisioningDaemon`: `src/inkycal/provisioning_daemon.py`.

External interactions become parameters of the model:

- **Oracles** (function-typed parameters or `const` fields): the geocoding and routing services, the JSON decoder, the SHA-256 of the JSON payload, ISO-8601 formatting and parsing, the `nmcli` runner and the success of `systemctl`/`nmcli` commands.
- **Optional values**: directory listings and file contents, where `None` stands for an `OSError`.

Where the source loops or changes state, the model does too:

- The loops of `_dedupe_events`, `_apply_travel_times`, `probe_ups`, `get_wifi_status`, `forecast_for_datetime` and `_load_env` are methods with `for` loops. Each is proved equal to a specification function, and the properties are proved about that function.
- `TravelTimeResolver`, `ProvisioningService`, `ProvisioningDaemon` and `State` are classes whose fields the methods update.

## Model

| member | source | states |
|---|---|---|
| EventModel.NormalizeText | src/inkycal/main.py:46-49 | the result is trimmed, lower-case, with single spaces between words; `None` and `""` give `""` |
| EventModel.NoneAndEmptyNormalizeAlike | src/inkycal/main.py:46-48 | a missing and an empty location normalise to the same `""` |
| EventModel.EventLeTotalPreorder | src/inkycal/main.py:52-53 | the order all-day first, then start instant, then lower-cased title is total and transitive |
| EventModel.SortEvents | src/inkycal/main.py:59 | `sorted(events, key=_event_sort_key)` is a permutation of the input, ordered by that key |
| Text.ParseIntOfIntToString | src/inkycal/main.py:28 | `int()` reads back every decimal rendering of an integer |
| Text.NormalizeSpacesIdempotent | src/inkycal/main.py:49 | `" ".join(s.split())` applied twice equals once |
| Text.SplitOnJoinOn | src/inkycal/main.py:27 | `split(sep)` undoes a join of separator-free parts |
| Sorting.SortBySorted | src/inkycal/main.py:59 | the stable insertion sort standing for `sorted` yields an ordered permutation under any total preorder |
| Sorting.SortByOfSorted | src/inkycal/main.py:59 | sorting an already ordered list returns it unchanged |
| Sorting.FirstIndexIsLeast | src/inkycal/ups.py:55-67 | the first match of a first-match loop over a sorted list is least among all matches |
| SleepSchedule.ParseHHMM | src/inkycal/main.py:26-28 | an accepted `HH:MM` is a valid time of day; it is rejected as not two fields exactly when splitting at ':' does not give two parts |
| SleepSchedule.ParseFormatHHMM | src/inkycal/main.py:26-28 | every valid time of day, written `H:M`, parses back to itself |
| SleepSchedule.SleepWindowCases | src/inkycal/main.py:31-36 | start < end: inside iff start ≤ t < end; start > end: inside iff not in [end, start); start == end: always inside; reversed windows are complementary |
| SleepSchedule.OvernightWindowExample | src/inkycal/main.py:32-36 | 22:30→06:30 contains 23:00 and 05:00 but not 12:00 |
| SleepSchedule.HourlyRefreshCases | src/inkycal/main.py:148-157 | an empty or unparseable last-render stamp never forces a refresh; a stamp that parses back to its instant forces one iff the threshold has elapsed |
| Dedupe.DedupeEvents | src/inkycal/main.py:56-71 | the loop returns the first event of each key, taken in sort order (`KeepFirst` of the sorted input) |
| Dedupe.DedupeProperties | src/inkycal/main.py:56-71 | the output is sorted, has pairwise distinct keys, covers exactly the input's keys, has one event per key, and keeps each key's first event in sort order |
| Dedupe.DedupeIdempotent | src/inkycal/main.py:56-71 | deduplicating a deduplicated list changes nothing |
| Dedupe.DedupePair | src/inkycal/main.py:60-70 | two events collapse to one exactly when their (title, start, end, all-day, location) keys are equal |
| Dedupe.DedupeNoneLocationIsEmpty | src/inkycal/main.py:46-48 | events differing only by a `None` versus `""` location collapse to one |
| Dedupe.KeepFirstOfUnique | src/inkycal/main.py:67-70 | a list without repeated keys passes through unchanged |
| Dedupe.KeepFirstSorted | src/inkycal/main.py:59-70 | keeping first occurrences preserves the display order |
| AllDayMerge.AllDayEvents | src/inkycal/main.py:75 | exactly the all-day events of the input |
| AllDayMerge.TimedEvents | src/inkycal/main.py:76 | exactly the timed events of the input |
| AllDayMerge.SplitCounts | src/inkycal/main.py:75-78 | each event lands in exactly one of the two lists; no all-day event means the timed list is the input |
| AllDayMerge.SortedTitles | src/inkycal/main.py:80 | the stripped non-blank titles, sorted by code point, as a permutation |
| AllDayMerge.EarliestStart | src/inkycal/main.py:93 | `min` of the all-day starts: one of them, no later than any |
| AllDayMerge.LatestEnd | src/inkycal/main.py:94 | `max` of the all-day ends: one of them, no earlier than any |
| AllDayMerge.MergeAllDayWithoutAllDay | src/inkycal/main.py:77-78 | without all-day events the input comes back unchanged and in order |
| AllDayMerge.MergeAllDaySummary | src/inkycal/main.py:90-97 | one merged all-day event with source "merged" comes first and spans from the earliest all-day start to the latest all-day end; the length is #timed + 1 |
| AllDayMerge.MergeAllDayTimed | src/inkycal/main.py:97 | after the merged event come the timed events, as a sorted permutation |
| AllDayMerge.MergeAllDayAtMostOneAllDay | src/inkycal/main.py:74-97 | only the first event of the result can be all-day |
| AllDayMerge.SummaryTitleCases | src/inkycal/main.py:80-88 | "All-day events" / "All-day: a" / "All-day: a, b" / "All-day: a, b, +N more", with N = count − 2 and titles drawn from stripped input titles |
| Travel.Normalize | src/inkycal/travel.py:96-97 | the result is trimmed, lower-case, with single spaces between words |
| Travel.NormalizeIdempotent | src/inkycal/travel.py:96-97 | normalising twice is normalising once |
| Travel.RoundMinutesNearest | src/inkycal/travel.py:63 | `round(seconds / 60)` is within half a minute of the exact value |
| Travel.RouteEstimate | src/inkycal/travel.py:62-64 | a routed estimate has at least one minute and the text `"{minutes} min"` |
| Travel.EstimateForCases | src/inkycal/travel.py:24-69 | blank normalised input gives `None`; equal addresses give 0 minutes; any other estimate needs both geocodes and a route, and has ≥ 1 minute |
| Travel.EstimateForNormalizes | src/inkycal/travel.py:25-26 | addresses that normalise alike get the same answer |
| Travel.TravelTimeResolver.constructor | src/inkycal/travel.py:18-22 | both caches start empty, and the cache invariant holds |
| Travel.TravelTimeResolver.Geocode | src/inkycal/travel.py:71-93 | answers what the geocoder answers; caches every address, including failures; a cached address leaves the geocoder's call log unchanged, an uncached one appends exactly that address |
| Travel.TravelTimeResolver.Resolve | src/inkycal/travel.py:30-69 | returns the cached value if present; otherwise zero for equal addresses, or the geocoded route; stores the answer, `None` included; a cached key or equal addresses call neither the geocoder nor the router, otherwise exactly the uncached addresses are geocoded and the router is called once iff both geocodes succeed |
| Travel.TravelTimeResolver.Route | src/inkycal/travel.py:39-69 | for two different addresses: the uncached answer; both addresses end up in the geocode cache; only the addresses not cached before are geocoded, and the router is called once with both coordinates iff both geocodes succeed |
| Travel.TravelTimeResolver.Estimate | src/inkycal/travel.py:24-69 | the answer equals the uncached specification; blank input leaves both caches untouched and calls neither service; a key already cached calls neither service; otherwise the normalised key is cached, and existing entries are never changed |
| TravelTimes.ApplyTravelTimes | src/inkycal/main.py:100-137 | the loop, with a fresh caching resolver, computes `TravelSpec` with the resolver's oracles |
| TravelTimes.AnnotateWith | src/inkycal/main.py:112-134 | one timed event annotated through the resolver equals its annotation from the chosen origin |
| TravelTimes.TravelSpecAt | src/inkycal/main.py:100-137 | the same length; all-day events and an empty origin pass through; a timed event changes only its travel text, which is "Travel: " + the estimate iff it has a location and an estimate exists; a chained origin is the previous timed event's non-empty location, ending within the window |
| TravelTimes.LastTimed | src/inkycal/main.py:106-135 | the tracked previous event is a timed event of the prefix |
| TravelTimes.TravelSpecKeepsAllDay | src/inkycal/main.py:107-110 | no event is added, dropped or reordered, and all-day events are untouched |
| TravelTimes.ProcessEvents | src/inkycal/main.py:140-145 | deduplicate, merge, then annotate when travel is enabled |
| TravelTimes.ProcessSpecShape | src/inkycal/main.py:140-145 | the result is no longer than the input, and only a first merged event can be all-day |
| Signature.PayloadsOf | src/inkycal/main.py:192-193 | one payload per event, in order |
| Signature.EventPayloadExact | src/inkycal/main.py:170-179 | two events give equal payloads iff they agree on source, title, start, end, all-day, location-or-"" and travel-text-or-"" |
| Signature.UpsPayloadExact | src/inkycal/main.py:181-186 | two UPS dicts give equal payloads iff their present/status/capacity/online values agree, with defaults False/""/None/None |
| Signature.SignatureOnlyDrawn | src/inkycal/main.py:160-196 | inputs that draw alike hash alike, whatever else differs |
| Signature.SignatureDetectsChange | src/inkycal/main.py:160-196 | under an injective hash, equal signatures mean equal header, banner flag, Wi-Fi status, UPS payload and drawn events |
| RunDecision.State.constructor | src/inkycal/state.py:8-11 | a new state has all three fields `""` |
| RunDecision.State.RunOnce | src/inkycal/main.py:212-324 | the outcome is `Run` of the old state: `Decide`, or `Failed` when the Google fetch, the render or the display raised; the new state is `NextState`, and nothing is written on a skip or a failure |
| RunDecision.RunExactly | src/inkycal/main.py:237-324 | a run fails iff it got past the sleep check and the Google fetch raised, or it was going to redraw and the render or display raised; otherwise it ends as decided; a failed run writes nothing |
| RunDecision.State.Poll | src/inkycal/main.py:285-303 | the render-or-skip decision after the fetch, with the state unchanged |
| RunDecision.State.Commit | src/inkycal/main.py:320-323 | sets `last_hash` and `last_rendered_iso`; sets the banner date only when the banner was newly applied |
| RunDecision.SleepSkipExactly | src/inkycal/main.py:215-229 | the run returns before fetching iff in the sleep window, the banner already shown today, and neither force nor deep-clean; never with sleep disabled |
| RunDecision.RenderExactly | src/inkycal/main.py:295-303 | past the sleep skip, it renders iff force, deep-clean, a new banner, the hourly floor, or a changed signature |
| RunDecision.NextStateExactly | src/inkycal/main.py:320-324 | the state is unchanged unless rendered; on render: hash := signature, rendered := now, banner date := today iff the banner was newly applied |
| RunDecision.BannerOncePerDay | src/inkycal/main.py:221-229 | after the banner render, a later unforced run on the same day inside the sleep window returns before fetching |
| RunDecision.NoRedrawWithinTheHour | src/inkycal/main.py:290-303 | out of the sleep window, within an hour of a render and with the same signature, the next unforced run skips the redraw |
| RunDecision.BadSleepTimeAborts | src/inkycal/main.py:212-213 | an unparseable sleep start or end aborts the run, whatever the flags |
| Weather.WeatherIcon | src/inkycal/weather.py:17-37 | total, and always one of the six glyphs |
| Weather.WeatherIconGroups | src/inkycal/weather.py:21-37 | sun iff code 0; umbrella, rain, snow and lightning iff the code is in their group; cloud for 1, 2, 3, 45, 48 and every unlisted code |
| Weather.LastIndex | src/inkycal/weather.py:73-75 | the last row with a given hour text, or -1 iff there is none |
| Weather.ForecastSpecCases | src/inkycal/weather.py:46-83 | naive time, empty or misaligned lists give `None`; otherwise there is a result iff the hour key occurs, taken from its last occurrence |
| Weather.ForecastForDatetime | src/inkycal/weather.py:46-83 | the dict-filling loop and lookup compute `ForecastSpec` |
| Weather.ForecastForEventStart | src/inkycal/weather.py:85-86 | equals `forecast_for_datetime` of the event start |
| Sysfs.ReadText | src/inkycal/ups.py:9-13 | an unreadable file reads as `""`; otherwise the stripped content |
| Ups.PowerSourceFromStatus | src/inkycal/ups.py:23-31 | the result is `None`, "battery" or "external" |
| Ups.PowerSourceCases | src/inkycal/ups.py:23-31 | "battery" iff the normalised status is "discharging"; "external" iff it is charging/full/not charging; `None` otherwise, the empty status included |
| Ups.PowerSourceNormalizes | src/inkycal/ups.py:24 | surrounding whitespace and letter case do not matter |
| Ups.SupplyLeTotalPreorder | src/inkycal/ups.py:50-53 | the battery-first, then-name order is a total preorder |
| Ups.ProbeOrder | src/inkycal/ups.py:43-55 | exactly the directory entries, sorted battery-first then by name |
| Ups.ProbeUps | src/inkycal/ups.py:34-69 | returns `ProbeSpec` of the listing |
| Ups.FirstQualifying | src/inkycal/ups.py:55-69 | the loop returns the reading of the first supply with a capacity or a known status, else not present |
| Ups.ProbeSpecCases | src/inkycal/ups.py:34-69 | unreadable directory gives not present; present iff some directory qualifies; the reported one qualifies and is least in probe order; present implies a percent or a power source |
| Ups.ProbePrefersBatteries | src/inkycal/ups.py:50-67 | a qualifying battery means a battery is reported |
| Network.InterfaceStatus | src/inkycal/network.py:28-39 | always "connected", "disconnected" or "" |
| Network.InterfaceStatusCases | src/inkycal/network.py:28-39 | carrier "1"/"0" decides; otherwise operstate up/unknown → connected, other non-empty → disconnected, empty → "" |
| Network.NameLeTotalPreorder | src/inkycal/network.py:18 | the name order of the sorted listing is a total preorder |
| Network.GetWifiStatus | src/inkycal/network.py:15-41 | the loop computes `WifiStatusSpec` |
| Network.WifiStatusCases | src/inkycal/network.py:15-41 | one of the three strings; "" for an unreadable directory or no wireless interface; otherwise the status of the first wireless interface by name |
| JsonValue.Get | src/inkycal/provisioning_daemon.py:48-50 | `dict.get`: the value when present, else the default |
| JsonValue.PyInt | src/inkycal/provisioning_daemon.py:88-89 | `int()` of a decoded JSON value: integers pass; booleans give 0 or 1; floats are truncated toward zero (within one of the value, never past zero); text is parsed; null, lists and objects fail |
| JsonValue.Truncate | src/inkycal/provisioning.py:84 | `int()` of a float: non-negative floats round down, negative ones up, so the result is within one of the value and never crosses zero |
| JsonValue.PyIntOfWholeFloat | src/inkycal/provisioning.py:84 | `int()` of a float carrying a whole number gives that number |
| JsonValue.PyIntOfText | src/inkycal/provisioning_daemon.py:88-89 | `int()` reads back a decimal string |
| EnvFile.ParseLines | src/inkycal/provisioning.py:129-134 | one parse per line, in order |
| EnvFile.CollectLookup | src/inkycal/provisioning.py:128-135 | a key is loaded iff some line defines it, and its value comes from the last such line |
| EnvFile.SortedKeys | src/inkycal/provisioning.py:141 | `sorted(env)`: every key once, strictly ascending |
| EnvFile.RenderLines | src/inkycal/provisioning.py:141 | one `key="value"` line per key, in key order |
| EnvFile.ParseEnvLineOfEnvLine | src/inkycal/provisioning.py:133-134 | a written line parses back to its key and value |
| EnvFile.LoadRenderEnv | src/inkycal/provisioning.py:129-142 | loading a rendered map returns the map when keys and values are safe |
| EnvFile.UpdateEnvRoundTrip | src/inkycal/provisioning.py:125-142 | `_load_env` after `_update_env(u)` is the old map updated with `u`, for safe updates |
| EnvFile.StripQuotesOfQuoted | src/inkycal/provisioning.py:134 | `strip('"')` removes the written quotes and nothing else |
| Provisioning.Pick | src/inkycal/provisioning.py:87-98 | exactly the allowed keys present in the update, with their values |
| Provisioning.MergeSectionCases | src/inkycal/provisioning.py:88-99 | the section is created when absent; allowed keys replace, others stay; a non-mapping section fails only when there is something to copy |
| Provisioning.MergeSettingsPreserves | src/inkycal/provisioning.py:78-100 | only timezone, poll interval, sleep and display change; every other key stays; both sections exist afterwards |
| Provisioning.MergeSettingsErrors | src/inkycal/provisioning.py:83-99 | it fails with a non-integer poll interval iff one is given; any other failure is a non-mapping `sleep` or `display` |
| Provisioning.ConnectCommandShape | src/inkycal/provisioning.py:49-51 | `nmcli device wifi connect <ssid>`, plus `password <pw>` iff the password is non-empty |
| Provisioning.StatusFromNmcliCases | src/inkycal/provisioning.py:148-155 | non-zero exit → failed, with the stripped stderr; else the first "yes:" line names the SSID after its first colon; no such line → not connected |
| Provisioning.ParsePayload | src/inkycal/provisioning.py:162-169 | invalid JSON and a non-object are refused; an object is returned as decoded |
| Provisioning.ProvisioningService.constructor | src/inkycal/provisioning.py:25-27 | the service holds the given runner, environment file and configuration |
| Provisioning.ProvisioningService.SetWifi | src/inkycal/provisioning.py:41-59 | fails iff the stripped SSID is blank; reports a missing `nmcli`; otherwise runs the connect command and reports exit code 0 as connected |
| Provisioning.ProvisioningService.WifiStatus | src/inkycal/provisioning.py:144-155 | a missing `nmcli` is reported; otherwise the parse of the status query |
| Provisioning.ProvisioningService.LoadEnv | src/inkycal/provisioning.py:125-135 | the loop computes `LoadEnvText` of the file |
| Provisioning.ProvisioningService.UpdateEnv | src/inkycal/provisioning.py:137-142 | the file becomes the rendered merged map, and loading it gives the old map updated with the updates when they are safe |
| Provisioning.ProvisioningService.UpdateSettings | src/inkycal/provisioning.py:78-100 | the configuration becomes `MergeSettings`, or stays unchanged on failure |
| Provisioning.GoogleUpdates | src/inkycal/provisioning.py:70-74 | exactly the given non-empty paths, under their two keys; empty iff neither is given |
| Provisioning.HasAfterUpdate | src/inkycal/provisioning.py:34-37 | after `env.update`, an updated key counts as set iff its new value is non-empty |
| Provisioning.ProvisioningService.GetStatus | src/inkycal/provisioning.py:29-39 | reports the Wi-Fi status and the configuration; a missing `.env` file sets no credential flag |
| Provisioning.ProvisioningService.SetIcloudCredentials | src/inkycal/provisioning.py:61-67 | the stripped pair is merged into the `.env` file; when it reads back, the status flags each credential iff it is non-blank |
| Provisioning.ProvisioningService.SetGoogleOauthPaths | src/inkycal/provisioning.py:69-76 | without a non-empty path the file is untouched; otherwise the paths are merged, and the status then flags each given path |
| Provisioning.ProvisioningService.Apply | src/inkycal/provisioning.py:102-114 | no restart asked for, or no `systemctl`, runs nothing; otherwise one restart of both timers, restarted iff exit code 0 |
| ProvisioningDaemon.StateNamesDistinct | src/inkycal/provisioning_daemon.py:44-100 | the seven state names are distinct |
| ProvisioningDaemon.ParseJson | src/inkycal/provisioning_daemon.py:153-161 | "Invalid JSON payload" or "Payload must be an object", else the decoded object |
| ProvisioningDaemon.StrippedText | src/inkycal/provisioning_daemon.py:48-50 | `payload.get(key, default).strip()`: a non-text value raises |
| ProvisioningDaemon.ValidateWifiCases | src/inkycal/provisioning_daemon.py:47-54 | accepted iff the stripped SSID is non-blank and the password is at least 8 characters; the country defaults to "US"; the two error messages |
| ProvisioningDaemon.ValidateOauth | src/inkycal/provisioning_daemon.py:62-66 | accepted code and state are non-blank |
| ProvisioningDaemon.ValidateIcloud | src/inkycal/provisioning_daemon.py:73-77 | accepted username and app password are non-blank |
| ProvisioningDaemon.ValidateTextPairCases | src/inkycal/provisioning_daemon.py:61-77 | accepted iff both stripped values are non-blank text, giving the stripped pair; a non-text value fails at the first such key; blank values give `"iCloud username and app_password are required"` or `"Google OAuth code + state are required"` |
| ProvisioningDaemon.IcloudEnvReadsBack | src/inkycal/provisioning_daemon.py:79-80 | the written `.env` holds exactly two lines, and loading it gives exactly ICAL_USER and ICAL_PASS |
| ProvisioningDaemon.Required | src/inkycal/provisioning_daemon.py:85-91 | `payload[key]`: a `KeyError` iff the key is missing |
| ProvisioningDaemon.RequiredInt | src/inkycal/provisioning_daemon.py:88-89 | `int(payload[key])`: succeeds iff present and convertible |
| ProvisioningDaemon.ValidateSettingsCases | src/inkycal/provisioning_daemon.py:82-92 | accepted iff all seven keys are present and both integers convert; the record carries the payload's values; a rejection names the first failing key in argument order |
| ProvisioningDaemon.Issued | src/inkycal/provisioning_daemon.py:147-151 | commands run one by one up to and including the first that raises |
| ProvisioningDaemon.DryRunIssuesAll | src/inkycal/provisioning_daemon.py:147-150 | in dry-run mode no command fails |
| ProvisioningDaemon.Daemon.constructor | src/inkycal/provisioning_daemon.py:42-44 | a new daemon is idle and has done nothing |
| ProvisioningDaemon.Daemon.RunAll | src/inkycal/provisioning_daemon.py:147-151 | issues commands until the first failure, which is the first failing index |
| ProvisioningDaemon.Daemon.OnWifiConfig | src/inkycal/provisioning_daemon.py:46-59 | a rejected payload changes nothing; otherwise the two nmcli commands are issued, ending in wifi_connected, or wifi_connecting when one fails |
| ProvisioningDaemon.Daemon.OnGoogleOauthCode | src/inkycal/provisioning_daemon.py:61-70 | rejected: state unchanged; accepted: icloud_pending |
| ProvisioningDaemon.Daemon.OnIcloudConfig | src/inkycal/provisioning_daemon.py:72-80 | rejected: nothing changes; accepted: the two-line `.env` is written and the state is settings_pending |
| ProvisioningDaemon.Daemon.OnSettings | src/inkycal/provisioning_daemon.py:82-94 | rejected: nothing changes; accepted: the settings are written and the state is applying_changes |
| ProvisioningDaemon.Daemon.OnApply | src/inkycal/provisioning_daemon.py:96-100 | the three restarts are issued in order; done from any state, or the state is unchanged when a restart fails |

## Left out

- Network, hardware and process I/O are parameters of the model. This covers Nominatim/OSRM HTTP calls, the Open-Meteo fetch, `subprocess`/`systemctl`/`nmcli` execution, `shutil.which`, and file reads and writes. Only some failures are modelled. A failed Nominatim or OSRM call is a `None` answer, as `estimate` and `_geocode` catch it. An unreadable sysfs file reads as `""`, as `_read_text` catches it. A command's failure is its exit code or a `CommandFailed` error. Effects are recorded as `Effect` values or field updates. In `run_once` the Google fetch, `render_daily_schedule` and `show_on_inky` are not caught; whether they returned is the `fetched`/`drawn` input of `RunDecision.State.RunOnce`.
- Floating point: route seconds, forecast temperatures and geocoded coordinates are integers. `int(round(temp))` on a float temperature is not modelled; the temperature arrives whole. Floats in JSON and YAML values (such as `display.saturation`) are `Json.Float` holding an exact real, not an IEEE double.
- `Text.ParseInt`: `int()` of text accepts only ASCII digits here, whereas Python also accepts other Unicode decimal digits such as Arabic-Indic ones. The same gap reaches every member that parses text through it:
  - `SleepSchedule.ParseHHMM`, which models `int(hh)`/`int(mm)`;
  - `Ups.StatusOf`, `Ups.FirstQualifying`, `Ups.ProbeUps` and `Ups.ProbeSpecCases`, through `_parse_int`;
  - `JsonValue.PyInt` on text.
- `JsonValue.PyInt`: `int()` of text accepts only ASCII digits here, whereas Python also accepts other Unicode decimal digits. Floats are finite, so the `OverflowError`/`ValueError` of `int()` on infinity and NaN is not modelled.
- `json.dumps` and SHA-256 are an uninterpreted hash function. Collision resistance is assumed only as the explicit `Injective` hypothesis of one lemma.
- Datetime and time zones: an instant is epoch seconds plus an offset. `isoformat`, `strftime` and `fromisoformat` are parameters. `_today_range` and daylight-saving transitions are not modelled.
- Lower-casing and whitespace: `lower()` affects ASCII letters only, whereas Python's `str.lower` covers all of Unicode. The whitespace set is Python's `isspace` over ASCII and common Unicode spaces.
- Calendar fetching, rendering, display output, configuration loading (`load_config`, `load_dotenv`) and the `print` diagnostics in `run_once` are not part of this model.
- `ProvisioningService._load_config`, `_write_config` and `_run_command` are not modelled. They are YAML file I/O and `subprocess.run`: the configuration is a field holding the loaded mapping, and the runner is a parameter. `shutil.which` results are a field (`nmcli`) or an argument (`systemctl`).
- The text layout of the daemon's `_write_config`, and the dry-run printing of `_write_env`/`_write_config`, are not modelled. The configuration write is recorded as the validated settings record.
- `ProvisioningDaemon.ValidateWifi` refuses a non-text password before any command runs. The source instead calls `len()` on it: a list or object of length ≥ 8 passes that check and fails later, inside `_configure_wifi`, after the state has become wifi_connecting.
- `Weather.ForecastForDatetime` starts from the fetched and decoded `hourly` arrays. The exceptions of the Open-Meteo fetch are not modelled: those of `urlopen` and `json.loads`, a non-object payload or a null `hourly`, and `float(None)` on a missing temperature.
- File reads and writes in `Provisioning` and `ProvisioningDaemon` always succeed in the model. An `OSError` from `read_text` in `_load_env`, or from `mkdir`/`write_text` in `_update_env`, `_write_config` and `_write_env`, is not modelled. In the source such an error ends the operation before it sets its new state. The members that always complete instead are listed below.
- `Provisioning.ProvisioningService.LoadEnv` reads an existing `.env` file without fail.
- `Provisioning.ProvisioningService.UpdateEnv` always writes the merged file.
- `ProvisioningDaemon.Daemon.OnIcloudConfig` always moves to settings_pending after an accepted payload.
- `ProvisioningDaemon.Daemon.OnSettings` always moves to applying_changes after an accepted payload.
- `ProvisioningDaemon.IcloudEnvReadsBack` is proved only for values without line breaks, `=`-free keys and values without edge whitespace or edge `"`. The daemon writes `key=value` unquoted, so other values do not read back.
- `EnvFile.UpdateEnvRoundTrip`: the values in the updates may carry edge whitespace, because the written quotes protect it. Keys must be free of `=`, `#` at the start, line breaks and edge whitespace. The empty key is allowed: it is written as `="value"` and read back under the empty key.
- The daemon writes `ICAL_USER`/`ICAL_PASS`, while `run_once` reads `ICLOUD_USERNAME`/`ICLOUD_APP_PASSWORD`; the model keeps both as written. `_write_env` replaces the whole `.env` file rather than updating it.
- `Dedupe.DedupeProperties` states which event of each key survives: the first in sort order. It does not restate the stability of Python's `sorted` among events with equal sort keys beyond what `Sorting.SortBy` defines.
- `RunDecision.State.RunOnce`: `run_once` relies on two definitions the repository does not contain. It imports `get_ups_status` from `src/inkycal/network.py`, which defines only `_read_text` and `get_wifi_status`. It reads `cfg.travel.enabled`, `cfg.travel.origin_address` and `cfg.travel.back_to_back_window_minutes`, but `AppConfig` in `src/inkycal/config.py` has no `travel` field. The model treats both as given inputs, as if they existed. The UPS status dict is folded into the `signature` input, and the travel settings are the `travelEnabled`, `originAddress` and `windowMinutes` parameters of `TravelTimes.ProcessEvents`. So the model does not capture two failures of the code as written: the `ImportError` raised when `main.py` is imported, and the `AttributeError` at `cfg.travel` that every run past the sleep check would raise before computing the signature and writing the state.
- `RunDecision.RunExactly`: the `Failed` outcome has two causes only, a raising Google fetch or a raising render/display. It does not include the `ImportError` or the `AttributeError` of `cfg.travel` described in the previous line, which are not modelled for the same reason.
- Disagreements between the tests and the code (punctuation-insensitive fingerprinting, `start_connection`, `_apply_weather_forecast`) are resolved by following the code.
