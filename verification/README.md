# OctoRant notification core, modelled in Dafny

OctoRant is an OctoPrint plugin. It posts printer events to a Discord webhook. This project models four parts of it as pure functions over immutable records, and proves what each part promises:

- **Event handling** (`__init__.py`, module `Notifier`):
  - host events are routed to internal event IDs;
  - `notify_event` runs its gates: unknown ID, disabled event, then the progress step;
  - missing template variables are filled with defaults, and the printer's times are merged in;
  - the message template is formatted, with a warning text as the fallback for an unknown variable;
  - `send_message` checks the URL for "http" and picks the before/after scripts;
  - saving the settings sends a test message when they change;
  - the bed-cooled check compares the bed temperature with the threshold.
- **Event table** (`events.py`, module `Events`): the categories, and the default record of every event ID.
- **Media** (`media.py`, modules `Thumbnail` and `Media`):
  - the g-code thumbnail scanner;
  - the three setters;
  - the `get` dispatch;
  - the size cap on timelapse files.
- **Webhook sender** (`discord.py`, module `Discord`):
  - a FIFO queue of messages;
  - the webhook configuration;
  - the `stop_until` back-off time;
  - one turn of the `run` loop as a state transition: the drop rules, the payload and target URL, and the 429 back-off.

Supporting modules:

- `Common`: `Option`, and Python's `startswith`, `in`, `strip` and `join`.
- `Decimal`: `str(int)`, `"%02d"`, and reading back runs of digits.
- `Timedelta`: `str(timedelta(seconds=n))`.
- `Template`: the part of `str.format(**data)` that message templates use.

Inputs the program reads from its environment are parameters:

- the settings store (a record whose per-event overrides are a `map`);
- the printer's reported times and bed temperature;
- the set of existing script files;
- the file system (a map from path to lines and bytes);
- the current time, in integer milliseconds;
- the HTTP response of a webhook post.

`__init__.py` builds `DiscordMessage(url, message, username, avatar, snapshot)`, but the constructor in `discord.py` takes only a logger. The two files come from different versions of the plugin. So `Notifier.SendMessage` ends in a `Delivery` record, and the `Discord` module models `discord.py` on its own terms. The two are not wired together.

The background loop posts to the configured webhook URL. When the thread ID is positive, it appends `?thread_id=N` (`discord.py:101-108`, `Discord.Target`).

## Model

| member | source | states |
|---|---|---|
| Common.Contains | octoprint_octorant/__init__.py:222 | Python's `sub in s` is true exactly when `sub` occurs at some position of `s` |
| Common.Strip | octoprint_octorant/media.py:89 | `str.strip()` returns a contiguous piece of the text; everything cut off is whitespace, and the result neither starts nor ends with whitespace |
| Decimal.NatText | octoprint_octorant/discord.py:105 | `str(n)` is all digits, has no leading zero, and reads back as `n` |
| Timedelta.Normalise | octoprint_octorant/__init__.py:175 | a number of seconds splits into days, hours < 24, minutes < 60 and seconds < 60 that add back up to the total, with the sign in the days |
| Timedelta.Text | octoprint_octorant/__init__.py:175 | `str(timedelta(seconds=n))` ends in `:MM:SS`, and those two digit pairs read back as the minutes and seconds of the normal form |
| Timedelta.TextWithinDayRoundTrip | octoprint_octorant/__init__.py:175 | below one day, `str(timedelta(seconds=n))` is `H:MM:SS` and reads back as `n` |
| Template.SetDefault | octoprint_octorant/__init__.py:157-161 | `setdefault` adds the key when it is absent, never overwrites an existing value, keeps every other value, and appends only at the end of the key order |
| Template.Assign | octoprint_octorant/__init__.py:174-178 | `d[k] = v` sets the key, keeps every other value, and appends a new key at the end of the order |
| Template.Format | octoprint_octorant/__init__.py:182 | a template without braces formats to itself, and a `KeyError` only ever names a plain keyword field that the variables lack |
| Template.FormatEscaped | octoprint_octorant/__init__.py:182 | literal text with its braces doubled formats back to itself, and the rest of the template is formatted independently |
| Template.FormatEmit | octoprint_octorant/__init__.py:182 | formatting a template built from literal pieces and `{name}` fields gives the literal text and the variables' values in order, or the `KeyError` of the first unknown name |
| Notifier.RouteEvent | octoprint_octorant/__init__.py:94-123 | every ID that `on_event` passes to `notify_event` is a key of the event table, and only PrintCancelled and PrintDone start the bed timer |
| Notifier.Configured | octoprint_octorant/__init__.py:150 | an event's settings are the stored record when there is one, otherwise the built-in record |
| Notifier.RoutingTable | octoprint_octorant/__init__.py:96-118 | for any payload: Startup and Shutdown map to their IDs with no data; a payload reporting OPERATIONAL, ERROR or UNKNOWN maps to that printer state's ID; a missing `state_id` raises; the four other print events pass the payload on, and only PrintCancelled starts the bed timer |
| Notifier.PrintDoneRoute | octoprint_octorant/__init__.py:119-122 | PrintDone raises when `time` is missing or not convertible, raises `OverflowError` beyond the `timedelta` range, and otherwise notifies `printing_done` with the payload plus `time_formatted` set to the text of that many seconds, and starts the bed timer |
| Notifier.UnroutedEventsIgnored | octoprint_octorant/__init__.py:102-123 | any other event name, and a printer state other than OPERATIONAL, ERROR or UNKNOWN, returns True and notifies nothing |
| Notifier.PyMod | octoprint_octorant/__init__.py:167 | Python's `%` takes the sign of the divisor and leaves a remainder of a whole multiple |
| Notifier.ProgressAllowsMeansMultiple | octoprint_octorant/__init__.py:164-170 | the progress gate passes exactly when the step and the progress are non-zero, the progress is not 100, and the progress is a whole multiple of the step, whatever the signs |
| Notifier.ScriptToRun | octoprint_octorant/__init__.py:191-212 | a script runs only when scripts are explicitly allowed, `which` is "before" or "after", and that script's path is non-empty and exists; the script chosen is the one for `which` |
| Notifier.SendMessage | octoprint_octorant/__init__.py:219-287 | False with nothing handed over exactly when "http" does not occur in the URL, otherwise True with the message, the URL, the configured username and avatar, and the before and after scripts that `exec_script` would run; the camera URL is the snapshot source exactly when a snapshot is asked for and that URL contains "http" |
| Notifier.SetDefaults | octoprint_octorant/__init__.py:157-161 | a sequence of `setdefault` calls adds every default key, keeps every value already present, and gives an absent key its first default |
| Notifier.WithDefaults | octoprint_octorant/__init__.py:157-161 | the defaults are progress, remaining and spent = 0 and the two `*_formatted` = "0s", and none of them overwrites a caller-supplied value |
| Notifier.WithTime | octoprint_octorant/__init__.py:174-178 | a reported time sets the variable and its `_formatted` text, and no other variable changes |
| Notifier.WithPrinterTimes | octoprint_octorant/__init__.py:172-178 | a reported time left sets `remaining` to it and `remaining_formatted` to its text, and likewise time spent for `spent`; a time that is not reported adds no key and leaves its two variables as they were; every other variable is untouched |
| Notifier.Compose | octoprint_octorant/__init__.py:181-189 | an unknown variable never escapes: the message is the unchanged template followed by a warning that names the variable and every available one; other format errors raise |
| Notifier.Warning | octoprint_octorant/__init__.py:184-187 | the warning names the bad variable and every available one, each in backticks and braces |
| Notifier.WarningMentions | octoprint_octorant/__init__.py:184-187 | the warning text starts with the template and contains the bad name and every available name, each wrapped in backticks and braces |
| Notifier.JoinMentions | octoprint_octorant/__init__.py:187 | every name of the joined list occurs in the list text inside its own backticks and braces |
| Notifier.ProgressGate | octoprint_octorant/__init__.py:164-170 | the progress gate passes exactly when the event carries a step and the progress rule holds |
| Notifier.NotifyEvent | octoprint_octorant/__init__.py:145-189 | an unknown or disabled ID returns False with nothing sent; a failing progress gate returns False; once the gate passes, a time outside the `timedelta` range raises `OverflowError`, and otherwise a composed message is handed to `send_message` with the event's `with_snapshot` (so it goes out exactly when the URL contains "http", with that message text), while a format error other than `KeyError` raises; a sent message carries a snapshot only if the event asks for one |
| Notifier.MissingVariableStillSends | octoprint_octorant/__init__.py:181-189 | for a known, enabled event whose gate passes, an unknown template variable still yields a normal return, True exactly when the URL gate passes |
| Notifier.OnPrintProgress | octoprint_octorant/__init__.py:125-126 | the outcome of the `notify_event` call that `on_print_progress` makes (it discards the return value and itself returns None): no progress notification is sent at 0 % or 100 %; a progress that fails the step rule gives False; one that passes it, with a composable message, gives True exactly when the URL contains "http" |
| Notifier.OnEvent | octoprint_octorant/__init__.py:94-123 | a routed event returns exactly what `notify_event` returns for its ID and data, with the bed timer started as the route says; an event that is not routed, including a printer state other than the three named ones, returns True with no notification; a routing error raises and starts no timer |
| Notifier.OnSettingsSave | octoprint_octorant/__init__.py:128-143 | a test message is sent exactly when the concatenation of URL, avatar and username differs before and after, and it is the `test` event under the new settings |
| Notifier.DifferentMiddle | octoprint_octorant/__init__.py:129-141 | two concatenations that differ only in the middle part are different texts |
| Notifier.OneFieldChangeSendsTest | octoprint_octorant/__init__.py:128-143 | changing exactly one of URL, avatar and username always sends the test message |
| Notifier.ResplitIsNoChange | octoprint_octorant/__init__.py:128-143 | moving any characters from the start of the avatar to the end of the URL changes the URL but sends no test message |
| Notifier.SameConcatenationNoTest | octoprint_octorant/__init__.py:128-143 | whenever the three fields concatenate to the same text, no test message is sent, whatever the individual fields |
| Notifier.CheckBedTemperature | octoprint_octorant/__init__.py:296-308 | reading the threshold raises unless the event has a temperature; the bed-cooled event is notified exactly when a bed temperature is reported at or below the threshold; the timer is cancelled exactly when that notification did not raise |
| Events.TableKeys | octoprint_octorant/events.py:3-106 | the table holds exactly the fourteen event IDs |
| Events.RecordsFilled | octoprint_octorant/events.py:3-106 | every record has a non-empty category, name and message |
| Events.CategoriesListed | octoprint_octorant/events.py:1-106 | every event's category is one of CATEGORIES except the test message, whose category "test" is outside the list |
| Events.AllEnabledByDefault | octoprint_octorant/events.py:3-106 | every event is enabled by default |
| Events.SnapshotOutsideSystemAndPrinter | octoprint_octorant/events.py:3-106 | a snapshot is attached by default exactly for the events outside the system and printer categories |
| Events.DefaultThresholds | octoprint_octorant/events.py:81-98 | printing_progress carries step 10 "%", bed_cooled carries temperature 30 "C", and no other event carries a threshold |
| Thumbnail.ParseHeader | octoprint_octorant/media.py:16 | the header pattern is anchored at the start: `end` is recognised exactly when the text starts with "thumbnail end", and `begin` only after "thumbnail begin " |
| Thumbnail.BeginOnlyInShape | octoprint_octorant/media.py:16 | a begin header is recognised only when the text is "thumbnail begin ", digits, "x", digits, a space and the size digits, with a non-digit or nothing after them, and its size is the value of those digits |
| Thumbnail.BeginShapeParses | octoprint_octorant/media.py:16 | every text of that shape is recognised as a begin header with the value of its size digits |
| Thumbnail.HeaderRoundTrip | octoprint_octorant/media.py:16 | a header `thumbnail begin WxH SIZE` followed by any non-digit text reads back as SIZE |
| Thumbnail.Classify | octoprint_octorant/media.py:80-110 | a line is code exactly when it does not start with ';'; a data line's text is the stripped remainder and is not a header |
| Thumbnail.MoveCheckUnreachable | octoprint_octorant/media.py:80-86 | a line already known to start with ';' cannot start with "G1" |
| Thumbnail.Step | octoprint_octorant/media.py:88-110 | one comment line: a larger header records its size, empties the text and opens a block; a header that is not larger closes the block and, as written, empties the text (corrected, keeps it); data is appended only inside a block; an end closes the block |
| Thumbnail.ScanLines | octoprint_octorant/media.py:79-110 | the recorded size never decreases, and a file with no comment line leaves the scan state as it was |
| Thumbnail.ScanVisitsEveryLine | octoprint_octorant/media.py:79-110 | the early exit never happens: the scan is the fold of the per-line step over every line |
| Thumbnail.CodeLineIrrelevant | octoprint_octorant/media.py:80-82 | removing a line that is not a full-line comment, anywhere, does not change the scan |
| Thumbnail.LastSizeIsRunningMax | octoprint_octorant/media.py:72-104 | the recorded size never decreases, bounds every announced size, and is either the start value or one of them |
| Thumbnail.RunWithoutLargerHeader | octoprint_octorant/media.py:93-110 | with no larger header ahead, only the data lines up to the next header are appended, and only while a block is open; the recorded size stays |
| Thumbnail.LastHeaderDecides | octoprint_octorant/media.py:93-104 | as written, the last begin header decides the result: its block if it announced a new maximum, nothing otherwise |
| Thumbnail.FirstLargestKept | octoprint_octorant/media.py:93-110 | corrected, the block of the first header with the largest size is the result, whatever follows it |
| Thumbnail.NoHeaderNoThumbnail | octoprint_octorant/media.py:69-116 | a file without a begin header yields no thumbnail |
| Thumbnail.GrabKeepsFirstLargest | octoprint_octorant/media.py:69-116 | over a whole file, the corrected scanner returns the data lines after the first largest header, or nothing when they are empty |
| Thumbnail.Grab | octoprint_octorant/media.py:69-116 | a thumbnail, when found, is non-empty text, and a file without a begin header yields none |
| Thumbnail.Payload | octoprint_octorant/media.py:112-116 | the result is nothing exactly when the collected text is empty, and otherwise that text |
| Thumbnail.LargerFirstLost | octoprint_octorant/media.py:93-104 | as written, a larger thumbnail followed by a smaller one yields no thumbnail at all; corrected, it yields the larger one |
| Thumbnail.LargerFirstExample | octoprint_octorant/media.py:93-104 | the 16x16 then 8x8 file below gives nothing as written and `QUJD` corrected |
| Media.SetThumbnail | octoprint_octorant/media.py:39-42 | sets the type and the path and leaves the snapshot and size-cap fields alone |
| Media.SetSnapshot | octoprint_octorant/media.py:44-50 | sets the type, the URL and the three flags and leaves the path and cap alone |
| Media.SetTimelapse | octoprint_octorant/media.py:52-56 | sets the type, the path and the cap and leaves the snapshot fields alone |
| Media.Basename | octoprint_octorant/media.py:170 | on POSIX, `os.path.basename` is the longest suffix without a '/' |
| Media.BasenameOfJoin | octoprint_octorant/media.py:170 | the base name of `dir/name` is `name` |
| Media.GrabThumbnail | octoprint_octorant/media.py:69-116 | a `thumbnail.png` attachment exactly when the file exists and the scanner finds a thumbnail, holding the text it found; the scanner variant is a parameter |
| Media.GrabFile | octoprint_octorant/media.py:160-172 | an attachment exactly when the file exists and either the cap is not positive or the size is within it, holding the file's bytes under its base name |
| Media.Get | octoprint_octorant/media.py:59-67 | no type gives nothing; a snapshot is fetched exactly for the snapshot type, with the stored URL and flags; the thumbnail type runs the thumbnail grab and the timelapse type the file grab, on the stored path |
| Media.LargerFirstAttachment | octoprint_octorant/media.py:59-116 | for a thumbnail media whose file holds a 16x16 thumbnail followed by an 8x8 one, `get` as written attaches nothing, and corrected attaches the larger thumbnail |
| Media.NewMediaHasNoAttachment | octoprint_octorant/media.py:20-67 | a freshly built `Media` yields nothing |
| Media.LastSetterDecides | octoprint_octorant/media.py:39-67 | the last setter called decides which grab `get` runs |
| Media.CapMonotone | octoprint_octorant/media.py:165-167 | a larger cap never loses an attachment, and a cap of 0 accepts every existing file |
| Media.TimelapseName | octoprint_octorant/media.py:160-170 | a timelapse within the cap is uploaded under its own file name with its bytes |
| Discord.SetConfig | octoprint_octorant/discord.py:34-38 | the configuration is replaced, and the queue and back-off are untouched |
| Discord.SendMessage | octoprint_octorant/discord.py:40-60 | while rate-limited nothing changes; otherwise exactly one message is appended at the tail of the queue |
| Discord.Target | octoprint_octorant/discord.py:101-108 | the target starts with the webhook URL, and is that URL alone when no thread is set |
| Discord.TargetThreadRoundTrip | octoprint_octorant/discord.py:102-108 | with a thread set, the text after the URL is `?thread_id=` and digits that read back as the thread ID |
| Discord.Payload | octoprint_octorant/discord.py:91-99 | the form always has `content`, and has `username` and `avatar_url` exactly when they are non-empty, with their values |
| Discord.AfterResponse | octoprint_octorant/discord.py:114-137 | a 429 with a positive `retry_after` moves `stop_until` to now plus that delay; a 429 without one and a connection failure leave it; any other status clears it |
| Discord.Step | octoprint_octorant/discord.py:62-140 | an empty queue is idle; otherwise the head is consumed exactly once; a message is dropped for the rate limit exactly when rate-limited, and is posted exactly when not rate-limited with a URL and non-empty content; a drop leaves `stop_until` alone, and after a post `stop_until` is updated from the response as `AfterResponse` states |
| Discord.PostedRequest | octoprint_octorant/discord.py:86-112 | a posted message goes to the target URL with the payload, and with the media attachment when there is media |
| Discord.UnconfiguredDrops | octoprint_octorant/discord.py:21-32 | a freshly constructed sender is idle, and a message queued before any configuration is dropped for the missing URL |
| Discord.DropOrder | octoprint_octorant/discord.py:66-84 | the drop reasons are checked in the order rate limit, missing URL, empty content |
| Discord.BackOffHolds | octoprint_octorant/discord.py:40-119 | after a 429 asking to wait `retry_after` ms, until that time no message is queued and every queued message is dropped unsent |
| Discord.SuccessClearsBackOff | octoprint_octorant/discord.py:127-128 | any other status lifts the rate limit |
| Discord.Drain | octoprint_octorant/discord.py:62-140 | each turn of the loop consumes one queued message: the number of outcomes is bounded by the turns and the queue, the queue shrinks by exactly that number, turns are left over only once the queue is empty, and the configuration never changes |
| Discord.DrainIsFifo | octoprint_octorant/discord.py:62-140 | the loop consumes the queue in order, each message exactly once; what is left is the rest of the queue |
| Discord.SendThenDrain | octoprint_octorant/discord.py:40-140 | a message accepted by `send_message` is the one the loop handles after everything queued before it |

## Left out

- HTTP: `requests.get` and `requests.post` are not modelled, and neither is reading JSON from a response. A webhook response is a parameter: a status with an integer `retry_after`, or one of the two connection failures. Other `requests` exceptions, which would end the loop's thread, are not modelled.
- Snapshot fetching, and flipping or rotating it with Pillow, are not modelled. For the snapshot type, `Media.Get` answers with the URL and flags it would fetch with. The same fetch in `send_message` is reduced to choosing the camera URL (`Delivery.snapshotUrl`).
- `base64.b64decode` of the thumbnail is not modelled. The attachment keeps the base64 text, so a decoding error is not modelled either.
- The file system is not modelled. `os.path.exists`, `os.stat` and `open` become lookups in a map from path to the file's lines and bytes. Whether those lines and bytes are consistent is not modelled. A path that exists but is a directory is not modelled.
- `subprocess.check_output` in `exec_script` is not modelled. Only which script would run is.
- Threads are not modelled: the worker thread, `start`/`is_alive`, the queue's blocking `get`, and the `RepeatedTimer` of the bed check. The bed timer appears only as the decision to start or cancel it.
- Logging is not modelled.
- The plugin boilerplate is not modelled: settings defaults, restricted paths, assets, template configs, update information, `__plugin_load__`, and `static/js/octorant.js`.
- Notifier.ToInt: converting a string variable with `int()` is not modelled. A string progress or print time is treated as a `ValueError`, while Python would accept a string of digits.
- Template.Format: conversions, format specs, attribute and index lookups and nested fields are outside the modelled subset (`Unmodelled`). Positional fields (empty or all-digit) are modelled as raising (`Malformed`, Python's `IndexError`), because no positional arguments are passed. Only ASCII digits make a field positional here; Python also counts other Unicode decimal digits (a field such as `{٣}` raises `IndexError` there), which the model treats as a keyword name.
- Template.FloatVal: how Python prints a float is not modelled. A float variable carries its printed text with it.
- Notifier.NotifyEvent: the shared mutable default `data={}` is not modelled. Each call starts from the data it is given.
- Notifier.Settings: the settings are read as one merged record, and a stored per-event record replaces the built-in one whole. OctoPrint's merging of individual fields is not modelled.
- Discord.Response: `int(data["retry_after"])` truncating a float is not modelled; the response carries the integer.
- Notifier.CheckBedTemperature: a template outside the modelled part of `str.format` (`UnmodelledTemplate`) is counted as not raising, so the timer is cancelled.
- Discord.Step: the time read before the post and the time read after the 429 are the same `now`.
- `printing_failed` is in the event table, but `on_event` never routes to it. The model keeps it as the source has it.
- `MAX_THUMBNAIL_SIZE_BYTES` (`media.py:14`) is defined but never used, so the model has no such cap.
- Thumbnail.Classify: `str.strip()` and the `[0-9]` of the header pattern are modelled on the characters the source names. Other Unicode digits are not modelled, since the pattern does not accept them.

## Findings

| source | as written | input that shows it | evidently intended | confidence | as-written member | corrected member |
|---|---|---|---|---|---|---|
| octoprint_octorant/media.py:100-104 | a `begin` header that is not larger than the recorded size clears the collected text and stops collecting | a file with `; thumbnail begin 16x16 8`, `; QUJD`, `; thumbnail end`, then `; thumbnail begin 8x8 4`, `; QQ==`, `; thumbnail end`: the smaller header wipes `QUJD`, and the file yields no thumbnail | keep the larger thumbnail already collected, and only skip the smaller block, as the log line "Skipped, already got a bigger thumbnail" says | high; not executed | Thumbnail.LargerFirstExample | Thumbnail.FirstLargestKept |

The scanner takes a `Variant`. `AsWritten` is the program, and `Thumbnail.LastHeaderDecides` states its general behaviour: the last begin header decides the result. `Corrected` only stops collecting at a header that is not larger. `Media.Get`, `Media.GrabThumbnail` and the `Discord` loop take the variant as a parameter, so each can be read as the program (`AsWritten`) or as corrected; `Media.LargerFirstAttachment` shows the difference at the level of `get`.
