# NX-587E panel interface in Dafny

This project models `PanelInterface` from pynx587e/controller.py, the driver
object for an NX-587E serial module attached to an Interlogix, Caddx or Hills
Reliance alarm panel. It covers:

- **The constructor.** The keymap check, the device bank with one list of
  devices per message type (zones `ZN`, partitions `PA`), and the direct
  query enqueued for every device before the setup command.
- **`_process_event`.** It decodes one zone or partition status line: a
  two-letter tag, greedy id digits, then one upper-case (true) or lower-case
  (false) character per attribute, then a final character that is not
  decoded. It merges the line into the addressed device. An attribute still
  holding the `-1` sentinel is primed without a callback. A known value that
  changes is stored with its time and reported once.
- **`getStatus`.** A read of one attribute's `[value, time]` pair.
- **`_direct_query`.** It builds `Q` + a three-digit zone number, or `Q` +
  `192 + partition`.
- **`send`.** It selects a user code, a keypad function name of the active
  keymap, or the setup string, and enqueues it unless it is empty.

The files:
- `wrappers.dfy`: Option and Result.
- `pytext.dfy`: the Python string and integer built-ins the driver relies
  on: `isnumeric`, `isupper`, `int`, `str`, `zfill`, clamped slicing and
  negative list indexing.
- `nxmodel.dfy`: the vocabulary: message tags, the configuration read from
  the `model` module, FlexDevice slots, events and errors.
- `protocol.dfy`: decoding status lines, building queries and selecting
  commands.
- `devicebank.dfy`: the bank and the diff-and-merge, as functions on values,
  with the merge and read properties proved as lemmas.
- `controller.dfy`: the class `PanelInterface`. Its fields are the bank, the
  command queue (only ever appended to) and `delivered`, the log of callback
  invocations. Its methods update them in place. Each method is proved
  against the value-level functions of `devicebank.dfy` and `protocol.dfy`.

Python exceptions are results: `KeyMapError`, `GetStatusError`, `IndexError`,
`UnboundLocalError` and `TypeError`. The source's `-1` sentinels are `Unset`
(value) and `Unstamped` (time).

## Model

| member | source | states |
|---|---|---|
| PyText.NatToString | pynx587e/controller.py:248 | `str(n)` is a non-empty digit string whose value is n, with no leading zero |
| PyText.PySlice | pynx587e/controller.py:133 | a slice within bounds is the ordinary subsequence; an end past the string clamps to the rest of the string; an empty or out-of-range one is empty |
| PyText.PyIndex | pynx587e/controller.py:157-158 | a list index is valid exactly when -n <= i < n; a non-negative one selects i and a negative one n + i |
| PyText.ZerosPrefix | pynx587e/controller.py:250 | zero padding keeps a numeral's digits and value |
| PyText.NumeralLength | pynx587e/controller.py:250 | `str(n)` has at most k characters exactly when n < 10^k |
| Protocol.LineTag | pynx587e/controller.py:103-104 | a line has a tag exactly when it has at least two characters and they are `ZN` or `PA`, and the tag's name is those two characters |
| Protocol.IdEnd | pynx587e/controller.py:113-123 | the id ends after a run of digits that starts at position 2, at the first non-digit or at the end |
| Protocol.ScanId | pynx587e/controller.py:113-123 | the widening loop stops at the end of the digit run; `id` is that run's value, or unbound when no digit follows the tag |
| Protocol.StatusChars | pynx587e/controller.py:133 | the attribute characters run from the end of the id to just before the last character, and are empty when the id reaches the last character |
| Protocol.Entries | pynx587e/controller.py:132-134 | more characters than attributes is an IndexError; otherwise entry i sets attribute i, true exactly for an upper-case character |
| Protocol.DecodeAttributes | pynx587e/controller.py:132-134 | the loop that builds `NXMessage` returns the entries, or the IndexError, that Entries describes |
| Protocol.Decode | pynx587e/controller.py:103-134 | a decoded status message carries the line's tag; entry i names attribute i of that tag; there are no more entries than attributes |
| Protocol.DecodeOutcome | pynx587e/controller.py:103-150 | a line is ignored exactly when it has no known tag; with a known tag, it raises IndexError exactly when it has more attribute characters than the type has attributes; otherwise it raises UnboundLocalError exactly when no id digit follows the tag |
| Protocol.DecodeLine | pynx587e/controller.py:103-134 | matching the tag, running the id loop and building the message yields exactly Decode's result, including its error cases |
| Protocol.DecodeStatusLine | pynx587e/controller.py:113-134 | a line made of tag, numeral, attribute characters and terminator decodes to that tag, the numeral's value as id, and one entry per character in order |
| Protocol.StatusLineShape | pynx587e/controller.py:113-134 | conversely, every line that decodes to a status message is tag + numeral + one character per entry + a final character |
| Protocol.EntriesAfterFirst | pynx587e/controller.py:132-134 | lines whose attribute characters agree after the first decode to entries that agree after the first |
| Protocol.ZoneQuery | pynx587e/controller.py:250 | a zone query starts with `Q` and has at least four characters |
| Protocol.ZoneQueryNumeral | pynx587e/controller.py:249-250 | a zone query is `Q` and a numeral of at least three digits whose value is the zone id, four characters long exactly for ids below 1000; for ids of 100 and more it is `Q` and the unpadded `str(id)` |
| Protocol.PartitionQuery | pynx587e/controller.py:248 | a partition query starts with `Q` and has at least two characters |
| Protocol.PartitionQueryNumeral | pynx587e/controller.py:247-248 | a partition query is `Q` followed by exactly `str(192 + id)`, with no leading zero, whose value is 192 + id, at least three digits for id >= 1 |
| Protocol.QueryAddressesDevice | pynx587e/controller.py:244-250 | with zones 1-192 and partitions from 1, equal query strings address the same type and id |
| Protocol.DirectQueries | pynx587e/controller.py:241-254 | `_direct_query` enqueues one query exactly for a known tag with id <= max, and that query is the tag's query for the id |
| Protocol.QueriesUpTo | pynx587e/controller.py:75-80 | the constructor's loop for one tag issues one query per id 1..max, the i-th for id i + 1 |
| Protocol.QueriesUpToStep | pynx587e/controller.py:76-80 | one more `_direct_query(device, i + 1)` extends the queries for ids 1..i to ids 1..i+1 |
| Protocol.PrimingSplit | pynx587e/controller.py:73-80 | the priming queries are all zone queries in id order followed by all partition queries in id order |
| Protocol.CommandAsWritten | pynx587e/controller.py:293-301 | the selection as written: a four-digit numeric input passes through, any other numeric input raises TypeError, and every failure is TypeError or an unbound variable |
| Protocol.Command | pynx587e/controller.py:293-301 | the selection as documented: a numeric code of 4 or 6 digits passes through, and the only failure is an unbound variable |
| Protocol.CommandSelection | pynx587e/controller.py:289-301 | user codes pass through; a name in the active keymap maps to its code; the setup command maps to the setup string; everything else is an unbound-variable error |
| Protocol.CommandAsWrittenAgrees | pynx587e/controller.py:293-301 | the guard as written and as documented select the same command except for numeric inputs whose length is not 4 |
| Protocol.SixDigitCodeAsWritten | pynx587e/controller.py:293-295 | the guard as written refuses the six-digit code `123456` with a TypeError, which the documented selection accepts |
| Protocol.Enqueued | pynx587e/controller.py:304-306 | a selected command adds one queue entry exactly when it is not empty, and that entry is the command |
| DeviceBank.NewDevice | pynx587e/controller.py:77 | a fresh FlexDevice has exactly the type's attributes, all holding the sentinel value and time |
| DeviceBank.Devices | pynx587e/controller.py:75-80 | the list the loop builds has one fresh device per id |
| DeviceBank.InitialBank | pynx587e/controller.py:72-80 | the constructor's bank is well formed: `max` devices per tag, each with its type's attributes, all unobserved |
| DeviceBank.Apply | pynx587e/controller.py:150-187 | a non-status line changes nothing; a malformed one raises its error; an id above the maximum or an empty message changes nothing; an id below the list's negative range raises IndexError |
| DeviceBank.Merge | pynx587e/controller.py:152-181 | merging never adds or removes attributes of the device |
| DeviceBank.MergeSettles | pynx587e/controller.py:152-168 | after the merge each named attribute holds its settled slot, and every other attribute is unchanged |
| DeviceBank.MergeReports | pynx587e/controller.py:160-181 | the callbacks of the merge are ChangeEvents: one per named attribute whose known value flips, in message order |
| DeviceBank.MergeMeetsSpec | pynx587e/controller.py:152-181 | both of the above together |
| DeviceBank.ChangeEventsAbout | pynx587e/controller.py:161-181 | for a named attribute there is one event if its stored value flips and none otherwise |
| DeviceBank.ChangeEventsAboutOther | pynx587e/controller.py:161-181 | no event concerns an attribute the message does not name |
| DeviceBank.UnobservedReportsNothing | pynx587e/controller.py:160-163 | a message whose attributes all hold the sentinel produces no callback |
| DeviceBank.Process | pynx587e/controller.py:89-187 | processing a line keeps the bank well formed |
| DeviceBank.ApplyKeepsWellFormed | pynx587e/controller.py:150-181 | merging a decoded message keeps every device list's length and every device's attribute set |
| DeviceBank.IgnoredLine | pynx587e/controller.py:103-187 | a line with no known tag, or with an id above the maximum, leaves the bank unchanged and calls nothing |
| DeviceBank.ApplyTouchesOnlyAddressedDevice | pynx587e/controller.py:152-181 | every device other than the one the id selects is the same afterwards |
| DeviceBank.ApplyStatus | pynx587e/controller.py:150-181 | a status message with 1 <= id <= max replaces device id - 1 of its tag by the merged device, and its callbacks are the merge's events |
| DeviceBank.ApplySelected | pynx587e/controller.py:150-181 | the same for whichever device Python indexing selects, id 0 (the last device) included |
| DeviceBank.ApplyReportsInAttributeOrder | pynx587e/controller.py:152-181 | the callbacks of one status message, in order, are ChangeEvents of the addressed device |
| DeviceBank.ApplySettlesAttribute | pynx587e/controller.py:157-181 | each named attribute ends settled, and exactly its flip, if any, is reported about it |
| DeviceBank.ApplyKeepsUnnamedAttributes | pynx587e/controller.py:152-181 | attributes the message does not name keep their slot and get no callback |
| DeviceBank.PrimingSkipsCallback | pynx587e/controller.py:160-181 | an attribute holding the sentinel takes the new value and time, and no callback concerns it |
| DeviceBank.ChangeReportedOnce | pynx587e/controller.py:161-181 | a known value that changes is stored with the new time and reported exactly once with tag, id, attribute, value and time |
| DeviceBank.RepeatIsSilent | pynx587e/controller.py:161-184 | a value equal to the stored one is neither stored again nor reported |
| DeviceBank.FirstMessageIsSilent | pynx587e/controller.py:160-181 | on the constructor's bank any message primes silently: no callback at all |
| DeviceBank.PrimedSlots | pynx587e/controller.py:160-168 | after the first message for a fresh device, each attribute it names holds its value stamped with the message's time |
| DeviceBank.PrimeThenFlipFirst | pynx587e/controller.py:152-181 | a priming message followed by one that flips only the first value yields no callback, then exactly one callback for that flip |
| DeviceBank.FlipFirstFlag | pynx587e/controller.py:103-181 | the same for two status lines that differ only in the case of the first attribute character |
| DeviceBank.TwoLineScenario | pynx587e/controller.py:103-181 | `ZN001Fttbaillb` then `ZN001fttbaillb` on a fresh bank: no callback, then one callback for zone 1's first attribute turning false |
| DeviceBank.Query | pynx587e/controller.py:207-219 | an unknown type and an id above the maximum raise GetStatusError; for 1 <= id <= max the result is the stored pair of device id - 1; an id <= 0 selects from the end of the list as Python does, or raises IndexError below its range |
| DeviceBank.QueryInitialBank | pynx587e/controller.py:207-212 | before any status line every configured attribute reads as the sentinel pair |
| DeviceBank.QueryAfterApply | pynx587e/controller.py:168-212 | after a status message, `getStatus` on a named attribute returns its settled pair |
| Controller.PanelInterface.constructor | pynx587e/controller.py:43-80 | the new panel has the constructor's bank, the priming queries for zones 1..max then partitions 1..max, and no callbacks |
| Controller.PanelInterface.TrackDevices | pynx587e/controller.py:73-80 | one pass of the `while` loop yields one fresh device per id and appends the direct query for each id in order |
| Controller.PanelInterface.Open | pynx587e/controller.py:58-84 | a keymap other than USA or AUNZ raises KeyMapError; otherwise, using the selection as written, a failing setup selection raises its error and a successful one yields a panel whose queue holds the priming queries followed by the setup command |
| Controller.PanelInterface.ProcessEvent | pynx587e/controller.py:89-187 | the new bank and the callbacks delivered are exactly Process's effect; an error leaves both unchanged; the bank stays well formed |
| Controller.PanelInterface.MergeInto | pynx587e/controller.py:152-181 | the in-place loop leaves the merged device in the bank and delivers the merge's events in order |
| Controller.PanelInterface.GetStatus | pynx587e/controller.py:207-219 | an unknown type raises `GetStatusError("Invalid query type")`, an id above the maximum raises `GetStatusError("ID out of range")`, 1 <= id <= max reads the stored pair of device id - 1, and an id <= 0 selects from the end of the list as Python does, or raises IndexError below its range |
| Controller.PanelInterface.DirectQuery | pynx587e/controller.py:222-254 | the queue grows by exactly DirectQueries |
| Controller.PanelInterface.Send | pynx587e/controller.py:260-306 | with the selection as written, a selected command is appended unless empty; a selection that fails, including the TypeError for a numeric command whose length is not 4, raises and leaves the queue unchanged |

## Left out

- Threads, the serial port and the event queue: `_control`, `_serial_writer`, `_serial_reader`, `_event_producer`, `stop`, `time.sleep` and the `_run_flag` polling (pynx587e/controller.py:312-434). These are concurrency and I/O.
- The `serial.SerialException` handlers around `put_nowait` (lines 253-257 and 305-309): putting onto an unbounded queue does not raise.
- The clock: the time `FlexDevice.set` records is the parameter `now`, one value per processed line.
- FlexDevice is not part of this model. A device is a map from attribute name to a value-and-time slot that starts at the `-1` sentinels.
- Query, GetStatus: require the element to be an attribute of the type, because what `FlexDevice.get` does for other names is not visible.
- The model module (`_NX_MESSAGE_TYPES`, `_supported_keymaps`, `_setup_options`) is not part of this model. It is the parameter `Config`, whose message types are exactly `ZN` and `PA`, each with distinct attribute names. That last point is an assumption about the model module, which is not shown: `_NX_MESSAGE_TYPES[tag]` is a list, and a list may repeat a name, in which case `NXMessage` would merge the repeated entries.
- Characters are ASCII: `isnumeric` and `isupper` are not modelled for other Unicode characters.
- Decode and ProcessEvent require that what follows a known tag is not a non-empty run of digits only (`IdLoopHangs`); a line such as `ZN12x5`, which ends in a digit, is accepted. On an excluded line the id loop at line 115 never ends, because the slice stops growing at the end of the string.
- ProcessEvent selects the addressed device once. The source re-selects `deviceBank[tag][id-1]` on every iteration, which gives the same device each time.
- TrackDevices, constructor: build each tag's device list locally and store it after the loop. The source appends to `deviceBank[device]` in place; no callback or read can observe the difference.
- The callback function is not called: `delivered` logs the events it would receive, in order. The model assumes the callback returns normally and does not call back into the panel. In the source, a callback that raises at line 181 aborts the rest of that line's entries. The exception also ends the `_event_producer` thread, since lines 386-387 have no handler, and the same holds for any error ProcessEvent returns: no later line would be processed.

## Findings

| source | as written | input that shows it | evidently intended | confidence | as-written member | corrected member |
|---|---|---|---|---|---|---|
| pynx587e/controller.py:293-294 | `len(in_command) == 4 or len(in_command == 6)` calls `len` on a bool, which raises TypeError for every numeric input whose length is not 4 | `send("123456")` | a 4- or 6-digit user code passes through, as the documentation of `send` (lines 270-277) says | high; not executed | Protocol.SixDigitCodeAsWritten | Protocol.CommandSelection |

`PanelInterface.Send` and `PanelInterface.Open` follow the code as written (`Protocol.CommandAsWritten`). `Protocol.Command` is the documented selection, and `Protocol.CommandAsWrittenAgrees` states exactly where the two differ.
