# Super Serial Card DIP-switch calculator

A model of the calculator that tells an Apple II owner how to set the two
7-position DIP-switch banks (SW1 and SW2) of the Super Serial Card, and which
slot to put the card in, for a chosen use: a modem (baud rate, data bits,
parity, stop bits) or a printer (baud rate, line width, return delay), plus
auto line feed and interrupts.

The calculator is a pure mapping from one snapshot of the configuration form
to two banks of seven switches, so the model is a set of functions:

- `baud_table.dfy`, module `BaudTable`: the fifteen-row baud-rate table that
  gives SW1-1..SW1-4, the exact-match search over it with its fallback to the
  9600 pattern, and the proof that the table is the 4-bit binary code of
  14 - row, so that the four switches decode back to the rate
  (`DecodeBaud`, a reference decoder written from the binary code, is the
  partner of the lookup).
- `switch_resolver.dfy`, module `SwitchResolver`: the configuration record,
  bank SW1, bank SW2 with its modem and printer branches and the width map,
  the recommended slot, and lemmas saying which fields each output reads.

A bank is a `seq<bool>` of length 7; index i is switch i + 1, true is ON.
Baud rate, data bits, parity, stop bits and line width stay strings, as in
the source, which compares strings; so the fallbacks are observable for any
string outside the menus.

## Model

| member | source | states |
|---|---|---|
| `BaudTable.Find` | src/pages/Index.tsx:44 | the search returns None exactly when no row carries the rate; otherwise a row with that exact rate, and no earlier row carries it |
| `BaudTable.BaudPattern` | src/pages/Index.tsx:44 | the four switches are the table row whose rate matches exactly; for a rate not in the table they are OFF, OFF, OFF, ON |
| `BaudTable.BaudRowsEncode` | src/pages/Index.tsx:25-41 | the table has 15 rows of four switches, and row k is the 4-bit binary code (SW1-1 most significant) of 14 - k |
| `BaudTable.BaudValuesDistinct` | src/pages/Index.tsx:25-41 | the fifteen rate strings are pairwise distinct |
| `BaudTable.BaudPatternsDistinct` | src/pages/Index.tsx:25-44 | the fifteen patterns are pairwise distinct, none is all ON, and the fallback pattern is the row of "9600" |
| `BaudTable.EncodeThenDecode` | src/pages/Index.tsx:25-44 | decoding the pattern of any string gives back that rate when it is listed and "9600" otherwise |
| `BaudTable.DecodeThenEncode` | src/pages/Index.tsx:25-41 | every 4-switch pattern except all ON decodes to a listed rate whose pattern is that pattern; all ON and patterns of another width decode to nothing |
| `SwitchResolver.Sw1Settings` | src/pages/Index.tsx:43-50 | SW1 has seven switches; 1-4 are the matching table row or OFF, OFF, OFF, ON for an unlisted rate; 5 is ON iff the mode is modem; 6 and 7 are always ON |
| `SwitchResolver.Sw1DecodesToBaud` | src/pages/Index.tsx:25-50 | SW1-1..SW1-4 decode to the chosen rate, or to 9600 when the rate is not in the table |
| `SwitchResolver.Sw1SeparatesRates` | src/pages/Index.tsx:25-50 | two listed rates that give the same SW1 are the same rate |
| `SwitchResolver.UnknownBaudActsAs9600` | src/pages/Index.tsx:39-44 | a rate missing from the table sets SW1 exactly as "9600" does |
| `SwitchResolver.Sw1At9600` | src/pages/Index.tsx:39-44 | "9600" sets SW1-1..SW1-4 to OFF, OFF, OFF, ON |
| `SwitchResolver.Sw1OnlyReadsBaudAndMode` | src/pages/Index.tsx:43-50 | configurations with the same baud rate and mode give the same SW1 |
| `SwitchResolver.Sw2Settings` | src/pages/Index.tsx:52-103 | SW2 has seven switches; in modem mode 1 is ON iff one stop bit (whatever the data bits), 2 iff eight data bits, 3 iff odd parity, 4 iff no parity; in printer mode 1 is ON, 2 is the return delay, 3-4 are ON/ON, ON/OFF, OFF/ON, OFF/OFF for 40, 72, 80, 132 columns and OFF/ON for any other width; 5 is auto line feed, 6 is interrupts, 7 is ON iff printer mode at 40 columns |
| `SwitchResolver.Sw2OnlyReadsItsInputs` | src/pages/Index.tsx:52-103 | configurations that agree on the mode, the two shared flags and the fields of the chosen mode's branch give the same SW2 |
| `SwitchResolver.PrinterIgnoresSerialFormat` | src/pages/Index.tsx:80-100 | in printer mode, changing data bits, parity and stop bits leaves SW2 unchanged |
| `SwitchResolver.ModemIgnoresPrinterFormat` | src/pages/Index.tsx:55-100 | in modem mode, changing line width and return delay leaves SW2 unchanged |
| `SwitchResolver.StopBitsOnlyMoveSwitch1` | src/pages/Index.tsx:69-79 | in modem mode, changing the stop bits leaves SW2-2..SW2-7 unchanged: both stop-bit branches set the parity switches alike |
| `SwitchResolver.ParitySwitchesExclusive` | src/pages/Index.tsx:69-75 | in modem mode SW2-3 and SW2-4 are never both ON, and even parity turns both OFF |
| `SwitchResolver.WidthsDistinguishable` | src/pages/Index.tsx:86-95 | in printer mode, two widths of the width map that give the same SW2-3 and SW2-4 are the same width |
| `SwitchResolver.ModemNeverSetsSwitch7` | src/pages/Index.tsx:100 | SW2-7 is OFF in modem mode |
| `SwitchResolver.JumperAndVideoNeverMatter` | src/pages/Index.tsx:43-103 | changing the jumper orientation or the video-output flag changes neither bank nor the recommended slot |
| `SwitchResolver.RecommendedSlot` | src/pages/Index.tsx:126-128 | the slot is "Slot 1" iff the mode is printer and "Slot 2" iff it is modem |
| `SwitchResolver.SlotOnlyReadsMode` | src/pages/Index.tsx:126-128 | configurations with the same mode get the same slot |
| `SwitchResolver.DefaultSettings` | src/pages/Index.tsx:13-23 | the form's initial state (modem, 9600, 8, none, 1, no auto line feed, interrupts on) gives SW1 = OFF OFF OFF ON ON ON ON, SW2 = ON ON OFF ON OFF ON OFF, "Slot 2" |
| `SwitchResolver.Printer40Settings` | src/pages/Index.tsx:80-102 | a 40-column printer with return delay, interrupts and no auto line feed gets SW1-5 OFF, SW2 = ON ON ON ON OFF ON ON and "Slot 1" |
| `SwitchResolver.Printer132Settings` | src/pages/Index.tsx:80-102 | a 132-column printer gets SW2-3, SW2-4 and SW2-7 OFF |

## Left out

- React state and setters (src/pages/Index.tsx:13-23 and the handlers): the model takes an immutable `Config` snapshot instead.
- The rendering: the form, the switch pictures (`DipSwitchVisualization`), the configuration summary text and the fields the form hides in one mode; these are presentation. That hidden fields do not affect the output is stated by the independence lemmas.
- JavaScript lookup quirks: `widthMap[lineWidth]` can also hit inherited object keys such as "constructor"; the model looks the width up by exact match over the four keys only. `find(...)?.sw1 || fallback` is modelled as an option lookup: every JavaScript array is truthy, so the fallback is taken only when the search finds no row.
- No check relates the jumper orientation to the operation mode, and the model adds none.
