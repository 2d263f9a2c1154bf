# IPAC carrier drivers and the TIP810 CAN driver, modelled in Dafny

This project models the logic of a set of EPICS drivers for IndustryPack
(IP) carrier boards, and of the driver for the TEWS TIP810 CAN bus IP
module. Each model follows the behaviour the C code has, with two
exceptions. First, "## Left out" lists what the model does not capture.
Second, where the table under "## Findings" records a defect, the
members in its as-written column model the code as written and prove the
defect, and the members in its corrected column model the evidently
intended behaviour instead. The rest of the model builds on the corrected
members, and their rows in "## Model" are marked *corrected*.

A carrier driver does four things:

- it parses the carrier's parameter string;
- it maps the carrier's address windows and computes, for each IP slot,
  the base address of its ID, I/O and memory spaces;
- it answers `irqCmd` requests by updating the interrupt-select and
  control registers the driver mirrors;
- it routes interrupts to the routines IP drivers connect.

The carriers modelled are:

- the Hytec 8002, top-level `drvHy8002.c` (module `Hy8002`);
- the two implementations in `drvIpac/drvHy8002.c`:
  - the SLAC one (module `Hy8002Slac`);
  - the upstream one (module `Hy8002Upstream`);
- the Hytec carrier under Linux (module `HyLinux`);
- the XVME-9660 (module `Xy9660`);
- the TEWS TAMC220 (module `Tamc220`);
- the Acromag APCIe8650, in its two versions (modules `Apcie8650` and `Apcie8650Ipac`).

Three modules are shared:

- `Lexer`: the small part of `sscanf`, `strtol` and `strstr` that the parsers use;
- `PrivateTable` and `CarrierIsr`: the address table and the interrupt routing that the UIO carriers share;
- `XipIo`: the `xipIoParse` signal-address parser.

The TIP810 driver is modelled in three modules:

- `Tip810Frame`: the PCA82C200 message descriptors and the chip's
  transmit and receive buffers;
- `Tip810Device`: the device registry with its bus-rate table and
  duplicate checks, the per-identifier callback lists, the `canWrite`
  checks, and the interrupt service routine's receive and error accounting;
- `Tip810Parse`: the `canIoParse` hardware-address scanner.

Pure decisions are functions with lemmas about them. Code that updates
state in place is a class whose methods are proved against those
functions: register mirrors, address tables filled in loops, lists,
caches and interrupt tables.

Foreign calls take part only through what they return, which each
method receives as a parameter:

- `devRegisterAddress`, PROM probes and `mmap` results;
- `read()` of an interrupt count and the interrupt-pending word.

The interrupt service routines that IP drivers connect are recorded as
a trace of the calls made.

## Model

| member | source | states |
|---|---|---|
| Hy8002.SkipSpaces | drvHy8002.c:412-413 | the index of the first non-blank at or after i; every character skipped is a blank |
| Hy8002.Until | drvHy8002.c:417-418 | the first index holding one of the stop characters, or the end; no character before it is a stop |
| Hy8002.GetAssign | drvHy8002.c:351-381 | getassign: after blanks an '=' is required, then a non-empty token read with "%i"; a success ends after the name and inside the string |
| Hy8002.NameOf | drvHy8002.c:510-603 | a token names an option exactly when it is AB32, CD32, IPMEM, IPCLCK or MEMOFFS |
| Hy8002.Parse | drvHy8002.c:386-606 | a parse succeeds only on a non-empty string, with VME slot 0..21, level 0..7 and hot-swap vector 0..255 (*corrected*: MEMOFFS must fit the 16-bit membase register, see Findings) |
| Hy8002.OptionStep | drvHy8002.c:500-509 | one pass of the option loop; a pass that succeeds moves the scan forward |
| Hy8002.OptionNamed | drvHy8002.c:510-603 | the switch on the option name; a success moves the scan past the name |
| Hy8002.OptionValue | drvHy8002.c:512-597 | a repeated option fails, a flag is set, a valued option needs getassign and its range; a success moves the scan forward (*corrected*: MEMOFFS must fit the 16-bit membase register, see Findings) |
| Hy8002.AcceptKeepsInvariant | drvHy8002.c:512-597 | accepting an option not given before keeps flags, values and defaults consistent |
| Hy8002.OptionStepKeepsInvariant | drvHy8002.c:500-604 | one pass of the option loop keeps that invariant |
| Hy8002.OptionsKeepInvariant | drvHy8002.c:500-606 | the whole option loop keeps it |
| Hy8002.ParseValid | drvHy8002.c:386-606 | a successful scanparm has slot 0..21, level 0..7, hot-swap vector 0..255, option values in range, defaults for absent options, no option twice (*corrected*: MEMOFFS must fit the 16-bit membase register, see Findings) |
| Hy8002.ParseDefaults | drvHy8002.c:491-494 | with no options every option keeps its default (IPMEM 1, IPCLCK 8, no AB32/CD32/MEMOFFS) |
| Hy8002.SkipSpacesFrom | drvHy8002.c:412-413 | the blank-skipping loop ends where SkipSpaces says |
| Hy8002.ScanUntil | drvHy8002.c:417-418 | the token loop ends where Until says |
| Hy8002.ReadPositional | drvHy8002.c:412-431 | reading one leading integer inline equals Positional |
| Hy8002.ReadAssign | drvHy8002.c:351-381 | the getassign loops equal GetAssign |
| Hy8002.ReadOption | drvHy8002.c:500-509 | one pass of the loop equals OptionStep |
| Hy8002.SwitchOption | drvHy8002.c:510-603 | the switch equals OptionNamed |
| Hy8002.TakeFlag | drvHy8002.c:512-532 | AB32/CD32: refused when already given, else set |
| Hy8002.TakeValue | drvHy8002.c:536-597 | IPMEM/IPCLCK/MEMOFFS: refused when given before, else getassign and the range check (*corrected*: MEMOFFS must fit the 16-bit membase register, see Findings) |
| Hy8002.ScanParm | drvHy8002.c:386-606 | when the calloc of its copy of the string fails scanparm returns 0 (None); otherwise the index-walking scanparm returns exactly Parse(s) (*corrected*: MEMOFFS must fit the 16-bit membase register, see Findings) |
| Hy8002.PositionalOverrun | drvHy8002.c:455-468 | for "5 3" the third integer starts at len + 1, and the driver's `i == len` test lets it write past the copy |
| Hy8002.PositionalInBounds | drvHy8002.c:436-455 | with the end test `i >= len` a leading integer is read only inside the string and its terminator (*corrected*: the reader stops whenever i >= len, see Findings) |
| Hy8002.MemShift | drvHy8002.c:681-700 | the memory size code for 1, 2, 4 and 8 MB is below 4 |
| Hy8002.CsrRoundTrip | drvHy8002.c:669-700 | the CSR fields read back as the parsed level, AB32, CD32, MEMOFFS mode and size, with interrupts off and the 8 MHz clock whatever IPCLCK said |
| Hy8002.CsrIntEnableOnly | drvHy8002.c:1007-1017 | setting or clearing the interrupt enable bit changes no other CSR field |
| Hy8002.MemBaseWordRounds | drvHy8002.c:679 | with 1 MB slots the membase word is MEMOFFS rounded down to a multiple of 64 (*corrected*: MEMOFFS must fit the 16-bit membase register, see Findings) |
| Hy8002.MemOffsWraps | drvHy8002.c:679 | as written, MEMOFFS=65536 yields the same 16-bit membase word as MEMOFFS=0 |
| Hy8002.MemOffsCheckWider | drvHy8002.c:588-590 | the range check as written admits exactly the offsets 65536 to (1 << 17) - 1 beyond those the corrected check admits, and admits every offset the corrected check admits; 65536 passes it and the corrected check refuses it |
| Hy8002.PromWord | drvHy8002.c:218-224 | a PROM byte read with the sign extension masked off is the byte itself (*corrected*: the driver reads the byte through a plain char, see Findings) |
| Hy8002.SignedCharMissesHytec | drvHy8002.c:218-225 | where char is signed, the Hytec manufacturer 0x80 and model 0x82 bytes never compare equal as written |
| Hy8002.PromOkAsWrittenBySign | drvHy8002.c:183-248 | as written, checkprom where char is unsigned accepts exactly the PROMs the corrected check accepts; where char is signed it accepts no PROM at all, a genuine Hytec 8002 included |
| Hy8002.CheckProm | drvHy8002.c:183-248 | *corrected* (PROM bytes read unsigned, see Findings): checkprom accepts exactly a PROM reading "IPA" at every other byte from CARR_IDENT with Hytec manufacturer and model bytes, whatever the signedness of char |
| Hy8002.GeoOrIsAdd | drvHy8002.c:864-879 | the geographic base bits do not overlap, so OR is addition |
| Hy8002.GeoWindowsDisjoint | drvHy8002.c:859-884 | in geographic mode windows of different (VME slot, IP slot) pairs do not overlap and do not wrap |
| Hy8002.A16WindowsDisjoint | drvHy8002.c:826-840 | the A16 windows of all IP slots and of the carriers' own registers do not overlap |
| Hy8002.RegModeIsAdd | drvHy8002.c:885-908 | in register mode the four slots' windows follow each other from the membase |
| Hy8002.BaseAddrIdempotent | drvHy8002.c:819-940 | a second baseAddr for the same slot and space answers from the cache and registers nothing |
| Hy8002.DoubleWideSlotExcluded | drvHy8002.c:807-817 | the slot a double-wide module covers gets NULL and nothing is registered |
| Hy8002.IdFollowsIo | drvHy8002.c:824-847 | the ID space is the I/O space plus 0x80 through the same cache entry |
| Hy8002.IrqStep | drvHy8002.c:953-1049 | irqCmd asks for the board write exactly for Enable or Disable on line 0 or 1 of slots 0..3, changes nothing otherwise, and never clears an INTSEL select bit |
| Hy8002.EnableSelectsOneLine | drvHy8002.c:998-1011 | Enable sets the carrier enable and exactly this slot's line select bit, and asks for the board write |
| Hy8002.DisableKeepsSelects | drvHy8002.c:1013-1020 | Disable clears only the carrier-wide enable; all select bits stay |
| Hy8002.PollReadsOwnSlot | drvHy8002.c:1022-1029 | Poll is non-zero iff one of the slot's two status bits is set, and changes nothing |
| Hy8002.OnlyEnableDisableWrite | drvHy8002.c:953-1048 | the board is written iff the line and slot are valid and the command is Enable or Disable; a bad line is notImplemented, a bad slot badAddress |
| Hy8002.Dumped | drvHy8002.c:136-181 | all four probes succeeding writes every register; none succeeding writes nothing |
| Hy8002.Carrier.constructor | drvHy8002.c:727-754 | the PrivateInfo initialise fills: settings, CSR, membase, empty caches, and the board after HWdump |
| Hy8002.Carrier.HWdump | drvHy8002.c:136-181 | writes membase, CSR, INTSEL, hot-swap in order, stopping at the first failed probe and then marking the carrier absent |
| Hy8002.Carrier.BaseAddr | drvHy8002.c:787-949 | returns, caches and registers as BaseAddrSpec says |
| Hy8002.Carrier.IoAddr | drvHy8002.c:824-847 | the ID/IO arm, registered on first use |
| Hy8002.Carrier.MemAddr | drvHy8002.c:849-936 | the memory arm; a zero base caches NULL and registers nothing |
| Hy8002.Carrier.IrqCmd | drvHy8002.c:953-1049 | updates the mirror as IrqStep says and writes the board only for Enable/Disable on a present carrier |
| Hy8002.Initialise | drvHy8002.c:614-764 | succeeds iff the copy of the string is allocated, the string parses, the carrier window maps, the PROM is a Hytec's, the PrivateInfo is allocated and the layout is supported; a bad string or a failed copy is badAddress, a failed PrivateInfo calloc after a good PROM is ERR (*corrected*: MEMOFFS must fit the 16-bit membase register, and the PROM bytes are read unsigned, see Findings) |
| Hy8002.AppendKeepsNoRepeats | drvHy8002.c:515-529 | accepting an option that was not given before keeps the list of given options free of repeats |
| Hy8002Slac.Pick | drvIpac/drvHy8002.c:1288-1309 | an option leaves its default when absent, the number when allowed, and fails the parse otherwise |
| Hy8002Slac.PickOffset | drvIpac/drvHy8002.c:1312-1318 | MEMOFFS is absent (0) or a number in 0..1 << 17 |
| Hy8002Slac.ScanParm | drvIpac/drvHy8002.c:1239-1321 | a NULL or empty string fails; a success has slot 0..21, level 0..7 and valid options |
| Hy8002Slac.Options | drvIpac/drvHy8002.c:1279-1320 | the options found by strstr keep the two leading numbers and give valid settings |
| Hy8002Slac.RoundTrip | drvIpac/drvHy8002.c:809-837 | every valid setting written in the documented "slot,level,IPMEM=..,IPCLCK=..,ROAK=..[,MEMOFFS=..]" form scans back to itself |
| Hy8002Slac.OptionsRoundTrip | drvIpac/drvHy8002.c:1288-1318 | the rendered options scan back to the settings |
| Hy8002Slac.IpMemBack | drvIpac/drvHy8002.c:1288-1293 | strstr finds the rendered IPMEM value |
| Hy8002Slac.IpClckBack | drvIpac/drvHy8002.c:1296-1301 | strstr finds the rendered IPCLCK value and not the IPMEM one |
| Hy8002Slac.RoakBack | drvIpac/drvHy8002.c:1304-1309 | strstr finds the rendered ROAK value |
| Hy8002Slac.MemOffsBack | drvIpac/drvHy8002.c:1312-1318 | strstr finds MEMOFFS exactly when the memory offset register is used |
| Hy8002Slac.CheckVmeProm | drvIpac/drvHy8002.c:1168-1215 | OK iff the configuration ROM or the GreenSpring bytes identify a Hytec 8002/8003, else badModule, whether char is signed or not |
| Hy8002Slac.CsrRoundTrip | drvIpac/drvHy8002.c:731-753 | every setting lands in its own CSR field, including clock and ROAK, with interrupts off |
| Hy8002Slac.IoPass | drvIpac/drvHy8002.c:1358-1369 | the I/O loop keeps the 16-entry table |
| Hy8002Slac.MemPass | drvIpac/drvHy8002.c:1375-1438 | the memory loop keeps the 16-entry table |
| Hy8002Slac.IoPassOk | drvIpac/drvHy8002.c:1358-1366 | the I/O loop succeeds iff every slot's A16 window maps |
| Hy8002Slac.IoPassKeeps | drvIpac/drvHy8002.c:1367-1368 | the I/O loop writes only the ID and IO entries of the slots it visits |
| Hy8002Slac.IoPassFills | drvIpac/drvHy8002.c:1359-1368 | after a successful I/O loop each slot's IO entry is its mapped window and its ID entry that plus 0x80 |
| Hy8002Slac.IoPassBasetmp | drvIpac/drvHy8002.c:1359 | a successful I/O loop leaves basetmp at the last slot's bus address |
| Hy8002Slac.MemPassOk | drvIpac/drvHy8002.c:1376-1434 | the memory loop succeeds iff every base is non-zero and maps |
| Hy8002Slac.MemPassKeeps | drvIpac/drvHy8002.c:1437 | the memory loop writes only the Mem entries of the slots it visits |
| Hy8002Slac.MemPassFills | drvIpac/drvHy8002.c:1376-1437 | after a successful memory loop each slot's Mem entry is its mapped 1 MB window |
| Hy8002Slac.RegAddrOk | drvIpac/drvHy8002.c:1343-1440 | regaddr succeeds iff every window it asks for maps and no memory base is zero |
| Hy8002Slac.RegAddrSlot | drvIpac/drvHy8002.c:1354-1368 | one slot's ID, IO and IO32 entries after regaddr |
| Hy8002Slac.RegAddrTable | drvIpac/drvHy8002.c:1354-1368 | a successful regaddr gives every slot its I/O address, the ID address 0x80 above it, and no IO32 space |
| Hy8002Slac.RegAddrMemTable | drvIpac/drvHy8002.c:1375-1437 | a successful regaddr gives every slot's Mem entry its mapped 1 MB window |
| Hy8002Slac.GeoOrIsAdd | drvIpac/drvHy8002.c:1381-1387 | for 1 and 2 MB geographic bases OR is addition |
| Hy8002Slac.GeoWindowsDisjoint | drvIpac/drvHy8002.c:1379-1397 | geographic 1 MB windows are aligned and differ for different (carrier, slot) pairs |
| Hy8002Slac.RegWindowsDisjoint | drvIpac/drvHy8002.c:1398-1418 | in register mode the four slots of one carrier get different aligned bases |
| Hy8002Slac.IoWindowsDisjoint | drvIpac/drvHy8002.c:1359 | the A16 I/O windows of different slots never coincide and never meet a carrier's own window |
| Hy8002Slac.IrqStep | drvIpac/drvHy8002.c:595-660 | irqCmd never clears an INTSEL select bit; a line other than 0 and 1 is notImplemented, and then a slot past 3 is badAddress |
| Hy8002Slac.IrqTransitions | drvIpac/drvHy8002.c:595-660 | Enable sets the carrier enable and exactly the line's select bit, Disable clears only the enable, nothing else writes the board |
| Hy8002Slac.SameAsTopLevel | drvIpac/drvHy8002.c:595-660 | this irqCmd and the top-level Hytec driver's agree on every input |
| Hy8002Slac.ReportAfterEnable | drvIpac/drvHy8002.c:505-516 | after Enable report shows that slot's line as active |
| Hy8002Slac.ReportOthersAfterEnable | drvIpac/drvHy8002.c:505-516 | after Enable report shows every other slot as before |
| Hy8002Slac.EnableSetsSelect | drvIpac/drvHy8002.c:626-635 | Enable ORs exactly the line's select bit into ipintsel |
| Hy8002Slac.ReportKept | drvIpac/drvHy8002.c:511-514 | setting one slot's select bit does not change another slot's report |
| Hy8002Slac.LineSet | drvIpac/drvHy8002.c:513-514 | a set select bit reads as active |
| Hy8002Slac.LineKept | drvIpac/drvHy8002.c:513-514 | another slot's lines read as before |
| Hy8002Slac.ReportAfterDisable | drvIpac/drvHy8002.c:636-640 | after Disable report still shows the lines as active: the select bits stay |
| Hy8002Slac.PrivInfo.constructor | drvIpac/drvHy8002.c:766-777 | the privinfo fields initialise sets before any register write |
| Hy8002Slac.PrivInfo.RegAddr | drvIpac/drvHy8002.c:1343-1440 | the nested loops fill the table, make the requests and return the status RegAddrSpec says |
| Hy8002Slac.PrivInfo.BaseAddr | drvIpac/drvHy8002.c:538-544 | the table entry for the slot and space |
| Hy8002Slac.PrivInfo.IrqCmd | drvIpac/drvHy8002.c:595-660 | mirror and reply as IrqStep says; Enable/Disable write CSR then INTSEL |
| Hy8002Slac.PromFailureReportsOk | drvIpac/drvHy8002.c:721-725 | a non-Hytec board fails checkVMEprom, yet initialise returns devUnregisterAddress's OK |
| Hy8002Slac.PromFailure | drvIpac/drvHy8002.c:721-725 | the corrected status of a failed PROM check is that check's own error, never OK (*corrected*: the driver returns the status of devUnregisterAddress, see Findings) |
| Hy8002Slac.InitStatusOk | drvIpac/drvHy8002.c:698-794 | initialise succeeds iff the string parses to a supported layout, the carrier maps with a Hytec PROM, privinfo is allocated, every IP window maps and the level can be enabled; parse and map failures are badAddress, a failed calloc after a good PROM is noMemory (*corrected*: a failed PROM check returns its own error, see Findings) |
| Hy8002Slac.Initialise | drvIpac/drvHy8002.c:698-794 | returns InitStatus, including noMemory when calloc fails, and a configured privinfo exactly on OK (*corrected*: a failed PROM check returns its own error, see Findings) |
| Hy8002Slac.Attach | drvIpac/drvHy8002.c:713-794 | the steps after the parse return AttachStatus: the carrier map, the PROM check, the privinfo calloc (noMemory when it fails), the layout checks, then Setup (*corrected*: a failed PROM check returns its own error, see Findings) |
| Hy8002Slac.Setup | drvIpac/drvHy8002.c:727-793 | once privinfo is allocated, the register writes, regaddr and the level enable return SetupStatus and a configured privinfo |
| Hy8002Slac.Prepare | drvIpac/drvHy8002.c:727-781 | the CSR is written, and the memory offset only in register mode |
| Hy8002Slac.MemOffsAliases | drvIpac/drvHy8002.c:1313 | MEMOFFS 0x10040 passes the parse and selects the same windows as 0x40 |
| Hy8002Upstream.PrefixOf | drvIpac/drvHy8002.c:365 | "%d, %d %n": two comma-separated numbers; the options start inside the string |
| Hy8002Upstream.PrefixAfterComma | drvIpac/drvHy8002.c:365 | the second number and the white space after it; the options start inside the string |
| Hy8002Upstream.ScanParm | drvIpac/drvHy8002.c:348-428 | scanparm returns only OK or badAddress |
| Hy8002Upstream.OptionsAccept | drvIpac/drvHy8002.c:387-427 | the options succeed iff each passes its own test (MEMBASE against the IPMEM in force); each variable then holds its given value or the caller's |
| Hy8002Upstream.Options | drvIpac/drvHy8002.c:387-427 | the option steps return only OK or badAddress, succeed only when no option is malformed, and never change the slot or the level |
| Hy8002Upstream.ScanParmAccepts | drvIpac/drvHy8002.c:348-428 | OK iff the string is non-empty, starts with two numbers, slot 0..21, level 0..7 and every option passes; slot and level are then stored |
| Hy8002Upstream.NoDefaults | drvIpac/drvHy8002.c:362-427 | "slot,level" alone leaves every option variable as the caller set it: scanparm supplies no defaults |
| Hy8002Upstream.PrefixToEnd | drvIpac/drvHy8002.c:365 | for "slot,level" %n stores the string's length |
| Hy8002Upstream.NoOptions | drvIpac/drvHy8002.c:387-427 | an empty option text changes nothing and succeeds |
| Hy8002Upstream.RoundTrip | drvIpac/drvHy8002.c:337-340 | every valid setting written in the documented "slot,level IPMEM=..,MEMBASE=..,IPCLCK=..,ROAK=.." form scans back to itself from any starting values |
| Hy8002Upstream.ReadBack | drvIpac/drvHy8002.c:362-427 | a string whose prefix and options read back gives those settings |
| Hy8002Upstream.PrefixOfRender | drvIpac/drvHy8002.c:365 | "%d, %d %n" reads the rendered slot and level and skips to the options |
| Hy8002Upstream.OptionsRoundTrip | drvIpac/drvHy8002.c:387-427 | the rendered options read back to the settings |
| Hy8002Upstream.AllGiven | drvIpac/drvHy8002.c:387-427 | with every option given the result does not depend on the caller's values |
| Hy8002Upstream.IpMemBack | drvIpac/drvHy8002.c:388-395 | strstr finds the rendered IPMEM value |
| Hy8002Upstream.MemBaseBack | drvIpac/drvHy8002.c:398-405 | strstr finds the rendered MEMBASE value, read with "%i" |
| Hy8002Upstream.IpClckBack | drvIpac/drvHy8002.c:408-415 | strstr finds the rendered IPCLCK value |
| Hy8002Upstream.RoakBack | drvIpac/drvHy8002.c:418-425 | strstr finds the rendered ROAK value |
| Hy8002Upstream.Id3 | drvIpac/drvHy8002.c:467-470 | the three manufacturer bytes give Hytec's IEEE number iff they are 00 80 03 |
| Hy8002Upstream.Id4 | drvIpac/drvHy8002.c:477-480 | the four board bytes give the 8002 or 8004 model iff they spell one of them |
| Hy8002Upstream.CheckVmeProm | drvIpac/drvHy8002.c:451-487 | noModule iff the probe faults; OK iff the ROM is valid and names a Hytec 8002 or 8004; otherwise badModule |
| Hy8002Upstream.LevelField | drvIpac/drvHy8002.c:999-1000 | GetLevel reports 0..7, equal to the CSR's level field |
| Hy8002Upstream.LineBit | drvIpac/drvHy8002.c:996 | each (slot, line) owns one non-zero bit of intsel |
| Hy8002Upstream.LineBitsApart | drvIpac/drvHy8002.c:996 | different lines own different bits |
| Hy8002Upstream.EnableOwnBit | drvIpac/drvHy8002.c:1002-1004 | Enable sets the line's bit, keeps all others and returns OK |
| Hy8002Upstream.DisableOwnBit | drvIpac/drvHy8002.c:1006-1008 | Disable clears the line's bit, keeps all others and returns OK |
| Hy8002Upstream.EnableSetsBit | drvIpac/drvHy8002.c:1003 | Enable sets the line's bit |
| Hy8002Upstream.EnableKeepsOthers | drvIpac/drvHy8002.c:1003 | Enable keeps the other bits |
| Hy8002Upstream.DisableClearsBit | drvIpac/drvHy8002.c:1007 | Disable clears the line's bit |
| Hy8002Upstream.DisableKeepsOthers | drvIpac/drvHy8002.c:1007 | Disable keeps the other bits |
| Hy8002Upstream.IrqStep | drvIpac/drvHy8002.c:988-1016 | only Enable and Disable change intsel, and both reply OK |
| Hy8002Upstream.StepWrites | drvIpac/drvHy8002.c:1002-1008 | what Enable and Disable write into intsel |
| Hy8002Upstream.StepKeeps | drvIpac/drvHy8002.c:998-1015 | every other command leaves intsel alone |
| Hy8002Upstream.DisableUndoesEnable | drvIpac/drvHy8002.c:1002-1008 | Disable after Enable restores a line that was off |
| Hy8002Upstream.ReadsOnly | drvIpac/drvHy8002.c:999-1011 | Poll is non-zero iff the line's status bit is set; Poll and GetLevel write nothing |
| Hy8002Upstream.OthersNotImplemented | drvIpac/drvHy8002.c:1013-1014 | any other command is notImplemented and changes nothing |
| Hy8002Upstream.Ctrl.constructor | drvIpac/drvHy8002.c:994-995 | the register block with the given contents |
| Hy8002Upstream.Ctrl.IrqCmd | drvIpac/drvHy8002.c:988-1016 | intsel and the reply as IrqStep says |
| Tip810Frame.CheckMessage | drvTip810/drvTip810.c:1259-1263 | canWrite's message check answers only Ok or BadMessage |
| Tip810Frame.CheckMessageAccepts | drvTip810/drvTip810.c:1259-1263 | a message passes the check exactly when its identifier is below 2048, its length at most 8 and its rtr SEND or RTR, and is refused exactly otherwise |
| Tip810Frame.TxDesc0 | drvTip810/drvTip810.c:558 | for an 11-bit identifier, descriptor 0 holds its top eight bits with nothing lost |
| Tip810Frame.TxDesc1 | drvTip810/drvTip810.c:559-568 | descriptor 1 carries the identifier's low three bits in bits 7..5, the RTR bit exactly for a frame that is not SEND, and the length's low four bits as its data length code |
| Tip810Frame.RxIdentifier | drvTip810/drvTip810.c:518-519 | the identifier unpacked from two descriptor bytes is always an 11-bit CAN identifier |
| Tip810Frame.RxMessage | drvTip810/drvTip810.c:509-532 | the unpacked message has an 11-bit identifier, at most 8 data bytes and an 8-byte data array; a remote request leaves the buffer's data as it was |
| Tip810Frame.TxData | drvTip810/drvTip810.c:562-566 | data register i holds data byte i of a SEND frame below its length, and keeps its old value otherwise |
| Tip810Frame.DescriptorRoundTrip | drvTip810/drvTip810.c:558-567 | packing an 11-bit identifier, an rtr flag and a 4-bit length into the two descriptor bytes and unpacking them as getRxMessage does (lines 518-523) gives back the identifier, the length and the SEND or RTR decision |
| Tip810Frame.DescriptorBack | drvTip810/drvTip810.c:518-523 | unpacking any two descriptor bytes and packing the result again as putTxMessage does gives back both bytes |
| Tip810Frame.RxCopyOverruns | drvTip810/drvTip810.c:520-528 | a data frame whose length code is 15 makes the copy loop as written store data[8] to data[14], past the 8-byte data array |
| Tip810Frame.RxLength | drvTip810/drvTip810.c:520 | the corrected length lies between 0 and 8, never exceeds the length code, and equals it whenever the code is at most 8 (*corrected*: the driver copies up to 15 bytes, see Findings) |
| Tip810Frame.ReceivedIsSendable | drvTip810/drvTip810.c:509-532 | every message getRxMessage builds, from any register contents, holds bytes only and passes canWrite's check (*corrected*: at most 8 data bytes are copied and reported, see Findings) |
| Tip810Frame.LoopBack | drvTip810/drvTip810.c:552-574 | a message canWrite accepts, written to the transmit buffer and read back by getRxMessage from the same bytes, arrives with the same identifier, kind and length and, for a data frame, the same data bytes |
| Tip810Frame.Pca82c200.constructor | drvTip810/pca82c200.h:160-200 | a controller register block with two distinct 8-register data buffers and all registers zero |
| Tip810Frame.Pca82c200.PutTxMessage | drvTip810/drvTip810.c:552-574 | writes the packed descriptors, the data bytes of a data frame over the old transmit registers, and the transmission request command |
| Tip810Frame.Pca82c200.CopyRx | drvTip810/drvTip810.c:526-528 | the copy loop leaves the first n data bytes equal to the receive registers cut to bytes and the rest as they were |
| Tip810Frame.Pca82c200.GetRxMessage | drvTip810/drvTip810.c:509-532 | returns the message unpacked from the receive buffer with at most 8 data bytes copied, and releases the receive buffer (*corrected*: the driver copies up to 15 bytes into the 8-byte array, see Findings) |
| Tip810Device.Unsigned | drvTip810/drvTip810.c:345 | converting a rate to the unsigned rate field gives a value in 0 .. 2^32-1 |
| Tip810Device.Inc | drvTip810/drvTip810.c:152-158 | a counter increment adds one below 2^32-1 and wraps to 0 at 2^32-1, staying an unsigned int |
| Tip810Device.FindRate | drvTip810/drvTip810.c:378-385 | the rate lookup succeeds exactly for the fourteen legal rates, the Kvaser ones stored as negative numbers in an unsigned field, and the row it finds has that rate; 0 and every other rate give S_t810_badBusRate |
| Tip810Device.RatesListed | drvTip810/drvTip810.c:347-367 | the table rows before the terminator are exactly the legal rates, as unsigned ints |
| Tip810Device.Calls | drvTip810/drvTip810.c:593-601 | running a callback list makes one call per entry, in list order, each with the same parameter |
| Tip810Device.Without | drvTip810/drvTip810.c:1393-1406 | unlinking fails exactly when no entry matches, and otherwise takes away exactly one entry |
| Tip810Device.WithoutCounts | drvTip810/drvTip810.c:1393-1406 | the entries left after unlinking, with the removed callback added back, are those of the old list |
| Tip810Device.WithoutFirst | drvTip810/drvTip810.c:1393-1406 | unlinking removes the first matching entry and keeps every entry before and after it, in order |
| Tip810Device.DeleteUndoesAppend | drvTip810/drvTip810.c:1312-1406 | canMsgDelete of a callback that canMessage just appended to a list not holding it gives the old list back |
| Tip810Device.DeleteAfterAppendTakesFirst | drvTip810/drvTip810.c:1312-1406 | with the callback already registered, appending it again and deleting it removes the older entry and keeps the new one at the tail |
| Tip810Device.BusState | drvTip810/drvTip810.c:670-700 | the bus state is one of OK, error and off, and OK whenever neither ES nor BS is set |
| Tip810Device.BusStateBits | drvTip810/drvTip810.c:670-700 | the bus is reported off exactly when BS is set, in error exactly when ES is set without BS, and OK exactly when neither is set |
| Tip810Device.Device.constructor | drvTip810/drvTip810.c:403-418 | a new device table holds its name, card, slot, vector, rate and magic number, empty callback lists for every identifier and no pending read, and all counters zero |
| Tip810Device.Device.DoCallbacks | drvTip810/drvTip810.c:593-601 | the call trace grows by exactly the calls of the list, in order |
| Tip810Device.Device.CanWrite | drvTip810/drvTip810.c:1247-1277 | a bad device, then a bad message, then a failed semaphore take, then a busy transmit buffer each give their status with the chip untouched; otherwise the message is in the transmit buffer and transmission is requested |
| Tip810Device.Device.CanMessage | drvTip810/drvTip810.c:1312-1347 | a bad device, an identifier of 2048 or more, a NULL routine or a failed allocation changes nothing and returns its status; otherwise the callback is appended at the tail of that identifier's list only |
| Tip810Device.Device.CanMsgDelete | drvTip810/drvTip810.c:1375-1407 | returns OK exactly when the callback is in the identifier's list, and then removes its first match and nothing else; S_can_noMessage, S_can_badMessage and S_t810_badDevice change nothing |
| Tip810Device.Device.CanSignal | drvTip810/drvTip810.c:1444-1473 | a good device with a successful allocation gets the callback appended to the error-signal list; otherwise nothing changes |
| Tip810Device.Device.ErrorInterrupt | drvTip810/drvTip810.c:666-703 | the error counter or the bus-off counter counts the event the status register shows, and every error-signal callback is called once, in order, with that bus state |
| Tip810Device.Device.Isr | drvTip810/drvTip810.c:620-708 | an overrun counts and rescans the interrupt sources; a receive interrupt yields the message getRxMessage unpacks; an error interrupt does the error handling and nothing else touches those counters; a transmit interrupt counts |
| Tip810Device.Device.Receive | drvTip810/drvTip810.c:783-801 | every message counts as received; with no callback for its identifier it is recorded as unused, otherwise that identifier's callbacks run in order; a canRead waiting for that identifier gets the message and stops waiting |
| Tip810Device.CallsJoin | drvTip810/drvTip810.c:593-601 | running two lists one after the other makes the calls of their concatenation |
| Tip810Device.Registry.constructor | drvTip810/drvTip810.c:180 | the device list and the record of interrupt requests start empty |
| Tip810Device.Registry.Create | drvTip810/drvTip810.c:340-455 | a failed ipmValidate, an illegal rate, a duplicate name or card and slot, and a failed allocation are reported in that order and change nothing; otherwise the new device, with the given name, card, slot, vector and rate, empty callback lists, no pending read and zero counters, is appended at the tail, no two devices clash, the chip is left in reset with the rate's timing bytes, and last a request to set the slot's interrupt active (ipmIrqCmd with statActive) is recorded |
| Tip810Device.Registry.Open | drvTip810/drvTip810.c:928-941 | canOpen succeeds exactly when a device has that bus name, and then returns such a device |
| Tip810Parse.NameStart | drvTip810/drvTip810.c:1138-1143 | the name starts at the first alphanumeric character, with none before it; no start is found when the string ends first |
| Tip810Parse.SepFrom | drvTip810/drvTip810.c:1149-1153 | the separator found is the first '/' or ':' from the name on; none is found exactly when neither occurs |
| Tip810Parse.NumberAt | drvTip810/drvTip810.c:1184 | a number read in base 0 never moves the position backwards or past the end |
| Tip810Parse.TimeoutPart | drvTip810/drvTip810.c:1162-1178 | the optional timeout ends at or after the separator that opens it |
| Tip810Parse.PlusTerms | drvTip810/drvTip810.c:1187-1191 | the '+' terms leave an unsigned short identifier and stop at a separator other than '+' |
| Tip810Parse.OffsetPart | drvTip810/drvTip810.c:1193-1202 | an accepted offset is below CAN_DATA_SIZE, 0 when absent |
| Tip810Parse.ParseAddress | drvTip810/drvTip810.c:1124-1216 | every accepted address has an unsigned short identifier and an offset below CAN_DATA_SIZE |
| Tip810Parse.IdPart | drvTip810/drvTip810.c:1180-1191 | the part after the bus name and timeout must start with ':', and what it accepts has a 16-bit identifier and an offset below 8 |
| Tip810Parse.OffsetTail | drvTip810/drvTip810.c:1193-1213 | what follows the identifier, when accepted, keeps the identifier and has an offset below 8 |
| Tip810Parse.ParamPart | drvTip810/drvTip810.c:1204-1213 | the parameter part keeps every field parsed before it and is accepted only after a space or a tab |
| Tip810Parse.ParsedNameOk | drvTip810/drvTip810.c:1138-1156 | every bus name the parser returns starts alphanumeric and holds no '/', ':' or NUL |
| Tip810Parse.RoundTrip | drvTip810/drvTip810.c:1102-1120 | writing an address in the documented form, with or without a timeout, and parsing it gives back the bus name, timeout, identifier, offset and parameter |
| Tip810Parse.SkipToName | drvTip810/drvTip810.c:1138-1143 | the skipping loop stops at the name's start, or at the end exactly when no alphanumeric character exists |
| Tip810Parse.FindSeparator | drvTip810/drvTip810.c:1149 | the search stops at the first '/' or ':' after the name, or at the end exactly when there is none |
| Tip810Parse.ScanIdentifier | drvTip810/drvTip810.c:1184-1191 | the identifier loop computes the identifier and the position the '+' terms define |
| Tip810Parse.PlusTerm | drvTip810/drvTip810.c:1188-1190 | one '+' term moves the position forward and leaves the outcome of the remaining terms unchanged |
| Tip810Parse.ScanHead | drvTip810/drvTip810.c:1133-1178 | a missing name or separator is a bad address; otherwise the rest of the parse continues from the name, timeout and separator found |
| Tip810Parse.ScanTimeout | drvTip810/drvTip810.c:1162-1178 | reads the timeout after '/', and -1 otherwise |
| Tip810Parse.ScanTail | drvTip810/drvTip810.c:1193-1213 | scans the offset and the parameter as the grammar defines them |
| Tip810Parse.ScanOffset | drvTip810/drvTip810.c:1193-1202 | scans the optional offset and refuses one of CAN_DATA_SIZE or more |
| Tip810Parse.ScanParameter | drvTip810/drvTip810.c:1204-1213 | requires a space or tab, then keeps the parameter and the text after it |
| Tip810Parse.CanIoParse | drvTip810/drvTip810.c:1124-1216 | S_can_badAddress exactly for a NULL string or one outside the grammar; otherwise the parsed fields, and OK with the device exactly when a device has that bus name, S_can_noDevice otherwise |
| Tip810Parse.ScanId | drvTip810/drvTip810.c:1180-1213 | from a ':' separator scans the identifier, offset and parameter as the grammar defines them, and refuses any other separator |
| HyLinux.ClockArgs | drvIpac/drvHyLinuxCarrier.c:811-856 | there is one clock option lookup for each of the six slots |
| HyLinux.ArgClock | drvIpac/drvHyLinuxCarrier.c:811-816 | a clock option passes exactly when it is absent, 8 or 32, and it selects 32 MHz exactly when it reads 32 |
| HyLinux.Clocks | drvIpac/drvHyLinuxCarrier.c:811-856 | the options pass exactly when each one passes, and then each slot's flag is what its own option selects |
| HyLinux.ScanParm | drvIpac/drvHyLinuxCarrier.c:759-858 | every accepted string yields carrier slot 0..21 or 99, level 0..7 and six clock flags; a NULL or empty string succeeds with slot 0, level 0 and every slot at 8 MHz |
| HyLinux.ScanParmAccepts | drvIpac/drvHyLinuxCarrier.c:787-856 | a non-empty string is accepted exactly when it starts with two numbers, the slot is 0..21 or 99, the level 0..7 and every clock option passes; each slot is at 32 MHz exactly when its option reads 32 |
| HyLinux.Order | drvIpac/drvHyLinuxCarrier.c:811-856 | the order the rendered options are written in lists each slot index and writes slot C first |
| HyLinux.Pieces | drvIpac/drvHyLinuxCarrier.c:811-856 | the rendered string holds one clock option per slot |
| HyLinux.RoundTrip | drvIpac/drvHyLinuxCarrier.c:759-858 | every accepted setting written as "slot,level,IPCLCKx=n,..." is read back unchanged |
| HyLinux.ClocksBack | drvIpac/drvHyLinuxCarrier.c:811-856 | the six rendered options are read back as the six clock flags |
| HyLinux.OptionBack | drvIpac/drvHyLinuxCarrier.c:811-816 | strstr finds each rendered option and sscanf reads back its 8 or 32, although the names share the prefix "IPCLCK" |
| HyLinux.Pow2 | drvIpac/drvHyLinuxCarrier.c:318-319 | a power of two is at least 1 |
| HyLinux.ClockWord | drvIpac/drvHyLinuxCarrier.c:318-319 | the clock word of n slots lies below 2^n |
| HyLinux.ClockWordBits | drvIpac/drvHyLinuxCarrier.c:318-319 | bit i of the clock word is set exactly when slot i runs at 32 MHz |
| HyLinux.SpaceIndex | drvIpac/drvHyLinuxCarrier.c:205 | each address space has its own column of ipadresses |
| HyLinux.SpaceAt | drvIpac/drvHyLinuxCarrier.c:205 | inverse of SpaceIndex: the space of each column |
| HyLinux.Entry | drvIpac/drvHyLinuxCarrier.c:205 | ipadresses[ip][space] has its own place in the table kept row by row |
| HyLinux.AddressTable | drvIpac/drvHyLinuxCarrier.c:881-901 | the filled table has one entry per slot and address space |
| HyLinux.AddressOf | drvIpac/drvHyLinuxCarrier.c:881-901 | every ID, I/O and memory window of slots 0..5 starts at or above the mapped base and lies inside the 0xE00E00-byte mapping; the 32-bit I/O space is 0 |
| HyLinux.IdAboveIo | drvIpac/drvHyLinuxCarrier.c:893-895 | each slot's ID address is its I/O address plus 0x80 |
| HyLinux.WindowsApart | drvIpac/drvHyLinuxCarrier.c:892-898 | I/O windows of different slots are 0x100 apart, memory windows 0x200000 apart, and every memory window ends below the I/O region |
| HyLinux.RegisterGuard | drvIpac/drvHyLinuxCarrier.c:958-975 | a register access passes exactly for a non-negative handle, a 9010, 7002, 7003 or 6335 carrier and an offset up to REG_CONFIG_2, and otherwise answers badDriver, badModule or badAddress |
| HyLinux.IrqStep | drvIpac/drvHyLinuxCarrier.c:450-522 | ipintsel changes only for Enable or Disable on line 0 or 1 of slots 0..5; a line other than 0 and 1 is a bad level |
| HyLinux.IrqChecks | drvIpac/drvHyLinuxCarrier.c:462-466 | a line other than 0 and 1 is a bad level and a slot past 5 a bad address, before any command runs and with the mirror untouched |
| HyLinux.LinesApart | drvIpac/drvHyLinuxCarrier.c:487-504 | every slot and line owns a different bit of ipintsel |
| HyLinux.EnableSetsLine | drvIpac/drvHyLinuxCarrier.c:487-493 | Enable sets bit 2*slot+line of ipintsel |
| HyLinux.EnableKeepsOthers | drvIpac/drvHyLinuxCarrier.c:487-493 | Enable leaves every other bit of ipintsel |
| HyLinux.DisableClearsLine | drvIpac/drvHyLinuxCarrier.c:500-506 | Disable clears bit 2*slot+line of ipintsel |
| HyLinux.DisableKeepsOthers | drvIpac/drvHyLinuxCarrier.c:500-506 | Disable leaves every other bit of ipintsel |
| HyLinux.DisableUndoesEnable | drvIpac/drvHyLinuxCarrier.c:487-506 | Disable after Enable on a line that was off restores ipintsel |
| HyLinux.OthersKeepMirror | drvIpac/drvHyLinuxCarrier.c:469-520 | commands other than Enable and Disable leave ipintsel unchanged |
| HyLinux.MaskVector | drvIpac/drvHyLinuxCarrier.c:640 | the masked vector lies below 256 (*corrected*: the C tables have 255 entries, see Findings) |
| HyLinux.MaskedVectorOverruns | drvIpac/drvHyLinuxCarrier.c:217-218 | the 0xFF mask lets vector 255 through, which lies past the 255-entry tables as written |
| HyLinux.IrqDesc.constructor | drvIpac/drvHyLinuxCarrier.c:558-563 | the descriptor is allocated with every handler and argument NULL and the device handle recorded |
| HyLinux.Nulls | drvIpac/drvHyLinuxCarrier.c:562 | the zeroed table holds NULL for every vector |
| HyLinux.Carrier.constructor | drvIpac/drvHyLinuxCarrier.c:281-338 | the private structure holds the parsed slot and level, the clock word, the handle, no probed type, a clear ipintsel, no descriptor and no thread |
| HyLinux.Carrier.Probe | drvIpac/drvHyLinuxCarrier.c:918-935 | the carrier type is read once and cached: the answer never changes between calls |
| HyLinux.Carrier.CarrierRead | drvIpac/drvHyLinuxCarrier.c:950-985 | returns the guard's status and, when it passes, the register's value |
| HyLinux.Carrier.CarrierWrite | drvIpac/drvHyLinuxCarrier.c:1000-1037 | returns the guard's status and writes the register only when it passes |
| HyLinux.Carrier.RegAddr | drvIpac/drvHyLinuxCarrier.c:881-901 | the loops leave the table equal to AddressTable and return OK |
| HyLinux.Carrier.BaseAddr | drvIpac/drvHyLinuxCarrier.c:422-428 | the address of a slot and space is the one regaddr computed |
| HyLinux.Carrier.IrqCmd | drvIpac/drvHyLinuxCarrier.c:450-522 | the reply and the new ipintsel are those of IrqStep: checks first, Enable and Disable on the line's bit with the ioctl's result, GetLevel the carrier's level, the rest not implemented |
| HyLinux.Carrier.IntConnect | drvIpac/drvHyLinuxCarrier.c:544-586 | the first call allocates the descriptor, failing with noMemory; every successful call overwrites that vector's handler and argument only, and the thread is started exactly once |
| HyLinux.Carrier.ThreadStep | drvIpac/drvHyLinuxCarrier.c:615-646 | a failed read ends the thread; otherwise the masked vector's handler is called with its argument when both are set (*corrected*: the handler tables have 256 entries, where the C tables have 255, see Findings) |
| HyLinux.DispatchOf | drvIpac/drvHyLinuxCarrier.c:640-643 | a vector makes at most one call, and one exactly when its handler and argument are both set |
| HyLinux.ConnectedVectorCalls | drvIpac/drvHyLinuxCarrier.c:566-567 | after connecting a routine and argument to a vector, that vector calls exactly them and every other vector behaves as before |
| HyLinux.UnconnectedVectorSilent | drvIpac/drvHyLinuxCarrier.c:562 | no vector calls anything before a connection |
| HyLinux.InitStatus | drvIpac/drvHyLinuxCarrier.c:259-347 | initialise returns only OK, badAddress, noMemory, badDriver or badModule, and noMemory when the mapping fails after a good string, allocation and open (*corrected*: a failed mmap is caught, see Findings) |
| HyLinux.MapResultIgnored | drvIpac/drvHyLinuxCarrier.c:305-307 | as written, the address mmap returns never changes the status: every mapping is treated as a successful one |
| HyLinux.MapFailureMissed | drvIpac/drvHyLinuxCarrier.c:305-307 | as written, a failed mmap (MAP_FAILED) on a known carrier yields OK, where the corrected status is noMemory |
| HyLinux.InitAccepts | drvIpac/drvHyLinuxCarrier.c:259-347 | initialise succeeds exactly for a good string, successful allocation and mapping, an open device with a non-zero handle and a known carrier (*corrected*: a failed mmap is caught, see Findings) |
| HyLinux.Initialise | drvIpac/drvHyLinuxCarrier.c:259-347 | returns the status InitStatus gives; on success the carrier holds the parsed values, the clock register the clock word, and a filled address table (*corrected*: a failed mmap is caught, see Findings) |
| Xy9660.IoBase | drvXy9660.c:157-164 | a NULL or empty string gives I/O base 0; any base read is non-negative |
| Xy9660.IoBaseRoundTrip | drvXy9660.c:157-164 | a base written as "0x" and hex digits, followed by anything that is not a hex digit, is read back as that base |
| Xy9660.IoBaseRejects | drvXy9660.c:161-163 | a non-empty string without a hex digit is S_IPAC_badAddress |
| Xy9660.Table | drvXy9660.c:152-155 | the private table holds one address per space and slot |
| Xy9660.OffsetValue | drvXy9660.c:152-155 | slot s's registers lie 0x100*s into the card's window and its PROM 0x80 above them, all inside REGS_SIZE |
| Xy9660.MemSpaceOverruns | drvXy9660.c:237-243 | baseAddr as written indexes past the two-row table for the 32-bit I/O and memory spaces |
| Xy9660.BaseAddrOf | drvXy9660.c:232-243 | the corrected lookup returns the table's ID or I/O entry for those spaces and NULL for the others, as the routine's description promises (*corrected*: the driver indexes its two-row table with IO32 and Mem, see Findings) |
| Xy9660.Configured | drvXy9660.c:402-436 | the global enable follows attr, and a zero param rewrites no other register |
| Xy9660.ConfiguredIdempotent | drvXy9660.c:402-436 | writing the same configuration twice leaves the registers as writing it once |
| Xy9660.InitConfigured | drvXy9660.c:195-209 | after initialise the level is 6, every slot is enabled and cleared, global interrupts are on, and the memory registers are untouched |
| Xy9660.IrqStepAgrees | drvXy9660.c:272-360 | every irqCmd keeps the attribute mask and the status register's global enable in agreement |
| Xy9660.LevelsToggleGlobal | drvXy9660.c:280-289 | Level0 turns global interrupts off and writes the clear mask, Level6 turns them on, both returning OK and changing nothing else |
| Xy9660.SlotZeroIsMask | drvXy9660.c:336-348 | each slot's SLOTx_ZERO mask is every bit but that slot's line 0 |
| Xy9660.ClearWritesSlot | drvXy9660.c:302-327 | Clear writes exactly the slot's line 0 bit to the clear register and enables every line |
| Xy9660.DisableWritesWholeRegister | drvXy9660.c:329-355 | Disable turns off the slot's line 0 and writes 1 to the other slots' bits, so a slot disabled before is enabled again |
| Xy9660.BadSlotChangesNothing | drvXy9660.c:322-323 | Clear or Disable for a slot past D returns S_IPAC_badAddress and changes nothing |
| Xy9660.Carrier.constructor | drvXy9660.c:176-212 | the table is filled for the mapped base and the board is configured as initialise configures it |
| Xy9660.Carrier.FillTable | drvXy9660.c:179-183 | the nested loops leave the table equal to Table of the base |
| Xy9660.Carrier.Configure | drvXy9660.c:402-436 | the registers become Configured of the old registers: exactly those selected by param are written, and the global enable follows attr |
| Xy9660.Carrier.BaseAddr | drvXy9660.c:237-243 | returns the corrected lookup's address (*corrected*: the driver indexes its two-row table with IO32 and Mem, see Findings) |
| Xy9660.IrqStep | drvXy9660.c:272-360 | a VME level is asked for exactly on Enable, and no command touches the level, memory enable or memory base registers |
| Xy9660.Carrier.IrqCmd | drvXy9660.c:272-360 | the registers, attr, reply and enabled VME levels are those IrqStep gives |
| Xy9660.Initialise | drvXy9660.c:142-215 | succeeds exactly when the base parses and devRegisterAddress maps it; then the table is filled for the mapped base, the board configured and attr in agreement with the board |
| XipIo.NameStart | drvXy9660.c:447-451 | the name starts at the first alphanumeric character, and without one the parse fails |
| XipIo.StrChr | drvXy9660.c:455 | the index found holds the character and none before it from the start does; when nothing is found the character is absent |
| XipIo.XipIoParse | drvXy9660.c:439-494 | returns 0 or 1; a NULL string or structure returns 1 untouched; the port and bit change only for flag B and the channel only for flag A |
| XipIo.Analogue | drvXy9660.c:463-473 | the analogue part changes at most the channel |
| XipIo.Binary | drvXy9660.c:474-492 | the binary part changes at most the port and the bit |
| XipIo.AnalogueRoundTrip | drvXy9660.c:439-494 | "name C<channel>" with a plain name parses to 0 with exactly that name and channel written |
| XipIo.BinaryRoundTrip | drvXy9660.c:439-494 | "name P<port> B<bit>" with a plain name parses to 0 with exactly that name, port and bit written |
| XipIo.NoSpaceFails | drvXy9660.c:455-457 | a string without a space returns 1 and leaves the structure untouched |
| XipIo.NoNameFails | drvXy9660.c:447-451 | a string without an alphanumeric character returns 1 and leaves the structure untouched |
| XipIo.AnalogueWithoutChannel | drvXy9660.c:459-472 | with no C after the name the parse returns 1 but the name has been written |
| XipIo.BinaryWithoutBit | drvXy9660.c:476-488 | with a P but no B after it the parse returns 1 with the name and the port already written |
| Lexer.ScanDec | drvIpac/drvHyLinuxCarrier.c:812 | the "%d" conversion consumes no more than the string |
| Lexer.ScanInt | drvHy8002.c:374 | the "%i" conversion consumes no more than the string |
| Lexer.ScanHex | drvXy9660.c:161-163 | the "%p" conversion consumes no more than the string |
| Lexer.StrToL | drvTip810/drvTip810.c:1184 | strtoul with base 0 leaves the end pointer inside the string and yields 0 when it reads nothing |
| Lexer.Find | drvIpac/drvHyLinuxCarrier.c:811 | strstr finds the first occurrence of the pattern, and finds nothing only when it occurs nowhere |
| Lexer.DigitsAt | drvHy8002.c:420 | a number is read exactly when a digit of the base stands at the position, and reading consumes at least that digit |
| Lexer.DecimalValue | drvHy8002.c:420 | the decimal rendering of n has the value n |
| Lexer.HexValue | drvXy9660.c:161-163 | the hex rendering of n has the value n |
| Lexer.ScanDecDecimal | drvIpac/drvHyLinuxCarrier.c:812 | "%d" reads back a decimal rendering followed by a non-digit, and stops right after it |
| Lexer.ScanIntDecimal | drvHy8002.c:374 | "%i" reads back a decimal rendering followed by a non-alphanumeric character |
| Lexer.ScanHexHex | drvXy9660.c:161-163 | "%p" reads back "0x" and a hex rendering followed by a non-hex-digit |
| Lexer.NamedDecimal | drvIpac/drvHyLinuxCarrier.c:811-813 | an option NAME=n placed after text that cannot hold its name is found and read as n, by "%d" and by "%i" |
| Lexer.Leading | drvIpac/drvHyLinuxCarrier.c:787 | the skip count of "%d,%d,%n" lies inside the string |
| Lexer.LeadingBack | drvIpac/drvHyLinuxCarrier.c:787 | two numbers each followed by a comma are read with the skip count just after the second comma |
| Lexer.LeadingOfDecimals | drvIpac/drvHyLinuxCarrier.c:787 | "a,b,rest" written in decimal reads back a and b with the skip count at rest |
| PrivateTable.Table | drvIpac/drvTamc220.c:216-224 | the table has one entry per offset, and any two entries lie as far apart as their offsets |
| PrivateTable.Entry | drvIpac/drvTamc220.c:218-222 | every (space, slot) pair has its own place inside the two-row table |
| PrivateTable.MemSpaceOverruns | drvIpac/drvTamc220.c:277-283 | baseAddr as written indexes past the two-row table for the 32-bit I/O and memory spaces |
| PrivateTable.BaseAddrOf | drvIpac/drvTamc220.c:272-283 | the corrected lookup returns the table's ID or I/O entry and NULL for a space the table does not hold, as the routine's description promises (*corrected*: the driver indexes its two-row table with IO32 and Mem, see Findings) |
| PrivateTable.BaseAddrAgrees | drvIpac/drvTamc220.c:277-283 | wherever the lookup as written stays inside the table, the corrected lookup returns the same entry (*corrected*: the driver indexes its two-row table with IO32 and Mem, see Findings) |
| PrivateTable.Private.constructor | drvIpac/drvTamc220.c:216-224 | a fresh table holding the window's base plus each offset |
| PrivateTable.Private.FillTable | drvIpac/drvTamc220.c:218-222 | the two nested loops leave entry (space, slot) equal to the base plus that offset, for every entry |
| PrivateTable.Private.BaseAddr | drvIpac/drvTamc220.c:277-283 | returns the corrected lookup's address (*corrected*: the driver indexes its two-row table with IO32 and Mem, see Findings) |
| CarrierIsr.Unconnected | drvIpac/drvTamc220.c:586 | the static table starts with one empty entry per slot |
| CarrierIsr.WithIntEnable | drvIpac/drvTamc220.c:228 | the enable bit 0x04 is set and every other bit of the byte kept |
| CarrierIsr.WithoutIntEnable | drvApcie8650.c:363 | the enable bit 0x04 is cleared and every other bit of the byte kept |
| CarrierIsr.SlotMaskIsShift | drvIpac/drvTamc220.c:584 | the slot mask is 0x03 shifted left by twice the slot |
| CarrierIsr.Fired | drvIpac/drvTamc220.c:581-589 | one pass makes at most one call per slot it examines, each for a slot it examines |
| CarrierIsr.FiredAscending | drvIpac/drvTamc220.c:582 | the slots are served in ascending order, each at most once |
| CarrierIsr.FiredSound | drvIpac/drvTamc220.c:584-587 | every call is the routine connected to a pending slot, with that slot's parameter |
| CarrierIsr.FiredComplete | drvIpac/drvTamc220.c:584-587 | every pending slot with a routine connected is called |
| CarrierIsr.UnconnectedSilent | drvIpac/drvTamc220.c:586 | before any intConnect a pass calls nothing, whatever is pending |
| CarrierIsr.QuietPass | drvIpac/drvTamc220.c:584 | with nothing pending a pass calls nothing |
| CarrierIsr.ConnectedSlotFires | drvIpac/drvTamc220.c:597-603 | after intConnect the slot's new routine is called with its parameter whenever the slot is pending |
| CarrierIsr.OtherSlotsUnchanged | drvIpac/drvTamc220.c:597-603 | intConnect for one slot does not change the calls made for any other slot |
| CarrierIsr.Repeat | drvIpac/drvTamc220.c:579 | the Tamc220 checks the one pending word it read for every slot |
| CarrierIsr.MissedIffSkipped | drvIpac/drvTamc220.c:566 | a gap is reported exactly when some interrupt count went by unseen |
| CarrierIsr.Skipped | drvIpac/drvTamc220.c:566-570 | the number reported is the number of counts that went by unseen (*corrected*: the driver prints (icount - oldicount) + 1, see Findings) |
| CarrierIsr.SkippedCounts | drvIpac/drvTamc220.c:566-570 | the counts strictly between the old and the new count number their difference less one (*corrected*: the driver prints (icount - oldicount) + 1, see Findings) |
| CarrierIsr.MissedAsWrittenOverstates | drvIpac/drvTamc220.c:568 | the message as written overstates every gap by two |
| CarrierIsr.IsrTable.constructor | drvIpac/drvTamc220.c:586 | a fresh table with no routine connected |
| CarrierIsr.IsrTable.Connect | drvIpac/drvTamc220.c:597-603 | the slot's entry becomes the routine and parameter, the other entries are kept, and the result is 0 |
| CarrierIsr.WaitThread.constructor | drvIpac/drvTamc220.c:557 | the thread starts with oldicount 10, nothing reported and no call made |
| CarrierIsr.WaitThread.Wake | drvIpac/drvTamc220.c:565-577 | a gap is reported with the number of unseen counts, the count is remembered even from a failed read, and the thread goes on exactly when read returned four bytes (*corrected*: the driver prints (icount - oldicount) + 1, see Findings) |
| CarrierIsr.WaitThread.Pass | drvIpac/drvTamc220.c:581-589 | the loop appends exactly the calls of one dispatch pass to the trace |
| Tamc220.OffsetsLayout | drvIpac/drvTamc220.c:57-63 | slot s's registers lie 0x100 times s into the window and its PROM 0x80 above them, inside the 4096-byte window |
| Tamc220.WindowsApart | drvIpac/drvTamc220.c:140-144 | no two 128-byte windows of the table overlap |
| Tamc220.AddressOfSlot | drvIpac/drvTamc220.c:218-222 | baseAddr of a slot is the mapped base plus the slot's register or PROM offset |
| Tamc220.IrqStep | drvIpac/drvTamc220.c:312-390 | a bad line is S_IPAC_badIntLevel and a slot past the card S_IPAC_badAddress, both changing nothing; only Enable and Disable change a word, only the slot's own, and they return OK (*corrected*: the driver rejects only slot > 5, see Findings) |
| Tamc220.EnableLine0SetsBoth | drvIpac/drvTamc220.c:361-365 | Enable on line 0 leaves both enable bits of the slot's word set |
| Tamc220.EnableLine1SetsInt1 | drvIpac/drvTamc220.c:366-367 | Enable on line 1 sets INT1 and leaves INT0 as it was |
| Tamc220.EnableKeepsOtherBits | drvIpac/drvTamc220.c:358-368 | Enable changes no bit of the word but the two enable bits |
| Tamc220.DisableClearsLine | drvIpac/drvTamc220.c:369-375 | Disable clears the line's own enable bit |
| Tamc220.DisableKeepsOtherBits | drvIpac/drvTamc220.c:369-375 | Disable changes no other bit |
| Tamc220.Line1RoundTrip | drvIpac/drvTamc220.c:358-375 | disabling line 1 after enabling it gives back a word whose INT1 bit was clear |
| Tamc220.Line0LeavesInt1 | drvIpac/drvTamc220.c:358-375 | disabling line 0 after enabling it leaves line 1 enabled |
| Tamc220.SlotGuardOverruns | drvIpac/drvTamc220.c:338 | the guard as written lets slot 4 through, whose ipCtl access lands on the IP reset register |
| Tamc220.SlotGuardCorrected | drvIpac/drvTamc220.c:338 | with the guard on the card's three slots every change lands in one of the three ipCtl words (*corrected*: the driver rejects only slot > 5, see Findings) |
| Tamc220.Carrier.constructor | drvIpac/drvTamc220.c:216-228 | the table is filled for the mapped base and bit 0x04 of the window's first byte is set |
| Tamc220.Carrier.BaseAddr | drvIpac/drvTamc220.c:277-283 | returns the corrected lookup's address (*corrected*: the driver indexes its two-row table with IO32 and Mem, see Findings) |
| Tamc220.Carrier.IrqCmd | drvIpac/drvTamc220.c:312-390 | the reply and the ipCtl words are those IrqStep gives (*corrected*: the driver rejects only slot > 5, see Findings) |
| Tamc220.Carrier.IntConnect | drvIpac/drvTamc220.c:597-603 | the slot's entry of the static table is replaced and 0 returned |
| Tamc220.Carrier.WaitStep | drvIpac/drvTamc220.c:560-590 | one turn of the loop: the gap report, the remembered count, and the calls of a pass that checks the one pending word for every slot (*corrected*: the gap report counts the unseen interrupts; the driver prints (icount - oldicount) + 1, see Findings) |
| Apcie8650.OffsetsLayout | drvApcie8650.c:58-66 | slot s's ID space lies at 0x40 times s plus one and its I/O space at 0x180 plus 0x80 times s, inside REGS_SIZE |
| Apcie8650.WindowsApart | drvApcie8650.c:159-163 | no two windows of the table overlap and all lie inside REGS_SIZE |
| Apcie8650.AddressOfSlot | drvApcie8650.c:223-227 | baseAddr of a slot is the mapped base plus the slot's ID or I/O offset |
| Apcie8650.IrqStep | drvApcie8650.c:314-374 | only a card slot's Clear, Enable or Disable changes the byte, and then OK is returned; only GetLevel returns a level; exactly the commands the switch does not list are not implemented |
| Apcie8650.ClearIsEnable | drvApcie8650.c:332-333 | Clear does exactly what Enable does |
| Apcie8650.EnableDisable | drvApcie8650.c:332-369 | for a card slot Enable leaves the bit set and Disable leaves it clear, other bits untouched |
| Apcie8650.SharedEnableBit | drvApcie8650.c:353-369 | disabling any slot disables interrupts for a slot enabled before |
| Apcie8650.Carrier.constructor | drvApcie8650.c:221-232 | the table is filled for the mapped base and bit 0x04 of the window's first byte is set |
| Apcie8650.Carrier.BaseAddr | drvApcie8650.c:279-285 | returns the corrected lookup's address (*corrected*: the driver indexes its two-row table with IO32 and Mem, see Findings) |
| Apcie8650.Carrier.IrqCmd | drvApcie8650.c:314-374 | the reply and the control byte are those IrqStep gives |
| Apcie8650.Carrier.IntConnect | drvApcie8650.c:535-541 | the slot's entry of the static table is replaced and 0 returned |
| Apcie8650.Carrier.WaitStep | drvApcie8650.c:496-528 | one turn of the loop: the gap report, the remembered count, and the calls of a pass that re-reads the pending word for each slot (*corrected*: the gap report counts the unseen interrupts; the driver prints (icount - oldicount) + 1, see Findings) |
| Apcie8650Ipac.IrqStep | drvIpac/drvApcie8650.c:284-340 | only Clear reads board words, and only a card slot's Enable or Disable changes the byte |
| Apcie8650Ipac.SameAsTopLevel | drvIpac/drvApcie8650.c:291-339 | apart from Clear every command does what the top-level driver's does |
| Apcie8650Ipac.ClearOnlyReads | drvIpac/drvApcie8650.c:301-306 | Clear returns OK and writes nothing, reads exactly the slot's two select words, and so differs from the top-level Clear when the bit was off |
| Apcie8650Ipac.Carrier.constructor | drvIpac/drvApcie8650.c:190-201 | the table is filled for the mapped base and bit 0x04 of the window's first byte is set |
| Apcie8650Ipac.Carrier.BaseAddr | drvIpac/drvApcie8650.c:249-255 | returns the corrected lookup's address (*corrected*: the driver indexes its two-row table with IO32 and Mem, see Findings) |
| Apcie8650Ipac.Carrier.IrqCmd | drvIpac/drvApcie8650.c:284-340 | the reply, the control byte and the words read are those IrqStep gives |
| Apcie8650Ipac.Carrier.IntConnect | drvIpac/drvApcie8650.c:493-499 | the slot's entry of the static table is replaced and 0 returned |
| Apcie8650Ipac.Carrier.WaitStep | drvIpac/drvApcie8650.c:453-486 | one turn of the loop: the gap report, the remembered count, and the calls of a pass that reads intPending for each slot (*corrected*: the gap report counts the unseen interrupts; the driver prints (icount - oldicount) + 1, see Findings) |

## Left out

- Foreign calls are parameters of the methods that use them: `devRegisterAddress`, `devUnregisterAddress`, the PROM probes, `devEnableInterruptLevel`, and `open`, `ioctl`, `mmap` and `read` on the Linux devices. Each method receives the status or the value the call returns.
- Threads and blocking loops are modelled as one turn each: the HyLinux interrupt thread, `ipTamc220WaitForIntr` and `ipApcie8650WaitForInts`. They are concurrency, not logic.
- Sleep and mutex code is left out: `POLLcarrierscan` and `hotSwapInit` in `drvHy8002.c`, the TIP810 receive task, the semaphores of `canWrite` and `canRead`, and timers.
- Report and printf output is left out, along with iocsh registration, the `ipacAdd*` wrappers and `ipacHy8002CarrierInfo`. These are glue over code that is not part of this model.
- Interrupt service routines and callbacks are foreign code. The model records each call in a trace and does not run it.
- Hy8002 top level: `carrISR`, `carintConnect` and the interrupt level enable are not modelled. They are calls into devLib and the ISR table of the VME layer.
- Hy8002Slac: `shutdown` is not modelled. The constants this file borrows from its sibling driver are taken as the values the sibling defines.
- Hy8002Upstream: `initialise`, `baseAddr` and the report compiled out with `#if 0` are not modelled. `initialise` is devLib glue around the modelled `scanparm` and `checkVMEprom`.
- Hy8002Upstream.Ctrl.IrqCmd: requires `4*irq+slot < 31`, the range where the C shift `1 << (4*irq+slot)` on an `int` is defined.
- TIP810: `canRead` is not modelled, with its semaphores and try-lock timeout loop. Neither are `canBusReset`, `canBusStop`, `canBusRestart`, `t810Initialise`, `t810Shutdown`, `t810Status`, `t810Report`, `canTest` or the iocsh commands.
- TIP810: the receive message queue and its overflow are not modelled, nor is the wake-up interrupt log.
- TIP810: the ISR's calls to `ipmIrqCmd` and its name-based bus stop and restart are not modelled.
- Tip810Parse.CanIoParse: the timeout is kept as the integer of milliseconds written in the string, rather than as C's `double` seconds or clock ticks.
- Tip810Parse.CanIoParse: a failure of `strdupn` or `malloc` is not modelled. In C it returns `errno`.
- Tip810Parse.CanIoParse: the parameter is an unbounded integer. In C the `long` that `strtol` returns is stored in the `int` field `parameter`, so on a 64-bit target a value such as 0xffffffff is truncated (to -1); the model keeps it whole.
- Xy9660: the soft-reset busy-wait on the hardware is not modelled. Initialise receives the board as the reset leaves it.
- Xy9660: the mallocs that `initialise` does not check are not modelled, and neither is the report.
- Xy9660: a second number that `%p` would ignore is not modelled.
- Xy9660.IoBase: a leading `+` or `-` sign is refused, although glibc's `%p` accepts one. A signed base address is not a meaningful card parameter.
- Xy9660: of the status register only its GLOBAL_EN bit is modelled, because the driver changes no other bit.
- XipIo.XipIoParse: a failure of `strdupn` is not modelled. Neither is overflow of `%d`, nor the `intHandler` field that the parser never writes.
- HyLinux: pointer values cast to `int` are unbounded integers and are not truncated.
- HyLinux: the exit hook and the report are not modelled. Neither are the no-op probe cases for the 0x5331 and 0x5332 boards, nor the `errno` paths of the interrupt thread.
- Tamc220, Apcie8650 and Apcie8650Ipac: the failures of `malloc` (which return S_IPAC_noMemory), `open`, `mmap`, `strdup` and thread creation are not modelled, nor the `sscanf` of the card and UIO device numbers. Each class's constructor starts after a successful `mmap`.
- Tamc220, Apcie8650 and Apcie8650Ipac: the `pread` and printf at startup are not modelled. Neither is the `pwrite` of the command byte at the head of each turn, because it only re-arms the UIO interrupt.
- Tamc220.Carrier.constructor: the level that GetLevel reports is a parameter. `initialise` never writes it.
- PrivateTable: addresses are unbounded integers. The windows come from `mmap` and every offset lies inside them, so no sum wraps.
- Lexer: `sscanf` and `strtol` are modelled only for the conversions the parsers use (`%d`, `%i`, `%x`/`%p`, base 0). Overflow of the C integer types is not modelled.

## Findings

| source | as written | input that shows it | evidently intended | confidence | as-written member | corrected member |
|---|---|---|---|---|---|---|
| drvTip810/drvTip810.c:520-528 | getRxMessage copies as many data bytes as the 4-bit length code says, up to 15 | a data frame with descriptor 1 = 0x0F writes data[8] to data[14], past the 8-byte array | copy and report at most 8 bytes, the CAN 2.0 maximum | not executed | Tip810Frame.RxCopyAsWritten, Tip810Frame.RxCopyOverruns | Tip810Frame.RxLength, Tip810Frame.Pca82c200.GetRxMessage, Tip810Frame.ReceivedIsSendable |
| drvIpac/drvTamc220.c:338 | irqCmd rejects only slot > 5, but ipCtl has three entries | Enable on slot 4 sets bits in the IP reset register | reject every slot past the card's three | not executed | Tamc220.SlotGuardAsWritten, Tamc220.SlotGuardOverruns | Tamc220.IrqStep, Tamc220.SlotGuardCorrected, Tamc220.Carrier.IrqCmd |
| drvHy8002.c:455-468 | the integer reader stops only when i == len, so a start of len + 1 goes on | "5 3" leaves the third reader at index 4 of a 3-character string, and it writes a NUL there | stop whenever i >= len | not executed | Hy8002.PositionalNulAsWritten, Hy8002.PositionalOverrun | Hy8002.Positional, Hy8002.PositionalInBounds |
| drvHy8002.c:588-590 | any MEMOFFS below 1 << 17 is accepted, then stored in the 16-bit membase word (line 679) | MEMOFFS=65536 passes the check and gives the same register as MEMOFFS=0 | accept only offsets the 16-bit register can hold | not executed | Hy8002.MemOffsAcceptedAsWritten, Hy8002.MemOffsCheckWider, Hy8002.MemBaseWordAsWritten, Hy8002.MemOffsWraps | Hy8002.InRange, Hy8002.Parse, Hy8002.OptionValue, Hy8002.TakeValue, Hy8002.ScanParm, Hy8002.ParseValid, Hy8002.Initialise, Hy8002.MemBaseWord, Hy8002.MemBaseWordRounds |
| drvHy8002.c:218-225 | PROM bytes are read through a plain char, which is signed on many targets | manufacturer byte 0x80 reads as 0xFF80 and never matches MANUFACTURER_HYTEC | read the PROM byte as unsigned | not executed | Hy8002.PromWordAsWritten, Hy8002.SignedCharMissesHytec, Hy8002.PromOkAsWritten, Hy8002.PromOkAsWrittenBySign | Hy8002.PromWord, Hy8002.CheckProm, Hy8002.Initialise |
| drvIpac/drvHy8002.c:721-725 | when checkVMEprom fails, initialise returns the status of devUnregisterAddress | a board whose PROM is not a Hytec 8002 is reported as initialised when unregistering succeeds | return the PROM check's error | not executed | Hy8002Slac.PromFailureAsWritten, Hy8002Slac.PromFailureReportsOk | Hy8002Slac.PromFailure, Hy8002Slac.InitStatusOk, Hy8002Slac.Initialise, Hy8002Slac.Attach |
| drvIpac/drvHyLinuxCarrier.c:305-307 | the mmap check asks whether the returned pointer is below zero | a failed mmap returns MAP_FAILED, (void *) -1, the highest address; the check lets it through, and initialise goes on to the probe and the clock write and can return OK | compare the result with MAP_FAILED and return noMemory | not executed | HyLinux.InitStatusAsWritten, HyLinux.MapResultIgnored, HyLinux.MapFailureMissed | HyLinux.InitStatus, HyLinux.InitAccepts, HyLinux.Initialise |
| drvIpac/drvHyLinuxCarrier.c:217-218 | the handler and argument tables have 255 entries, while the thread masks the vector with 0xFF | vector 255 (or -1 read back as 255) indexes past both tables | 256 entries, one for every vector the mask lets through | not executed | HyLinux.MaskedVectorOverruns | HyLinux.MaskVector, HyLinux.Carrier.ThreadStep |
| drvXy9660.c:242 | baseAddr indexes the two-row table with any address space | the 32-bit I/O and memory spaces read past the table | NULL for a space the card does not have, as the routine's description says | not executed | Xy9660.BaseAddrIndexAsWritten, Xy9660.MemSpaceOverruns | Xy9660.BaseAddrOf, Xy9660.Carrier.BaseAddr |
| drvIpac/drvTamc220.c:277-283 | the UIO carriers' baseAddr indexes the two-row table with any address space | the 32-bit I/O and memory spaces read past the table | NULL for a space the card does not have | not executed | PrivateTable.BaseAddrIndexAsWritten, PrivateTable.MemSpaceOverruns | PrivateTable.BaseAddrOf, PrivateTable.BaseAddrAgrees, PrivateTable.Private.BaseAddr, Tamc220.Carrier.BaseAddr, Apcie8650.Carrier.BaseAddr, Apcie8650Ipac.Carrier.BaseAddr |
| drvIpac/drvTamc220.c:566-570 | the missed-interrupt message reports (icount - oldicount) + 1 | from count 10 to 12 only count 11 was missed, and the message says 3 | report icount - oldicount - 1 | not executed | CarrierIsr.MissedAsWritten, CarrierIsr.MissedAsWrittenOverstates | CarrierIsr.Skipped, CarrierIsr.SkippedCounts, CarrierIsr.WaitThread.Wake, Tamc220.Carrier.WaitStep, Apcie8650.Carrier.WaitStep, Apcie8650Ipac.Carrier.WaitStep |
