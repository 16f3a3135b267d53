# Dredger telemetry and records: a Dafny model

The dredger backend does three jobs:

- It polls a shipboard sensor gateway over TCP once a second. Each binary frame it gets back is decoded into a record of about 130 named channels and pushed to browser clients.
- It imports spreadsheets of logged records, which the import service and two command-line importers batch into the database.
- It answers analysis queries: per-shift statistics, the record of maximal production, hydraulic estimates of the suction vacuum, a soil-region lookup, and the demo-program runner.

A sensor simulator in the same repository produces the frames the backend reads. A Python script turns borehole tables into the topology a geological modeller consumes.

This project models that logic and proves properties of it:

- **Frame format.** The model covers the frame encoder (`SensorSimulator`), the frame decoder, the channel map and the polling session (`SensorLink`, `ChannelMap`), and their byte codecs (`Bytes`). `LinkRoundTrip` proves that every frame the simulator builds decodes back to the words it wrote.
- **Analysis rules:**
  - shift bucketing and the report order (`ShiftService`);
  - the maximal-production and look-ahead scans (`ShiftTools`);
  - the hydraulic conversions and guards (`SuctionVacuum`);
  - spreadsheet row import and batching (`ImportRows`);
  - the import file-name grammar and the directory importer (`ImportFiles`);
  - the response envelope (`Envelope`);
  - the demo runner (`DemoRunner`).
- **Borehole transforms.** `Borehole` models the depth tops, soil codes, interface nodes and soil domains.
- **Helpers.** `Wrappers` and `Text` hold `Option`/`Result` and the string functions the source takes from Go's `strings` package.

Each AI value is a 32-bit word kept as its bit pattern, as in section 3.4 of IEEE 754-2008. The model never interprets it as a float. Bytes are integers 0..255. The source's `uint16` arithmetic is written out modulo 65536.

## Model

| member | source | states |
|---|---|---|
| Bytes.BigEndian16RoundTrip | main.go:264-265 | reading the two bytes of a big-endian u16 field gives back the length that was written |
| Bytes.LittleEndian32RoundTrip | main.go:281-285 | a 32-bit AI word written little-endian reads back as the same word |
| ChannelMap.FieldFor | main.go:295-428 | protocol index p fills a named field exactly when 327 <= p <= 475 and p is not one of the 19 indices the decoder never reads (383, 425-426, 446-452, 454-460, 467-468) |
| ChannelMap.PreviousShiftGoesToCurrentShiftOutput | main.go:358-359 | index 388 (previous-shift production) is stored in CurrentShiftOutput |
| ChannelMap.TransverseDirectionIsTruncated | main.go:378 | index 407 goes to TransverseDirection, the only field converted to int32; every other field is float64 |
| SensorLink.ParseHeader | main.go:257-265 | a 16-byte header is accepted iff it starts 40 01; diLen and aiLen are then the big-endian u16 values at bytes 12..13 and 14..15 |
| SensorLink.AiSlice | main.go:280 | the AI block can be sliced iff diLen + aiLen fits in a uint16, and it is then body[diLen, diLen+aiLen) |
| SensorLink.DecodeWords | main.go:281-288 | n points are decoded, point k being the little-endian word in bytes 4k..4k+3 of the block |
| SensorLink.FilledUpToFields | main.go:295-428 | filling fields up to index hi sets exactly the mapped indices below hi, each from point p-327 |
| SensorLink.RecordFields | main.go:295-428 | with at least 149 points, the record holds exactly the fields the channel map names, each converted from point p-327 |
| SensorLink.DredgerDataHl.FillFromAnalog | main.go:292-428 | filling the record in place from at least 149 points leaves it equal to the channel-map record |
| SensorLink.ReadBody | main.go:267-433 | after the header, the body is diLen+aiLen+4 bytes; a short input, an out-of-range slice or fewer than 149 points are told apart; a decoded frame carries aiLen/4 words and consumes exactly the body |
| SensorLink.ReadFrame | main.go:250-433 | a frame read from the input stream is a cut header, a bad start marker (16 bytes consumed), a cut body, a slice panic, too few points or a decoded record, and leaves the unread rest |
| SensorLink.SensorSession.Receive | main.go:250-265 | receiving a frame reports ReadFrame of the old input and consumes exactly what ReadFrame consumed |
| SensorLink.SensorSession.ReceiveBody | main.go:267-288 | reading the body reports ReadBody of the old input and consumes exactly the body |
| SensorLink.SensorSession.Tick | main.go:242-433 | one tick sends the poll command; a failed write or a cut header or body stops the loop; a slice panic, which nothing recovers, ends the whole server process (main.go:215, 280) and is modelled as stopping this session; a bad start or too few points skips the tick without publishing; a decoded frame publishes its record, and the loop goes on iff the push succeeds |
| SensorSimulator.PrepareResponse | simulator/sensor.go:90-282 | the response built step by step equals the encoded frame for the given AI words |
| SensorSimulator.Checksum | simulator/sensor.go:270-276 | the wrapping u16 byte sum has the same low byte as the exact sum of the bytes |
| SensorSimulator.LowByteOfWrappedSum | simulator/sensor.go:272-276 | the u16 wrap-around of the checksum accumulator never changes its low byte |
| SensorSimulator.FrameLayout | simulator/sensor.go:93-281 | a frame is 688 bytes: 40 01, ten zero bytes, DI length 40 and AI length 628 big-endian, 40 zero DI bytes, the AI block at 56..684, then 01, the byte sum mod 256, 0D 0A |
| SensorSimulator.FrameHeader | simulator/sensor.go:93-105 | the first 16 bytes of every frame are the fixed header |
| SensorSimulator.FrameAiSection | simulator/sensor.go:260-268 | bytes 56..684 of a frame are the AI words for indices 327..483 in order |
| SensorSimulator.FrameWordAt | simulator/sensor.go:260-268 | the four bytes at 56 + 4(p-327) are the little-endian word for index p, zero when p was never set |
| SensorSimulator.HandleConnection | simulator/sensor.go:45-85 | one response is sent per accepted poll, in order, and each is an encoded frame |
| SensorSimulator.PollAcceptance | simulator/sensor.go:70-75 | a chunk starting with the 6-byte poll command is accepted whatever follows it; a chunk shorter than 6 bytes is refused |
| LinkRoundTrip.PollCommandsAgree | main.go:233 | the poll the backend sends is exactly the command the simulator accepts |
| LinkRoundTrip.HeaderRoundTrip | simulator/sensor.go:93-105 | the backend parses any simulated frame's header as diLen 40, aiLen 628 |
| LinkRoundTrip.BlockRoundTrip | main.go:280 | the AI slice the backend cuts from a simulated frame is the simulator's AI block |
| LinkRoundTrip.BlockWords | main.go:281-285 | decoding an encoded block of words for indices lo..hi-1 gives back those words |
| LinkRoundTrip.BodyRoundTrip | main.go:267-288 | the body after a simulated header decodes as the 157 written words and leaves the following bytes unread |
| LinkRoundTrip.FrameRoundTrip | simulator/sensor.go:90-282 | a simulated frame followed by anything decodes with lengths 40/628 into a record whose field p holds the word the simulator wrote for p, and the following bytes are left unread |
| ShiftTools.ShiftName | service/tool.go:13-24 | shifts 1, 2, 3 are named 0-6, 6-12, 12-18 and every other number 18-24 |
| ShiftTools.ShiftNamesDistinct | service/tool.go:13-24 | the four shifts have four different names |
| ShiftTools.DurationBounds | service/tool.go:26-37 | returns (latest, earliest): both are record times and bound every record time; with no records the given bounds come back unchanged |
| ShiftTools.FirstMaxUnique | service/tool.go:141-148 | the first index of strictly greatest output rate is unique |
| ShiftTools.MaxStep | service/tool.go:145-148 | one step of the maximum scan keeps the first strict maximum so far |
| ShiftTools.MaxSoFarComplete | service/tool.go:141-148 | once the scan has seen every record, its index is the first strict maximum |
| ShiftTools.LookAheadUnique | service/tool.go:158-172 | the look-ahead record is determined by the record times |
| ShiftTools.NextRecord | service/tool.go:158-172 | the look-ahead is the first later record at least 180000 ms on, else the last record when i is not last, else none |
| ShiftTools.PumpPressure | service/tool.go:261-269 | mud pump 2 pressure if non-zero, else mud pump 1, else the underwater pump; zero iff all three are zero |
| ShiftTools.SpeedSourceOf | service/tool.go:271-301 | a producing record with zero transverse speed takes its speed from the look-ahead record, or its own absolute speed when there is none; other records set nothing |
| ShiftTools.CalParams | service/tool.go:141-173 | the chosen index is the first strict maximum of output rate; optimal time, flow and pump pressure are that record's; every record gets its speed source |
| ShiftTools.CalParamsDatum | service/tool.go:126-232 | the Minlong records, scanned by current-shift output rate, with booster pump discharge pressure as the pump pressure |
| ShiftTools.CalParamsHl | service/tool.go:234-341 | the Hualong records, scanned by hourly output rate, reporting the pump pressure of the maximal record (corrected, see Findings) |
| ShiftTools.ReportedPumpPressureIsFlow | service/tool.go:323 | as written, the pump pressure reported for the maximal record is its flow rate, which differs from its pump pressure |
| ShiftTools.StripQuotesIsInfix | service/tool.go:383-390 | stripping quotes yields a contiguous part of the input |
| ShiftTools.StripSingleQuotes | service/tool.go:383-390 | a path in single quotes loses exactly those quotes |
| ShiftTools.StripDoubleQuotes | service/tool.go:383-390 | a path in double quotes, with no single quote at either end inside, loses exactly those quotes |
| ShiftTools.MakeAbsUnder | service/tool.go:395-407 | empty stays empty; an absolute stripped path is cleaned; a relative one is joined under the data directory and cleaned |
| ShiftTools.FindSoilType | service/tool.go:464-475 | the soil type of the first region holding the point, with x and y swapped and half-open bounds; the unknown-soil text when none does |
| ShiftTools.HlGeometry | service/tool.go:429-445 | the Hualong mapped record has pipe diameter 0.7, suction depth iff its bridge depth is positive, and pump depth from ear draft plus 12.9 |
| SuctionVacuum.GetCfg | service/suction_vacuum.go:24-71 | the configuration constants: patm 101325, g 9.80665, suction pipe 77.36 m, pump 2.5 m above the bottom, flow in m3/h, density ratio on |
| SuctionVacuum.GetCfgIgnoresShip | service/suction_vacuum.go:24-71 | both branches of the ship-name test give the same configuration |
| SuctionVacuum.DensityToKgM3 | service/suction_vacuum.go:73-86 | kg/m3 keeps v; t/m3 and g/cm3 scale by 1000; any other unit scales iff 0 < v < 5 |
| SuctionVacuum.DensitySignKept | service/suction_vacuum.go:73-86 | the converted density is positive iff the input is |
| SuctionVacuum.DensityAutodetectNotMonotone | service/suction_vacuum.go:73-86 | with the unit left to auto-detection, 4.9 converts to more than 6.0 does |
| SuctionVacuum.FlowRateToM3s | service/suction_vacuum.go:88-93 | m3/h is divided by 3600, every other unit kept |
| SuctionVacuum.PipeD | service/suction_vacuum.go:95-104 | the configured diameter if positive, else the record's, read as millimetres when above 5 |
| SuctionVacuum.FlowVelocityVs | service/suction_vacuum.go:106-119 | a positive measured velocity is used as is; a velocity exists only from a positive measurement or a positive flow through a positive diameter |
| SuctionVacuum.SuctionDepthHsPipe | service/suction_vacuum.go:121-128 | defined iff the cutter depth is positive, and then equal to it |
| SuctionVacuum.EffectiveEarDraft | service/suction_vacuum.go:131-137 | the ear draft, or the mean of left and right when it is zero and both are positive; zero otherwise |
| SuctionVacuum.PumpDepthHsPump | service/suction_vacuum.go:130-145 | defined iff ear draft, ear-to-bottom distance and pump height are usable, and then ear + ear-to-bottom - pump height |
| SuctionVacuum.FrictionFactorMud | service/suction_vacuum.go:147-153 | the clear-water factor scaled by rhoM/rhoW only with the density ratio on and rhoW > 0 |
| SuctionVacuum.GuardedInputs | service/suction_vacuum.go:156-188 | the pressure formula is reached iff slurry density, D, L, both depths and the velocity are all usable, with g, Patm and rhoW defaulted |
| SuctionVacuum.NoDensityNoVacuum | service/suction_vacuum.go:171-178 | with neither density nor field slurry density positive, the vacuum is 0 |
| ShiftService.ShiftOfHour | service/service.go:304-317 | every hour lands in exactly one of the shifts 1..4 |
| ShiftService.ShiftLabelMatchesHours | service/service.go:304-317 | a record's shift name is 0-6, 6-12, 12-18 or 18-24 iff its hour lies in that range |
| ShiftService.InShift | service/service.go:304-317 | a shift's group holds exactly the records whose hour falls in that shift |
| ShiftService.ShiftsPartition | service/service.go:304-317 | the four groups' sizes add up to the number of records |
| ShiftService.GroupByShift | service/service.go:304-317 | the map built by appending holds a group per shift with records, equal to that shift's records in order |
| ShiftService.StatsFromEntries | service/service.go:319-330 | a statistic is emitted for a shift iff its group is non-empty and its duration is positive, spanning its earliest to latest record |
| ShiftService.StatsFromNamesDistinct | service/service.go:319-330 | the emitted statistics have distinct shift names |
| ShiftService.ShiftStats | service/service.go:319-330 | visiting shifts 1..4 in order emits exactly those statistics |
| ShiftService.StatsOrder | service/service.go:440-445 | the comparator (begin time, then shift name) is a strict order, total on distinct keys |
| ShiftService.SortBy | service/service.go:440-445 | sorting yields a permutation ordered by the comparator |
| ShiftService.ShiftReport | service/service.go:285-447 | the report is a permutation of the per-shift statistics, strictly ascending by begin time then shift name |
| ShiftService.FirstAppearances | service/service.go:617-634 | the de-duplicated list holds each ship of the input once |
| ShiftService.ShipList | service/service.go:607-638 | a ship is listed iff it is in either table, and the list is strictly ascending |
| ImportRows.Int32FieldWraps | service/service.go:238-242 | a cell parsed as 2^32 + 1 is stored as 1 in an int32 field (CurrentShift, TransverseDirection, ShipStatus at model/dredger_data.gen.go:66, 86, 106) by both Minlong importers, and unchanged in an int64 field; Int32Wrap keeps any value congruent modulo 2^32 within the int32 range |
| ImportRows.AcceptanceOrdered | service/service.go:229-250 | a row the command-line importer accepts is accepted by the service, and one the service accepts by the Hualong importer, which only checks the time |
| ImportRows.DecodeRow | service/service.go:207-256 | decoding a row gives its record iff the time and every cell are accepted |
| ImportRows.RowRecords | service/service.go:197-262 | a data row yields its record or nothing |
| ImportRows.AddRecords | service/service.go:264-271 | a batch reaching 400 is flushed and restarted; every record stays either flushed or pending, in order |
| ImportRows.FillBatches | service/service.go:197-272 | over all data rows, flushed and pending records are exactly the valid records in order, unless an insert failed |
| ImportRows.Import | service/service.go:121-283 | a file of fewer than 2 rows is refused; otherwise the flushed batches concatenate to the valid records after the header row and the count is their number; on a failed insert the count is 400 per batch before it |
| ImportRows.RowOfFieldCountReadsPastEnd | service/service.go:198-209 | as written, a row of exactly as many cells as fields passes the guard and its loop reads past the row |
| ImportRows.ScriptRowOfFieldCountReadsPastEnd | scripts/main.go:151-160 | in the command-line importers every such row reads past its end |
| ImportRows.CorrectedGuardAgrees | service/service.go:198-255 | with the guard requiring one more cell than fields, the loop as written stays in range and accepts the row iff RowAccepted holds |
| ImportFiles.HanRun | scripts/main.go:345 | the leading run of Han characters is maximal |
| ImportFiles.MatchSound | scripts/main.go:345-349 | a match is a non-empty Han ship name, a timestamp, the separator, a timestamp, and any trailing text |
| ImportFiles.MatchComplete | scripts/main.go:345-349 | every name of that shape is matched, with its parts recovered |
| ImportFiles.ParseTime | scripts/main.go:364-372 | a timestamp parses iff its fields form a real calendar time, and then gives the start of its day |
| ImportFiles.SameDaySameStart | scripts/main.go:364-372 | two valid timestamps on the same day give the same result |
| ImportFiles.ParseFileName | scripts/main.go:344-362 | an invalid name fails; otherwise the ship name and both day starts, the start timestamp's error reported first |
| ImportFiles.HandlerParseFileName | handler/tools.go:9-27 | the handler's parser succeeds, fails and returns exactly as the script's does, without the ship name |
| ImportFiles.TrailingTextAndReversedDays | handler/tools.go:9-27 | trailing text is accepted, and a start after the end is not refused |
| ImportFiles.LeapDay | handler/tools.go:29-36 | 29 February parses in leap years, 2000 included |
| ImportFiles.NoLeapDay | handler/tools.go:29-36 | 29 February fails in 2023 and in 2100 |
| ImportFiles.XlsxBaseName | scripts/main.go:69-74 | for an .xlsx name, the extension is its last five characters and the base name the rest |
| ImportFiles.ScriptImporter | scripts/main.go:89-94 | names containing the Hualong name go to its importer, all others to the main importer |
| ImportFiles.ServiceTable | service/service.go:143-149 | the service picks the Hualong table, else the Minlong table, else refuses the name |
| ImportFiles.JobsOfEntries | scripts/main.go:67-80 | a job exists exactly for each entry that is a parsable .xlsx file |
| ImportFiles.JobOfFacts | scripts/main.go:67-80 | a job's entry is a file, its name ends in .xlsx ignoring case, and its ship and days come from the base name |
| ImportFiles.EntryJob | scripts/main.go:67-80 | one directory entry gives its job or is skipped |
| ImportFiles.ImportDirectory | scripts/main.go:59-102 | the jobs are those of the entries in order, and the total counts only the successful imports |
| Envelope.ErrorText | handler/types.go:12-21 | 10001 and 10002 have their own messages; every other code gets the fallback message |
| Envelope.ErrorTextNamesCode | handler/types.go:12-21 | the two known codes' messages identify the code |
| Envelope.Success | handler/types.go:105-111 | code 0, message success, the given data |
| Envelope.Fail | handler/types.go:113-118 | the given code and message with no data |
| Envelope.FailIsNotSuccess | handler/types.go:7-10 | a failure with a known code is never a success |
| DemoRunner.FileNamesMembers | service/service.go:1156-1161 | the known-file set holds exactly the names of non-directory entries |
| DemoRunner.FreshFilesMembers | service/service.go:1246-1262 | a new file is a non-directory entry after the run whose name was not there before |
| DemoRunner.NewFiles | service/service.go:1246-1262 | the scan returns exactly the fresh files, in directory order |
| DemoRunner.DemoService.constructor | service/service.go:94-107 | each demo's seen set starts as the names of the files in its directory |
| DemoRunner.DemoService.RememberSeen | service/service.go:1264-1272 | the new names are added to the demo's seen set, which is created if missing; nothing else changes |
| DemoRunner.DemoService.FinishRun | service/service.go:1240-1300 | an unknown demo fails; otherwise the new files are returned and remembered, and a log entry is appended only when there are some and the write succeeds |
| DemoRunner.Newest | service/service.go:1329-1334 | the chosen entry is in the log and has the greatest timestamp |
| DemoRunner.ExistingEntries | service/service.go:1277-1282 | an unreadable or unparsable log counts as empty before appending |
| DemoRunner.DemoService.LatestResult | service/service.go:1303-1335 | an unknown demo or unreadable log is an error; a missing or empty log is no result; otherwise the newest entry |
| DemoRunner.FlagName | service/service.go:1048 | the flag is -- followed by the name with its first byte plus 32 (wrapping at 256) |
| DemoRunner.FlagLowersInitial | service/service.go:1048 | for a capitalised field name, the flag starts with its lower-case letter |
| DemoRunner.FieldArgsArePairs | service/service.go:1045-1072 | each non-zero field contributes its flag followed by its value; zero fields contribute nothing |
| DemoRunner.SolidArgs | service/service.go:1036-1072 | an error iff some field is neither text nor number; otherwise solid.py followed by the flag-value pairs |
| Borehole.DepthTops | pys/read_LZ_data.py:73-80 | one top per row: 0 first, the previous row's bottom within the same hole, 0 at a new hole |
| Borehole.HoleTable | pys/read_LZ_data.py:89-105 | ID, X, Y, Z are the first four columns, row for row |
| Borehole.SoilNamesMembers | pys/read_LZ_data.py:111-121 | the soil list holds each distinct soil name exactly once |
| Borehole.SoilNamesOrder | pys/read_LZ_data.py:111-121 | the soil list is in order of first appearance |
| Borehole.SoilCode | pys/read_LZ_data.py:132-136 | soils 0..25 get A..Z and soils 26..51 get a..z (corrected, see Findings) |
| Borehole.SoilCodeInjective | pys/read_LZ_data.py:132-136 | different soil positions get different codes |
| Borehole.SameCodeSameName | pys/read_LZ_data.py:123-139 | two rows get the same code iff they have the same soil name |
| Borehole.TwentySeventhSoilIsNotLetter | pys/read_LZ_data.py:133-136 | as written, the 27th soil gets code '{', not a letter |
| Borehole.FirstFiftyTwoAreLetters | pys/read_LZ_data.py:132-136 | with the correction, the first 52 soils all get letters |
| Borehole.LayerFrame.AssignSoilCodes | pys/read_LZ_data.py:111-141 | (corrected, see Findings) the frame gains a soil-code column, each row coded from its soil name; the other columns are unchanged |
| Borehole.RunsMembers | pys/read_LZ_data.py:208-227 | the per-hole runs hold exactly the rows of listed holes, in order |
| Borehole.RunsRowsOfHole | pys/read_LZ_data.py:208-227 | every row of a run belongs to that run's hole, which is listed |
| Borehole.RunsAlternate | pys/read_LZ_data.py:216-222 | a new run starts at every change of hole, so neighbouring runs belong to different holes |
| Borehole.NodeRow | pys/read_LZ_data.py:169-190 | (corrected, see Findings) one row of the node loop keeps the invariant relating its lists to the runs so far |
| Borehole.InterfaceNodes | pys/read_LZ_data.py:159-202 | (corrected, see Findings) holes, interface indices and depths are those of the runs of listed holes |
| Borehole.InterfaceSizes | pys/read_LZ_data.py:159-202 | a run of m rows gets m+1 interface indices |
| Borehole.InterfacesConsecutive | pys/read_LZ_data.py:159-202 | the interface indices of all runs together are 0, 1, 2, … without gaps |
| Borehole.ProfilesOfRuns | pys/read_LZ_data.py:166-197 | each run's depth profile is its rows' tops followed by its last row's bottom (corrected, see Findings) |
| Borehole.AsWrittenAgreesOnThickHoles | pys/read_LZ_data.py:170-197 | the loop as written gives the intended profiles when every hole has at least two layers |
| Borehole.OneLayerHoleTakesStaleBottom | pys/read_LZ_data.py:186-195 | as written, a one-layer hole takes the previous hole's bottom |
| Borehole.SoilDomains | pys/read_LZ_data.py:208-230 | (corrected, see Findings) the domains are the soil codes of each run of listed holes, keyed by hole |
| Borehole.DomainsConcatenate | pys/read_LZ_data.py:208-230 | the domains concatenated are the codes of the member rows, in order |
| Borehole.DomainsAreKeptCodes | pys/read_LZ_data.py:208-230 | the concatenated domains equal the code column filtered to the listed holes |

## Left out

- Network, WebSocket and HTTP plumbing (`handleConnections`, `ws.WriteJSON`, `SetupRouter`, the handlers) are not modelled. A WebSocket push is a `pushOk` flag and a TCP write a `writeOk` flag. Reads come from one byte sequence the session consumes.
- Concurrency is not modelled: the goroutine per sensor, the client map and its mutex, the service mutex, and the ticker's timing. One tick is one call.
- SensorLink.SensorSession.Tick: a slice panic (diLen + aiLen above 65535, main.go:280) happens in the connection's goroutine (main.go:215) with no recover, so it ends the whole server process and every other connection; the model only stops this session.
- SensorLink.SensorSession.Tick: the predicted vacuum and the JSON message built from the record are not modelled. The published value is the decoded record.
- SensorSimulator.HandleConnection: each 1024-byte read is one chunk in a given sequence. Read deadlines, read errors and a failed write, which end the loop, are not modelled.
- The simulator's random ±5% perturbation is not modelled. The AI words are a parameter map, and unset indices encode as zero.
- IEEE-754 values are not modelled. AI words are bit patterns, the float32-to-float64 and int32 conversions are labels on the field, and NaN/Inf are `None`.
- `calculateStats`, `round`, the accumulated-duration functions, shift production and energy averages, and `averageVacuum*` are floating-point aggregates and are left out.
- SuctionVacuum.CalcVacuumKPa: only its guards are stated (`GuardedInputs`, `NoDensityNoVacuum`). The final pressure formula is nonlinear real arithmetic.
- ShiftTools.CalcVacuumKPaFromHL: this is the field mapping into `CalcVacuumKPa`. Its guards are stated through `HlGeometry`, for the same reason as above.
- SuctionVacuum.FlowVelocityVs: only the guard direction is stated (a velocity exists only from positive inputs). The converse needs the positivity of a quotient involving pi and D².
- Time zones, `time.Now` and Unix-millisecond conversion are parameters: the hour of a record, the start of a calendar day and the log timestamp.
- Go's `time.Parse` is modelled only for the fixed layout: digit fields, month/day/hour/minute/second ranges and leap years.
- Reflection is not modelled. Field lists and kinds are a given sequence, and strconv parsing and float formatting are parameter functions.
- The `cover` step of `executeImport` (service/service.go:174-192) is not modelled: it deletes old rows by timestamp before importing. The database, transactions and the recover-and-rollback path are left out too. Inserts are appends of batches, and an insert's success is a parameter.
- ImportRows.CellValue: the Hualong importer (scripts/main.go:301-312) has cases only for float64, int64 and string fields; the model leaves its int32 fields unset, as the source does; which Hualong fields are int32 is not fixed here, because the Hualong record type is not part of this model.
- ImportRows.DecodeRow, ImportRows.RowRecords, ImportRows.FillBatches and ImportRows.Import require or filter for one more cell than fields. This is the corrected guard; the as-written guard is modelled separately (see Findings).
- Excel reading, `os.ReadDir`, `os.Open`, file contents and `exec.Command` are not modelled. Directory listings are sequences of entries, and the per-file import result is a parameter.
- ShiftTools.MakeAbsUnder: `filepath.IsAbs`, `Clean` and `Join` are parameter functions. Windows path rules are not modelled.
- Go strings are byte sequences, but the model uses sequences of code points. Invalid UTF-8 names are not modelled. `FlagName` assumes field names whose first character is a single byte.
- The pandas and ODBC readers of the borehole script (`get_all_tables`, `get_table_data`, `export`, `select_table`, the main block) are not modelled. DataFrames are columns as sequences.
- `GetShiftPie`, `GetAllShiftParameters` and `GetOptimalShift` share the shift bucketing modelled here. Their float aggregates are left out.
- The sensor link is modelled as the code has it. Frames are read by declared length. There is no marker scanning or reassembly and no bounded buffer, and the checksum and end marker are consumed without being checked.
- `model/dredger_data.gen.go`, `dao/gen.go`, `gen/gen_dao.go` and `pkg/conf/conf.go` are generated schema, data-access and configuration code. They are not part of this model.

## Findings

| source | as written | input that shows it | evidently intended | confidence | as-written member | corrected member |
|---|---|---|---|---|---|---|
| service/service.go:198-209 (also scripts/main.go:151-160 and 275-284) | a row is skipped only if it has fewer cells than fields, but field i reads cell i+1 | fields [time, text] and a row of two cells: the loop reads a third cell, which panics; the deferred recover only rolls back, so ImportData returns nil, nil and the upload reports success with nothing stored (service/service.go:108, 125-130), and importData and importDataHualong return 0, nil, so the file counts as imported with 0 records (scripts/main.go:107, 125-128, 230, 248-251) | skip rows with no more cells than fields | not executed | ImportRows.RowOfFieldCountReadsPastEnd | ImportRows.CorrectedGuardAgrees |
| pys/read_LZ_data.py:133-136 | codes from the 27th soil on are `chr(97 + j)` | j = 26 gives `{`, not `a` | `chr(97 + j - 26)`, so soils 26..51 get a..z | not executed | Borehole.TwentySeventhSoilIsNotLetter | Borehole.FirstFiftyTwoAreLetters |
| pys/read_LZ_data.py:175, 190, 195 | a closing hole's bottom is read from row `k`, which only the same-hole branch updates | holes 1 (two rows) and 2 (one row): hole 2's profile ends with hole 1's bottom 2.0 instead of 3.0 | the bottom of the hole's own last row | not executed | Borehole.OneLayerHoleTakesStaleBottom | Borehole.ProfilesOfRuns |
| service/tool.go:323 | the pump pressure reported for the maximal record is `flows[maxIndex]` | one record with flow 5.0 and mud pump 2 pressure 2.0 reports 5.0 | `underwaterPumpDischargePressures[maxIndex]` | not executed | ShiftTools.ReportedPumpPressureIsFlow | ShiftTools.CalParamsHl |
