# A verified model of the tapo client core

`tapo` is a client library for TP-Link Tapo smart-home devices: bulbs (L510,
L530, L900, L920, L930), plugs (P100, P110, P300 power strips), hubs (H100)
and their child sensors and thermostats (T310/T315, KE100). It talks to a
device over HTTP, in one of two protocols. In secure passthrough, an RSA key
exchange yields an AES-128-CBC session key, and each request is wrapped in a
`securePassthrough` envelope. KLAP is a SHA-256 handshake over local and
remote seeds, followed by sequence-numbered AES-CBC messages with a signature.
The library builds typed requests (`get_device_info`, `set_device_info`
builders with their validation, lighting and segment effects, `play_alarm`,
energy and power queries) and decodes typed responses: error codes, base64
nicknames, child-device lists, temperature history and energy intervals. It
also discovers which protocol a device speaks.

The repository holds two generations of the client:

- `src/` is the first crate, passthrough only.
- `tapo/` is the current crate, with both protocols, hubs, power strips and
  discovery.
- `tapo-py/` holds the Python bindings over the current crate. Only their
  argument parsing and result conversion are modelled.

Where both crates implement the same logic, the model defines it once and
states the agreement as a lemma.

The model has these layers:

- **Values.** Byte strings, base64, hex, UTF-8, a small JSON value, the
  calendar and the crate's date formats.
- **Requests and responses.** `TapoRequest`, `TapoResponse` and their
  validation; every `set_device_info` builder with its checks in the
  source's order; colour presets; lighting and segment effects with their
  presets; alarm parameters; energy and power queries and results.
- **Ciphers.** The passthrough and KLAP ciphers over abstract primitives:
  the key derivations, the framing, and encrypt/decrypt round trips.
- **Protocols and clients.** Classes with `modifies` clauses. Their methods
  state the whole new session state after a handshake, login or request.
- **Discovery and children.** The discovery query and result, child
  lookups on hubs and power strips, and the hub's child results.

Methods that loop in the source are imperative Dafny with loop invariants,
each proved against a specification function. Pure transformations are
functions, with lemmas for their round trips, invariants and agreement
properties.

## Model

| member | source | states |
|---|---|---|
| Wrappers.OkOr | tapo/src/api/api_client.rs:464-467 | `ok_or_else`: `Ok` exactly when the option holds a value, which it carries; otherwise the given error |
| Bytes.AsU8 | tapo/src/responses/child_device_list_hub_result/t31x_result.rs:197 | `as u8` keeps a value in range and otherwise differs from it by a multiple of 256 |
| Bytes.AsI8 | tapo/src/responses/child_device_list_hub_result/t31x_result.rs:196 | `as i8` keeps a value in -128..127 and otherwise differs from it by a multiple of 256 |
| Bytes.AsU64 | tapo/src/requests/get_power_data.rs:20-21 | `as u64` of a signed timestamp keeps non-negative values and wraps the rest modulo 2^64 |
| Bytes.AsU16 | tapo/src/api/discovery/aes_discovery_query_generator.rs:52 | `as u16` of the payload length keeps it below 65536 and otherwise wraps it modulo 65536 |
| Bytes.U16BE | tapo/src/api/discovery/aes_discovery_query_generator.rs:59-62 | two bytes, most significant first, whose value is the number |
| Bytes.U32BE | tapo/src/api/discovery/aes_discovery_query_generator.rs:65-66 | four bytes whose big-endian value is the number |
| Bytes.I32BE | tapo/src/api/protocol/klap_cipher.rs:57 | four bytes that `BEToI32` reads back as the same signed number |
| Bytes.BEToI32 | tapo/src/api/protocol/klap_cipher.rs:99 | the value is non-negative exactly when the top bit of the first byte is clear |
| Bytes.FromBE4Bound | tapo/src/api/discovery/aes_discovery_query_generator.rs:55 | `u32::from_be_bytes` is the positional value of the four bytes, below 2^32 |
| Hex.LowerHex | src/encryption.rs:90 | two lowercase hexadecimal digits per byte |
| Hex.ParseLowerHex | src/encryption.rs:90 | the hexadecimal text reads back as the bytes it was written from |
| Hex.LowerHexParse | src/encryption.rs:90 | every readable lowercase hexadecimal text is what `LowerHex` writes for its bytes |
| Decimal.NatToString | tapo/src/responses/energy_data_result.rs:92-95 | at least one digit and no leading zero |
| Decimal.ParseIntToString | tapo/src/api/protocol/klap_protocol.rs:58-60 | the decimal rendering of an integer is a sign and digits that parse back to the integer |
| Decimal.IntToStringInjective | tapo/src/api/protocol/klap_protocol.rs:58-60 | distinct integers render as distinct text |
| Base64.Encode | src/encryption.rs:45 | `STANDARD.encode`: a multiple of four characters, empty exactly for empty input |
| Base64.EncodeLength | src/encryption.rs:45 | four characters for every started group of three bytes |
| Base64.DecodeEncode | src/encryption.rs:45-51 | decoding undoes encoding for every byte string |
| Base64.EncodeDecode | src/encryption.rs:51 | every string `STANDARD.decode` accepts is the encoding of what it decodes to (canonical padding, zero unused bits) |
| Base64.DecodeIsEncodeInverse | src/encryption.rs:45-51 | decode and encode are inverse bijections between bytes and canonical base64 |
| Base64.EncodeIsDecodable | src/encryption.rs:45 | every encoding decodes |
| Utf8.DecodeEncode | src/encryption.rs:58 | `from_utf8` of a string's bytes gives the string back |
| Utf8.EncodeDecode | src/encryption.rs:58 | well-formed UTF-8 is the encoding of the one string it decodes to |
| Utf8.DecodeIsEncodeInverse | src/encryption.rs:58 | decode and encode are inverse bijections between strings and well-formed UTF-8 |
| Json.EscapeChar | tapo/src/api/protocol/klap_protocol.rs:55 | `serde_json` escapes a character to one to six characters, and to itself exactly when it is neither a quote, a backslash nor a control character |
| Json.UnescapeEscape | tapo/src/api/protocol/klap_protocol.rs:55 | reading back an escaped string literal gives the original string |
| Json.Get | tapo/src/api/discovery/discovery_result.rs:130-136 | a found value belongs to a member with that key; a present key is always found |
| Json.LookupLast | tapo/src/api/discovery/discovery_result.rs:130-134 | the value found is that of the last member carrying the key, as the map of a parsed object keeps it |
| Json.DuplicateKeyLastWins | tapo/src/api/discovery/discovery_result.rs:130-134 | of two members with the same key, the later value is the one read |
| Json.LookupAbsent | tapo/src/api/discovery/discovery_result.rs:130-134 | a key no member carries is not found |
| Json.OptMember | tapo/src/requests/tapo_request.rs:45-48 | `skip_serializing_if = "Option::is_none"`: one member when present, none when absent |
| Decoding.DecodeValue | src/responses/decodable_result_ext.rs:20-23 | the string whose UTF-8 bytes are the base64 payload; a base64 failure and a UTF-8 failure are reported apart |
| Decoding.DecodeValueIsInverse | src/responses/decodable_result_ext.rs:20-23 | a field decodes to `s` exactly when it is the base64 of the UTF-8 of `s` |
| Decoding.DecodeJson | src/responses/decodable_result_ext.rs:14-18 | a raw JSON value decodes to itself and never fails |
| EnergyDataResult.Advance | tapo/src/responses/energy_data_result.rs:88-96 | one step is an hour, a day or a calendar month for the intervals 60, 1440 and 43200 minutes; any other interval is the unsupported-interval error naming it |
| EnergyDataResult.TryInto | tapo/src/responses/energy_data_result.rs:74-105 | a start timestamp outside chrono's date range fails with "Failed to map start_timestamp to local time"; otherwise it fails exactly when there is data and the interval is unsupported; on success one entry per reading, in order, with its energy, entry `k` starting `k` steps after the start timestamp, and the local time, start and interval passed through |
| EnergyDataResult.HourlyEntryTime | tapo/src/responses/energy_data_result.rs:83-89 | hourly entries start exactly `k` hours after the start |
| EnergyDataResult.DailyEntryTime | tapo/src/responses/energy_data_result.rs:83-90 | daily entries start exactly `k` days after the start |
| EnergyDataResult.MonthlyEntryTime | tapo/src/responses/energy_data_result.rs:83-91 | monthly entries all keep the start's time of day |
| Calendar.Hour | tapo/src/requests/get_power_data.rs:63 | the hour of a Unix time is in 0..23, for times before 1970 too |
| Calendar.Minute | tapo/src/requests/get_power_data.rs:38 | `minute()` is in 0..59 |
| Calendar.Second | tapo/src/requests/get_power_data.rs:38 | `second()` is in 0..59 |
| Calendar.MinuteSecond | tapo/src/requests/get_power_data.rs:37-38 | minutes times sixty plus seconds is the offset into the hour |
| Calendar.DaysInMonth | tapo/src/responses/energy_data_result.rs:91 | every month has 28 to 31 days |
| Calendar.CivilFromDaysFromCivil | tapo/src/requests/get_energy_data.rs:19-20 | the day number of every real calendar date leads back to that date |
| Calendar.DateOfEraDayInverse | tapo/src/requests/get_energy_data.rs:19-20 | the day of the 400-year era of a real date is in range and gives the date back |
| Calendar.YearOfEraInverse | tapo/src/requests/get_energy_data.rs:19-20 | the year of the era is recovered from every day of that year |
| Calendar.AddOneMonth | tapo/src/responses/energy_data_result.rs:91 | `+ Months::new(1)` keeps the time of day |
| Calendar.NextMonthDate | tapo/src/responses/energy_data_result.rs:91 | the following month (January of the next year after December), the same day clamped to that month's length |
| Calendar.AddOneMonthOfDay | tapo/src/responses/energy_data_result.rs:91 | one month after a time on day `z` is the same time of day on the day one month after `z` |
| Calendar.NextMonthDayOfDate | tapo/src/responses/energy_data_result.rs:91 | the day one month after a real date is the date `NextMonthDate` gives |
| Calendar.CivilExampleLeap | tapo/src/requests/get_energy_data.rs:19 | day 19753 is 31 January 2024 |
| Calendar.CivilExampleDecember | tapo/src/requests/get_energy_data.rs:19 | day 19706 is 15 December 2023 |
| Calendar.DaysExampleLeapDay | tapo/src/requests/get_energy_data.rs:19 | 29 February 2024 is day 19782 |
| Calendar.DaysExampleJanuary | tapo/src/requests/get_energy_data.rs:19 | 15 January 2024 is day 19737 |
| Calendar.AddOneMonthExampleClamp | tapo/src/responses/energy_data_result.rs:91 | one month after 31 January 2024 is 29 February 2024 |
| Calendar.AddOneMonthExampleDecember | tapo/src/responses/energy_data_result.rs:91 | one month after 15 December 2023 is 15 January 2024 |
| Calendar.InstantOrder | tapo/src/requests/get_power_data.rs:52 | instants order by seconds, then nanoseconds |
| Calendar.WithMinute | tapo/src/requests/get_power_data.rs:68-70 | `with_minute` sets the minute and keeps the hour, the second and the nanoseconds |
| Calendar.WithSecond | tapo/src/requests/get_power_data.rs:43-44 | `with_second` sets the second and keeps the minute and the nanoseconds |
| Calendar.WithNanosecond | tapo/src/requests/get_power_data.rs:45-46 | `with_nanosecond` sets the nanoseconds and keeps the seconds |
| Calendar.ChronoRangeEnds | tapo/src/responses/energy_data_result.rs:77-80 | the range ends are the day numbers of 1 January -262143 and 31 December 262142; the epoch is inside, the second after the last day and 10^13 seconds are outside |
| Calendar.AddSeconds | tapo/src/requests/get_power_data.rs:52 | adding `k` seconds moves the instant by exactly `k` seconds |
| GetEnergyData.New | tapo/src/requests/get_energy_data.rs:13-40 | intervals 60, 1440 and 43200 minutes; the start is the start day's midnight, the end is the end day's 23:59:59 for hourly data and equals the start otherwise; timestamps cast with `as u64` |
| GetEnergyData.NewStartsAtStartDate | tapo/src/requests/get_energy_data.rs:19-32 | from 1970 on, the start timestamp is a midnight that reads back as the start date |
| GetEnergyData.HourlyEndsAtEndDate | tapo/src/requests/get_energy_data.rs:20 | from 1970 on, the hourly end timestamp is 23:59:59 of the end date |
| TapoDateFormat.Two | src/tapo_date_format.rs:4 | a two-digit field is in 0..99 |
| TapoDateFormat.Year | src/tapo_date_format.rs:4 | the four year digits are in 0..9999 |
| TapoDateFormat.SignLength | src/tapo_date_format.rs:4 | the optional sign of `[year]` is one character exactly when the text starts with `+` or `-` |
| TapoDateFormat.SignedYear | src/tapo_date_format.rs:4 | the year read has at most four digits and is negative only after a `-` |
| TapoDateFormat.Deserialize | src/tapo_date_format.rs:6-21 | succeeds exactly for text of the pattern `YYYY-MM-DD hh:mm:ss`, with an optional `+` or `-` before the year, denoting a real date and time of day of the signed year, then with offset zero; a failure is a serde error |
| TapoDateFormat.Pad2 | src/tapo_date_format.rs:4 | two zero-padded digits that read back as the number |
| TapoDateFormat.Unsigned | src/tapo_date_format.rs:4 | the unsigned part of the pattern, with the absolute year |
| TapoDateFormat.ReadUnsigned | src/tapo_date_format.rs:4 | the unsigned part reads back as the absolute year, month, day, hour, minute and second |
| TapoDateFormat.Serialize | src/tapo_date_format.rs:23-32 | for every year a `time::Date` holds, the pattern's shape, preceded by `-` exactly when the year is negative and by no sign otherwise |
| TapoDateFormat.DeserializeSerialize | src/tapo_date_format.rs:6-32 | reading what was written gives the same date and time, at offset zero, negative years included |
| TapoDateFormat.SerializeDeserialize | src/tapo_date_format.rs:6-32 | writing what was read gives back the same text, except that a `+` and the `-` of a zero year are dropped |
| TapoDateFormat.Example | src/tapo_date_format.rs:4-14 | "2023-05-29 14:52:24" is accepted |
| TapoDateFormat.ExampleLeapDay | src/tapo_date_format.rs:14 | 29 February of a common year is rejected |
| TapoDateFormat.ExampleSeparator | src/tapo_date_format.rs:4-14 | an ISO `T` separator is rejected |
| TapoDateFormat.ExamplePlus | src/tapo_date_format.rs:4-14 | "+2023-05-29 14:52:24" reads as "2023-05-29 14:52:24" does |
| TapoDateFormat.ExampleMinus | src/tapo_date_format.rs:4-14 | "-0001-03-01 00:00:00" is accepted, in the year -1 |
| QuarterStart.QuarterStartMonth | tapo/examples/tapo_p304.rs:150-152 | the result is a quarter's first month, at most two months before the month |
| QuarterStart.MatchIsArithmetic | tapo/examples/tapo_p110.rs:90-97 | the P110 example's guarded match agrees with the P304 example's arithmetic on every month |
| QuarterStart.QuarterStartIsUnique | tapo/examples/tapo_p304.rs:150-152 | the quarter start at or before the month, less than three months before it, is the result and no other |
| QuarterStart.QuarterStartDateIsValid | tapo/examples/tapo_p304.rs:81-86 | day 1 of that month is a real date, so `from_ymd_opt(..).unwrap()` cannot panic |
| GetPowerData.FiveMinuteIntervalStart | tapo/src/requests/get_power_data.rs:36-59 | the result is a whole-second five-minute mark, less than five minutes after the input, and has the input's seconds exactly when the input is on a mark |
| GetPowerData.FiveMinuteMark | tapo/src/requests/get_power_data.rs:38-51 | the offset into the hour modulo 300 is the time's own remainder, a time on a mark has second 0, and the next mark after a time off the grid is a whole mark |
| GetPowerData.IntoHourMod | tapo/src/requests/get_power_data.rs:38-42 | the offset into the hour modulo 300 is the time's own remainder, and a time on a mark has second 0 |
| GetPowerData.NextMarkSecond | tapo/src/requests/get_power_data.rs:51-55 | the next mark after a time off the grid has second 0, so `with_second(0)` leaves it |
| GetPowerData.FiveMinuteIsCeiling | tapo/src/requests/get_power_data.rs:36-59 | off a mark, or on a mark without sub-seconds, the result is the first five-minute mark at or after the input |
| GetPowerData.FiveMinuteOffGrid | tapo/src/requests/get_power_data.rs:50-58 | off the grid the result is the next multiple of five minutes |
| GetPowerData.FiveMinuteTruncatesOnMark | tapo/src/requests/get_power_data.rs:42-47 | on a mark with a sub-second part, only that part is dropped, so the result lies before the input |
| GetPowerData.HourlyIntervalStart | tapo/src/requests/get_power_data.rs:61-77 | the result is a whole hour, at or after the input and less than an hour after it, and equals the input exactly when the input is an exact hour |
| GetPowerData.HourlyOffGrid | tapo/src/requests/get_power_data.rs:67-76 | anywhere but an exact hour the result is the next whole hour |
| GetPowerData.New | tapo/src/requests/get_power_data.rs:13-34 | intervals 5 and 60 minutes, each endpoint rounded by that interval's rounder and cast with `as u64` |
| GetPowerData.NewAligned | tapo/src/requests/get_power_data.rs:13-34 | for times from 1970 on, both timestamps lie on the interval's grid and no earlier than the requested endpoints |
| GetPowerData.NewYear2025 | tapo/src/requests/get_power_data.rs:88 | 1 January 2025 is day 20089 |
| GetPowerData.SecondOfJanuary2025 | tapo/src/requests/get_power_data.rs:111-114 | day 20090 is 2 January 2025 |
| GetPowerData.FiveMinuteExact | tapo/src/requests/get_power_data.rs:88-92 | 15:00:00 is kept |
| GetPowerData.FiveMinuteRoundUp | tapo/src/requests/get_power_data.rs:95-99 | 14:03:45 becomes 14:05:00 |
| GetPowerData.FiveMinuteNextHour | tapo/src/requests/get_power_data.rs:102-106 | 14:57:30 becomes 15:00:00 |
| GetPowerData.FiveMinuteNextDay | tapo/src/requests/get_power_data.rs:109-114 | 23:58:59 becomes midnight of 2 January |
| GetPowerData.HourlyExact | tapo/src/requests/get_power_data.rs:120-124 | 15:00:00 is kept |
| GetPowerData.HourlyRoundUp | tapo/src/requests/get_power_data.rs:127-138 | 14:15:00 and 14:00:30 become 15:00:00 |
| GetPowerData.HourlyNextDay | tapo/src/requests/get_power_data.rs:141-146 | 23:30:59 becomes midnight of 2 January |
| PowerDataResult.IntervalStep | tapo/src/responses/power_data_result.rs:74-81 | only the 5- and 60-minute intervals are known, as that many minutes in seconds; any other is the unsupported-interval error |
| PowerDataResult.TryInto | tapo/src/responses/power_data_result.rs:71-109 | an unknown interval fails first, even with no data; then a start, and then an end, outside chrono's date range fails with "Failed to map start_timestamp to local time" or "Failed to map end_timestamp to local time"; it succeeds exactly when none of these holds, and then entry `i` starts `i` steps after the start and carries reading `i`, and start, end and interval are passed through |
| PowerDataResult.DecodePowerNumber | tapo/src/responses/power_data_result.rs:122-135 | -1 is a missing reading, other non-negative `i64` values are kept, negative ones are rejected with the sentinel message and numbers beyond `i64` with the range message |
| PowerDataResult.DecodePowerValue | tapo/src/responses/power_data_result.rs:119-142 | null and -1 are missing readings, other accepted numbers are kept, and anything else is rejected |
| PowerDataResult.DeserializePowerData | tapo/src/responses/power_data_result.rs:112-145 | succeeds exactly when every item decodes, then keeps order and length; otherwise the first bad item's error |
| PowerDataResult.DecodeExamples | tapo/src/responses/power_data_result.rs:119-142 | null and -1 are gaps, 42 is kept, -2 and a string are rejected |
| TapoRequests.ParseMethod | tapo/src/requests/tapo_request.rs:10-36 | a tag the device accepts is the tag of the method it reads |
| TapoRequests.MethodNameRoundTrip | tapo/src/requests/tapo_request.rs:10-36 | every method's tag (four explicit renames, snake_case otherwise) reads back as that method, so no two methods share a tag |
| TapoRequests.SessionTagsRoundTrip | tapo/src/requests/tapo_request.rs:14-21 | the same for the session and settings requests, including `component_nego` and `securePassthrough` |
| TapoRequests.QueryTagsRoundTrip | tapo/src/requests/tapo_request.rs:22-27 | the same for the device queries |
| TapoRequests.ChildTagsRoundTrip | tapo/src/requests/tapo_request.rs:28-32 | the same for the hub requests, including `multipleRequest` |
| TapoRequests.RecordTagsRoundTrip | tapo/src/requests/tapo_request.rs:33-35 | the same for the child-record requests, including `get_temp_humidity_records` |
| TapoRequests.NewParams | tapo/src/requests/tapo_request.rs:52-58 | the payload with neither the request time nor the terminal UUID |
| TapoRequests.SetRequestTimeMils | tapo/src/requests/tapo_request.rs:60-64 | fails exactly for a clock before the epoch; otherwise sets the time, in milliseconds truncated to `u64`, and keeps payload and UUID |
| TapoRequests.SetTerminalUuid | tapo/src/requests/tapo_request.rs:66-69 | sets the UUID and keeps payload and request time |
| TapoRequests.ParamsMembers | tapo/src/requests/tapo_request.rs:41-49 | `params` first, then at most the two optional fields |
| TapoRequests.RequestJson | tapo/src/requests/tapo_request.rs:10-13 | internally tagged: an object whose first member is the `method` tag |
| TapoRequests.RequestJsonFields | tapo/src/requests/tapo_request.rs:10-49 | the device reads back the tag and the payload |
| TapoRequests.RequestJsonTime | tapo/src/requests/tapo_request.rs:45-46 | `requestTimeMilis` is present exactly when the time was set, with its value |
| TapoRequests.RequestJsonUuid | tapo/src/requests/tapo_request.rs:47-48 | `terminalUUID` is present exactly when the UUID was set, with its value |
| TapoRequests.NewParamsJson | tapo/src/requests/tapo_request.rs:45-58 | a fresh request serialises as the tag and the payload alone |
| TapoRequests.LegacyTagsKept | src/requests/tapo_request.rs:10-23 | every tag of the first crate is sent unchanged by the current crate and reads back as the same variant |
| TapoRequests.LegacyRequestJsonFields | src/requests/tapo_request.rs:25-33 | the first crate writes the request time as `requestTimeMils`, exactly when it was set |
| TapoRequests.LegacyRequestJsonNoCurrentTime | src/requests/tapo_request.rs:25-33 | the first crate never writes `requestTimeMilis` |
| TapoResponses.ValidateResponse | tapo/src/responses/tapo_response.rs:28-41 | success exactly for code 0; an error carries the code it came from, and is `Unknown` exactly for the codes without a name; the payload is never read |
| TapoResponses.ValidateResponseProduces | tapo/src/responses/tapo_response.rs:31-39 | each named error, and `Unknown(c)` for each unnamed code, is produced by its own code |
| TapoResponses.ValidateResponseIgnoresResult | tapo/src/responses/tapo_response.rs:28-41 | the verdict depends on the error code alone |
| TapoResponses.PositiveCodeIsUnknown | tapo/src/responses/tapo_response.rs:34-39 | code 1003 is `Unknown(1003)`, not `MalformedRequest` |
| TapoResponses.ValidateResult | src/responses/tapo_response.rs:14-23 | the first crate's check: success exactly for code 0, otherwise an error whose message starts "expected error code 0, got " |
| TapoResponses.ValidateResultMessageIdentifiesCode | src/responses/tapo_response.rs:16-19 | the message determines the code |
| TapoResponses.ValidateResultUniform | src/responses/tapo_response.rs:15-22 | every non-zero code gives the same kind of error |
| AesCbc.XorBitsTwice | tapo/src/api/protocol/passthrough_cipher.rs:61-62 | xoring with the same bits twice gives the value back |
| AesCbc.XorByteTwice | tapo/src/api/protocol/passthrough_cipher.rs:61-62 | the same for a byte |
| AesCbc.XorBlock | tapo/src/api/protocol/passthrough_cipher.rs:61-62 | xor of two blocks is byte-wise |
| AesCbc.XorBlockTwice | tapo/src/api/protocol/passthrough_cipher.rs:61-62 | the same for a 16-byte block |
| AesCbc.PadLength | tapo/src/api/protocol/klap_cipher.rs:48 | the PKCS#7 pad length is 1 to 16 and completes a block, so a whole block of padding follows an exact multiple of 16 |
| AesCbc.Pad | tapo/src/api/protocol/passthrough_cipher.rs:61-62 | the message, then `p` bytes of value `p`, up to the next multiple of 16 |
| AesCbc.Unpad | tapo/src/api/protocol/passthrough_cipher.rs:72-74 | accepts exactly whole, non-empty blocks whose last `n` bytes are all `n` for `n` in 1..16, and strips those bytes |
| AesCbc.UnpadPad | tapo/src/api/protocol/passthrough_cipher.rs:61-74 | removing the padding gives back the message |
| AesCbc.PadUnpad | tapo/src/api/protocol/passthrough_cipher.rs:72-74 | whatever unpads to a message is exactly that message's padding |
| AesCbc.EncryptBlocks | tapo/src/api/protocol/passthrough_cipher.rs:61-62 | CBC encryption keeps the length |
| AesCbc.DecryptBlocks | tapo/src/api/protocol/passthrough_cipher.rs:72-73 | CBC decryption keeps the length |
| AesCbc.DecryptEncryptBlocks | tapo/src/api/protocol/passthrough_cipher.rs:58-79 | with an invertible block cipher, CBC decryption undoes CBC encryption under the same key and IV |
| AesCbc.EncryptPadded | tapo/src/api/protocol/passthrough_cipher.rs:59-62 | fails exactly when the key or the IV is not 16 bytes; otherwise the output is the padded length |
| AesCbc.DecryptPadded | tapo/src/api/protocol/passthrough_cipher.rs:69-74 | a wrong key or IV length, input that is not whole non-empty blocks, and bad padding after decryption are each reported |
| AesCbc.DecryptEncrypt | tapo/src/api/protocol/passthrough_cipher.rs:58-79 | decrypting what was encrypted under the same 16-byte key and IV gives the message back |
| AesCbc.ShortMessageIsOneBlock | tapo/src/api/protocol/passthrough_cipher.rs:138-141 | a message shorter than a block encrypts to one block |
| PassthroughCrypto.CharBoundary | tapo/src/api/protocol/passthrough_cipher.rs:43 | whether byte offset 5 falls between characters, which `&key[..5]` needs to not panic |
| PassthroughCrypto.AsciiPrefixIsBoundary | tapo/src/api/protocol/passthrough_cipher.rs:43-45 | a key starting with five ASCII characters, as base64 does, can be previewed |
| PassthroughCrypto.SplitKey | tapo/src/api/protocol/passthrough_cipher.rs:48-55 | succeeds exactly for 32 bytes, the key then the IV; otherwise the message naming the length |
| PassthroughCrypto.FromHandshakeKey | tapo/src/api/protocol/passthrough_cipher.rs:45-55 | a base64 failure, an RSA failure and a wrong length are each reported, the first two with stand-in texts (see Left out); otherwise the cipher split from the decrypted bytes |
| PassthroughCrypto.NewCipher | tapo/src/api/protocol/passthrough_cipher.rs:42-56 | `PassthroughCipher::new` is those steps with the "Expected" message; the base64 and RSA failure texts are stand-ins |
| PassthroughCrypto.DecodeHandshakeKey | src/encryption.rs:64-83 | the first crate's `decode_handshake_key` is the same steps with the "expected" message; the base64 and openssl failure texts are stand-ins |
| PassthroughCrypto.CratesAgreeOnKeys | src/encryption.rs:64-83 | the two crates accept the same handshake keys and derive the same cipher from them |
| PassthroughCrypto.KeyAndIvFromHandshake | tapo/src/api/protocol/passthrough_cipher.rs:52-55 | 32 decrypted bytes give the first 16 as the key and the last 16 as the IV |
| PassthroughCrypto.Encrypt | tapo/src/api/protocol/passthrough_cipher.rs:58-66 | base64 text of the padded length that decodes to the AES-CBC encryption of the message's UTF-8 bytes |
| PassthroughCrypto.Decrypt | tapo/src/api/protocol/passthrough_cipher.rs:68-79 | a base64, an unpadding and a UTF-8 failure are each reported as an `Other` error, only the unpadding one with the current crate's own text; otherwise the string the decrypted bytes spell |
| PassthroughCrypto.DecryptEncrypt | tapo/src/api/protocol/passthrough_cipher.rs:136-144 | decryption undoes encryption under the same session cipher |
| PassthroughCrypto.HelloIsTwentyFourCharacters | tapo/src/api/protocol/passthrough_cipher.rs:138-141 | the five-byte test message encrypts to 24 characters of base64 |
| PassthroughCrypto.Sha1DigestUsername | tapo/src/api/protocol/passthrough_cipher.rs:83-89 | 40 lowercase hexadecimal digits that read back as the SHA-1 of the username's bytes |
| KlapCrypto.LabelsSpellNames | tapo/src/api/protocol/klap_cipher.rs:88-104 | the derivation labels are the bytes of "lsk", "iv" and "ldk" |
| KlapCrypto.KeyDerive | tapo/src/api/protocol/klap_cipher.rs:87-92 | the key is 16 bytes |
| KlapCrypto.IvDerive | tapo/src/api/protocol/klap_cipher.rs:94-97 | the IV prefix is 12 bytes |
| KlapCrypto.SigDerive | tapo/src/api/protocol/klap_cipher.rs:103-108 | the signature key is 28 bytes |
| KlapCrypto.NextSeq | tapo/src/api/protocol/klap_cipher.rs:37 | `fetch_add(1) + 1`: one more, wrapping from `i32::MAX` to `i32::MIN` |
| KlapCrypto.IvSeq | tapo/src/api/protocol/klap_cipher.rs:110-114 | 16 bytes: the IV prefix, then the sequence number big-endian, which reads back |
| KlapCrypto.IvSeqInjective | tapo/src/api/protocol/klap_cipher.rs:110-114 | distinct sequence numbers give distinct IVs |
| KlapCrypto.ConsecutiveIvsDiffer | tapo/src/api/protocol/klap_cipher.rs:37-38 | two consecutive requests never share an IV, the wrap-around included |
| KlapCrypto.KlapCipher.constructor | tapo/src/api/protocol/klap_cipher.rs:19-34 | key, IV prefix, signature key and starting sequence number all derived from the concatenated seeds and user hash |
| KlapCrypto.KlapCipher.Ciphertext | tapo/src/api/protocol/klap_cipher.rs:41-54 | the padded AES-CBC ciphertext has the padded length |
| KlapCrypto.KlapCipher.Frame | tapo/src/api/protocol/klap_cipher.rs:56-59 | 32 bytes of SHA-256 over the signature key, the sequence number and the ciphertext, then the ciphertext |
| KlapCrypto.KlapCipher.Encrypt | tapo/src/api/protocol/klap_cipher.rs:36-61 | the counter advances by one and its new value both frames the request and is returned |
| KlapCrypto.KlapCipher.Decrypt | tapo/src/api/protocol/klap_cipher.rs:63-81 | succeeds exactly when the bytes after the signature decrypt under that sequence number's IV to well-formed UTF-8, which is the result; an unpadding failure gives "Decryption error: UnpadError", and a UTF-8 failure an `Other` error with a stand-in text |
| KlapCrypto.DecryptFrame | tapo/src/api/protocol/klap_cipher.rs:36-81 | a response framed like the request under the same number decrypts to the text sent |
| KlapCrypto.DecryptIgnoresSignature | tapo/src/api/protocol/klap_cipher.rs:70 | the signature is never checked |
| SecurePassthrough.TokenUrl | tapo/src/api/protocol/passthrough_protocol.rs:64-75 | with a token the request goes to `url?token=<token>` and fails while there is no token; without, to the session URL |
| SecurePassthrough.TokenUrlCarriesToken | tapo/src/api/protocol/passthrough_protocol.rs:65-72 | the session URL and the token can both be read back from the token URL |
| SecurePassthrough.HandshakeRequest | tapo/src/api/protocol/passthrough_protocol.rs:147-148 | the handshake's `params` carry the public key as `key` |
| SecurePassthrough.PassthroughRequest | tapo/src/api/protocol/passthrough_protocol.rs:82-84 | a `securePassthrough` request whose `params` carry the encrypted inner request as `request` |
| SecurePassthrough.DeviceReadsRequest | tapo/src/api/protocol/passthrough_protocol.rs:77-85 | the device decrypting the `request` member reads the serialised inner request |
| SecurePassthrough.SessionKey | tapo/src/api/protocol/passthrough_protocol.rs:168 | both crates derive the session cipher from the handshake key alike |
| SecurePassthrough.HandshakeSession | tapo/src/api/protocol/passthrough_protocol.rs:156-175 | a transport error, an error code, a missing key and a key that yields no cipher each fail; otherwise a session at the URL with that cipher and no token |
| SecurePassthrough.Exchange | tapo/src/api/protocol/passthrough_protocol.rs:55-117 | a missing token, a transport error, an outer error code, a missing result, a decryption failure, a parse failure and an inner error code each fail the round in that order; otherwise the inner result |
| SecurePassthrough.ExchangeWithDevice | tapo/src/api/protocol/passthrough_protocol.rs:92-116 | a device answering code 0 with the encryption of an inner response with code 0 delivers that response's result |
| SecurePassthrough.InnerErrorReported | tapo/src/api/protocol/passthrough_protocol.rs:108-112 | an inner error code fails the round with that code's error |
| SecurePassthrough.LoginRequest | tapo/src/api/protocol/passthrough_protocol.rs:183-185 | a `login_device` request carrying the timed login parameters |
| SecurePassthrough.LoginToken | tapo/src/api/protocol/passthrough_protocol.rs:180-196 | a clock before the epoch fails; otherwise the exchange without a token, which must return a token |
| SecurePassthrough.CredentialsDecode | tapo/src/api/protocol/passthrough_protocol.rs:130-136 | the device reads back the password, and the hexadecimal SHA-1 of the username, from the stored credentials |
| SecurePassthrough.EncodingPasswordTwiceDiffers | tapo/src/api/protocol/passthrough_protocol.rs:136 | encoding a non-empty password once more changes it |
| PassthroughProtocols.PassthroughProtocol.constructor | tapo/src/api/protocol/passthrough_protocol.rs:129-140 | the username stored as base64 of its hexadecimal SHA-1, the password as base64, no session |
| PassthroughProtocols.PassthroughProtocol.Handshake | tapo/src/api/protocol/passthrough_protocol.rs:142-178 | succeeds exactly when the reply yields a session, which then replaces the old one; on failure the old session stays |
| PassthroughProtocols.PassthroughProtocol.LoginRequest | tapo/src/api/protocol/passthrough_protocol.rs:180-196 | the returned token is stored in the session; any failure leaves the session as it was |
| PassthroughProtocols.PassthroughProtocol.Login | tapo/src/api/protocol/passthrough_protocol.rs:43-48 | after a successful login the session is the handshake's with the returned token; a failed login request keeps the new session without a token |
| PassthroughProtocols.PassthroughProtocol.RefreshSession | tapo/src/api/protocol/passthrough_protocol.rs:50-53 | exactly `login` at the session's URL: the same handshake, clock and token failures, and on success the session has that URL and a token |
| PassthroughProtocols.PassthroughProtocol.ExecuteRequest | tapo/src/api/protocol/passthrough_protocol.rs:55-117 | one exchange over the current session; a token request without a token fails |
| PassthroughProtocols.PassthroughProtocol.CloneAsDiscoveryAsWritten | tapo/src/api/protocol/passthrough_protocol.rs:119-125 | as written: the discovery protocol receives the stored, already encoded credentials |
| PassthroughProtocols.PassthroughProtocol.CloneAsDiscovery | tapo/src/api/protocol/passthrough_protocol.rs:119-125 | as intended: the discovery protocol receives the credentials the protocol was created with |
| PassthroughProtocols.New | tapo/src/api/protocol/passthrough_protocol.rs:129-140 | a key-pair failure fails `new`; otherwise a fresh protocol with encoded credentials and no session |
| PassthroughProtocols.CloneAsDiscoveryAsWrittenReencodes | tapo/src/api/protocol/passthrough_protocol.rs:119-140 | rediscovery from the as-written clone encodes a non-empty password a second time |
| PassthroughProtocols.CloneAsDiscoveryKeepsLogin | tapo/src/api/protocol/klap_protocol.rs:94-100 | rediscovery from the intended clone logs in with exactly the original credentials |
| LegacyApiClients.ApiClient.constructor | src/api/api_client.rs:80-93 | the raw credentials, the key pair and no session |
| LegacyApiClients.ApiClient.GetSession | src/api/api_client.rs:456-460 | the session, or the "session shouldn't be None" error while there is none |
| LegacyApiClients.ApiClient.Handshake | src/api/api_client.rs:600-638 | succeeds exactly when the reply yields a session, which replaces the old one and has no token; on failure the old session stays |
| LegacyApiClients.ApiClient.ExecuteSecurePassthroughRequest | src/api/api_client.rs:658-721 | fails without a session, fails a token request without a token, and succeeds only with a session |
| LegacyApiClients.ApiClient.LoginRequest | src/api/api_client.rs:640-656 | encodes the credentials afresh and stores the returned token; without a session, or on any failure, the session is unchanged |
| LegacyApiClients.ApiClient.Login | src/api/api_client.rs:468-473 | after a successful login the session is the handshake's with the returned token |
| LegacyApiClients.ApiClient.Clone | src/api/api_client.rs:742-754 | the same credentials and key pair, no session |
| LegacyApiClients.ApiClient.ControlChild | src/api/api_client.rs:563-598 | fails without a session; succeeds only with a session that has a token |
| LegacyApiClients.New | src/api/api_client.rs:80-93 | a key-pair failure fails `new`; otherwise a fresh client with the given credentials and no session |
| LegacyApiClients.CloneCannotRequest | src/api/api_client.rs:742-754 | every request on a clone fails for want of a session |
| ApiClients.BuildUrl | tapo/src/api/api_client.rs:607-612 | `http://`, the address, then `/app` |
| ApiClients.HostOf | tapo/src/api/api_client.rs:607-612 | an address read from a URL builds that URL |
| ApiClients.BuildUrlHost | tapo/src/api/api_client.rs:607-612 | the address can be read back from its URL, so distinct addresses give distinct URLs |
| ApiClients.TimedRequest | tapo/src/api/api_client.rs:593-597 | fails exactly for a clock before the epoch; otherwise the method, the payload, the time and the terminal UUID |
| ApiClients.SetDeviceInfoCall | tapo/src/api/api_client.rs:590-604 | fails for a clock before the epoch; otherwise succeeds exactly when the timed `set_device_info` request does |
| ApiClients.SetLightingEffectCall | tapo/src/api/api_client.rs:470-487 | the same for `set_lighting_effect` |
| ApiClients.RequireResult | tapo/src/api/api_client.rs:464-467 | succeeds exactly when the request succeeded with a result, which it returns; a missing result is `EmptyResult` |
| ApiClients.ControlChildRequest | tapo/src/api/api_client.rs:559-564 | a `control_child` request without time or UUID |
| ApiClients.ChildOfControlChild | tapo/src/api/api_client.rs:559-564 | the device reads back the device id and the one child request, unchanged |
| ApiClients.UnwrapControlChild | tapo/src/api/api_client.rs:566-585 | succeeds exactly when the outer result is present and its first inner response has code 0 and a result, which is returned; otherwise the first failing step's error |
| ApiClients.UnwrapUsesFirstResponse | tapo/src/api/api_client.rs:575-580 | only the first inner response matters, and its error code fails the call |
| ApiClients.ControlChildCall | tapo/src/api/api_client.rs:551-585 | succeeds only when the envelope's execution does |
| ApiClients.ControlChildDelivers | tapo/src/api/api_client.rs:566-584 | a hub answering with one successful response delivers its result |
| DiscoveryProtocols.TestPassthrough | tapo/src/api/protocol/discovery_protocol.rs:57-78 | a transport error is passed on; otherwise the reply's error code is validated |
| DiscoveryProtocols.IsPassthroughSupported | tapo/src/api/protocol/discovery_protocol.rs:46-55 | passthrough is unsupported exactly when the probe fails with `Unknown(1003)` |
| DiscoveryProtocols.ProbeDecision | tapo/src/api/protocol/discovery_protocol.rs:46-78 | a device is taken for a KLAP device exactly when it answers the probe with code 1003; a transport failure, another code or success all count as passthrough |
| TapoProtocols.Discover | tapo/src/api/protocol/discovery_protocol.rs:27-44 | a passthrough protocol (failing when the key pair cannot be made) when the probe says so, a KLAP protocol otherwise, both with the credentials as given |
| TapoProtocols.TapoProtocol.constructor | tapo/src/api/protocol/tapo_protocol.rs:100-107 | the discovery state with the credentials as given |
| TapoProtocols.TapoProtocol.CloneAsDiscovery | tapo/src/api/protocol/tapo_protocol.rs:91-97 | the current state's `clone_as_discovery`: after passthrough the stored encoded username and password, otherwise the credentials as given |
| TapoProtocols.TapoProtocol.Clone | tapo/src/api/protocol/tapo_protocol.rs:42-50 | whatever the state, a fresh protocol in the discovery state with the current state's clone credentials: encoded after passthrough, unchanged otherwise |
| TapoProtocols.TapoProtocol.CloneAsIntended | tapo/src/api/protocol/tapo_protocol.rs:42-50 | corrected clone: a fresh protocol in the discovery state with the credentials as given, whatever the state |
| TapoProtocols.TapoProtocol.DiscoverIfNeeded | tapo/src/api/protocol/tapo_protocol.rs:55-57 | in the discovery state the state becomes the discovered protocol, or stays on a failure; any other state is kept; the credentials never change |
| TapoProtocols.TapoProtocol.Login | tapo/src/api/protocol/tapo_protocol.rs:54-64 | discovery if it has not happened, then the current protocol's login; a failed login keeps the discovered protocol, and the credentials never change |
| TapoProtocols.TapoProtocol.LoginCurrent | tapo/src/api/protocol/tapo_protocol.rs:59-63 | the login of the settled protocol, succeeding exactly when that protocol's login succeeds; the discovery state is an error |
| TapoProtocols.TapoProtocol.RefreshSession | tapo/src/api/protocol/tapo_protocol.rs:66-72 | an error before discovery; otherwise the current protocol logs in again at its URL, succeeding exactly when that login does |
| TapoProtocols.TapoProtocol.ExecuteRequest | tapo/src/api/protocol/tapo_protocol.rs:74-89 | an error before discovery; otherwise one round of the current protocol |
| TapoProtocols.CloneCredentials | tapo/src/api/protocol/tapo_protocol.rs:91-97 | a clone carries the given credentials after KLAP or before discovery, and their encodings after passthrough |
| TapoProtocols.ClonedPassthroughPasswordDiffers | tapo/src/api/protocol/tapo_protocol.rs:42-50 | as written: rediscovering from a passthrough clone sends a non-empty password encoded twice, not the password the first login sent |
| TapoProtocols.LoginThenClone | tapo/src/api/protocol/tapo_protocol.rs:42-64 | after any login, a clone is in the discovery state with the original credentials, except after a passthrough discovery, where it carries their encodings |
| TapoProtocols.LoginThenCloneAsIntended | tapo/src/api/protocol/tapo_protocol.rs:42-64 | corrected clone: after any login, however it ends, the clone carries the original credentials |
| KlapProtocols.RequestStatusError | tapo/src/api/protocol/klap_protocol.rs:67-78 | 401 and 403 mean the session has expired, any other failure status is an invalid response |
| KlapProtocols.AuthHash | tapo/src/api/protocol/klap_protocol.rs:119-126 | the authentication hash is 32 bytes |
| KlapProtocols.AuthHashInput | tapo/src/api/protocol/klap_protocol.rs:119-126 | it is SHA-256 of 40 bytes: the username's SHA-1, then the password's |
| KlapProtocols.RequestUrlCarriesSeq | tapo/src/api/protocol/klap_protocol.rs:60 | two request URLs on the same base are equal exactly for the same sequence number |
| KlapProtocols.Handshake2Payload | tapo/src/api/protocol/klap_protocol.rs:188 | the client's proof is 32 bytes |
| KlapProtocols.Handshake2SwapsSeeds | tapo/src/api/protocol/klap_protocol.rs:166-188 | the client's proof is the device's proof with the two seeds swapped |
| KlapProtocols.Handshake1Check | tapo/src/api/protocol/klap_protocol.rs:158-175 | a failure status is an invalid response and a device hash unlike the local one is invalid credentials; otherwise the first 16 bytes are the remote seed |
| KlapProtocols.Handshake1Accepts | tapo/src/api/protocol/klap_protocol.rs:165-175 | a device that knows the same auth hash passes round 1 with its remote seed |
| KlapProtocols.Handshake2Check | tapo/src/api/protocol/klap_protocol.rs:197-204 | only the status of round 2 matters |
| KlapProtocols.HandshakeSpec | tapo/src/api/protocol/klap_protocol.rs:116-140 | a settled remote seed is 16 bytes |
| KlapProtocols.GenuineDeviceHandshake | tapo/src/api/protocol/klap_protocol.rs:142-205 | a device answering both rounds with success and the right proof completes the handshake with its remote seed, and its round-1 cookie is sent in round 2 |
| KlapProtocols.HandshakeNeedsProof | tapo/src/api/protocol/klap_protocol.rs:129-132 | no remote seed is settled unless the device's round-1 proof matched and round 2 succeeded |
| KlapProtocols.ResponseOutcome | tapo/src/api/protocol/klap_protocol.rs:65-91 | a transport error, a failure status, a decryption failure, a parse failure and an error code each fail in that order; otherwise the result |
| KlapProtocols.GenuineDeviceAnswer | tapo/src/api/protocol/klap_protocol.rs:80-91 | a success framed under the request's own sequence number, with code 0, delivers its result |
| KlapProtocols.KlapProtocol.constructor | tapo/src/api/protocol/klap_protocol.rs:104-114 | the credentials as given, an empty cookie jar, neither URL nor cipher |
| KlapProtocols.KlapProtocol.Handshake | tapo/src/api/protocol/klap_protocol.rs:116-140 | the jar is cleared and the two rounds run; only when both succeed are the URL and a cipher derived from both seeds and the auth hash stored, otherwise they stay |
| KlapProtocols.KlapProtocol.Login | tapo/src/api/protocol/klap_protocol.rs:33-36 | a login is one handshake, succeeding exactly when it does; on success the URL is kept and the new cipher's key, IV, signature key and sequence number are derived from the two seeds and the credentials' hash |
| KlapProtocols.KlapProtocol.RefreshSession | tapo/src/api/protocol/klap_protocol.rs:38-42 | a handshake at the last URL, which stays; on success a new cipher derived from the new seeds and the credentials' hash |
| KlapProtocols.KlapProtocol.ExecuteRequest | tapo/src/api/protocol/klap_protocol.rs:44-92 | the request is framed under the next sequence number and posted to the URL carrying it, the counter advances by one, and the reply is decoded under that number |
| KlapProtocols.KlapProtocol.CloneAsDiscovery | tapo/src/api/protocol/klap_protocol.rs:94-100 | the discovery protocol gets the credentials as given |
| DiscoveryQuery.KeyPayload | tapo/src/api/discovery/aes_discovery_query_generator.rs:41-45 | the key payload holds the public key's PEM text under `params.rsa_key` |
| DiscoveryQuery.Header | tapo/src/api/discovery/aes_discovery_query_generator.rs:49-66 | the 16-byte header: version 2, message type 0, op code 1, the payload length truncated to `u16`, flags 17, a zero padding byte, the serial, then the CRC slot |
| DiscoveryQuery.Unpatched | tapo/src/api/discovery/aes_discovery_query_generator.rs:56-69 | before patching, the query is the header with the initial CRC value `0x5A6B7C8D` followed by the payload |
| DiscoveryQuery.Query | tapo/src/api/discovery/aes_discovery_query_generator.rs:68-74 | the finished query is the unpatched one everywhere except bytes 12..16 |
| DiscoveryQuery.PatchCrc | tapo/src/api/discovery/aes_discovery_query_generator.rs:74 | the in-place copy changes bytes 12..16 of the array to the checksum and nothing else |
| DiscoveryQuery.Generate | tapo/src/api/discovery/aes_discovery_query_generator.rs:37-77 | the query array built step by step equals the specified query for the PEM's payload and the random serial |
| DiscoveryQuery.QueryLayout | tapo/src/api/discovery/aes_discovery_query_generator.rs:49-74 | every field of the query, and the CRC slot holds CRC-32 of the query as it was with the initial value in that slot |
| DiscoveryQuery.LengthIsTruncated | tapo/src/api/discovery/aes_discovery_query_generator.rs:52 | a payload of 65541 bytes is announced as length 5 (the `as u16` cast wraps) |
| DiscoveryResults.CategoryOf | tapo/src/api/discovery/discovery_result.rs:139-190 | any model classified as a named category is one the table lists for it |
| DiscoveryResults.CategoryOfIsTable | tapo/src/api/discovery/discovery_result.rs:139-190 | each listed model string gets its category, and a model no category lists is a generic device |
| DiscoveryResults.NewDiscoveryResult | tapo/src/api/discovery/discovery_result.rs:125-193 | the error of fetching the info is passed on; a non-object, a missing `model` and a non-string `model` each fail with their own error; otherwise the result is the model's category carrying the decoded info, or the decoding error |
| DiscoveryResults.CategoryFromModelOnly | tapo/src/api/discovery/discovery_result.rs:130-190 | the result depends on the info only through its `model` string and the decoding of the info |
| DiscoveryResults.ConvertKeepsVariant | tapo-py/src/api/discovery/discovery_result.rs:97-170 | conversion to Python keeps the variant and the device info, and it is a bijection |
| DiscoveryResults.MaybeDiscoveryResult.FromResult | tapo-py/src/api/discovery/discovery_result.rs:82-95 | a success fills in only the converted result, and an error only the exception |
| DiscoveryResults.MaybeDiscoveryResult.Get | tapo-py/src/api/discovery/discovery_result.rs:69-79 | `get` takes the result if present, else takes and raises the exception, else raises the `ValueError` that says `get` works once; what it takes is gone afterwards |
| DiscoveryResults.GetTwice | tapo-py/src/api/discovery/discovery_result.rs:69-95 | on a converted outcome the first `get` yields the result or raises the error, and the second always raises the `ValueError` |
| SegmentEffects.New | tapo/src/requests/set_device_info/segment_effect.rs:59-83 | `new` stores every argument, sets no segments and no states, and sets the device type, as "strip", exactly for a custom effect |
| SegmentEffects.Preset | tapo/src/requests/set_device_info/segment_effect.rs:85-98 | the preset base: brightness 100, not custom, enabled, no device type, type, segments or states, and no display colours |
| SegmentEffects.WithBrightness | tapo/src/requests/set_device_info/segment_effect.rs:100-103 | sets the brightness and leaves every other field as it was |
| SegmentEffects.WithIsCustom | tapo/src/requests/set_device_info/segment_effect.rs:105-108 | sets the custom flag and leaves every other field as it was |
| SegmentEffects.WithDisplayColors | tapo/src/requests/set_device_info/segment_effect.rs:110-113 | sets the display colours and leaves every other field as it was |
| SegmentEffects.WithEnabled | tapo/src/requests/set_device_info/segment_effect.rs:115-118 | sets the enabled flag and leaves every other field as it was |
| SegmentEffects.WithId | tapo/src/requests/set_device_info/segment_effect.rs:120-123 | sets the id and leaves every other field as it was |
| SegmentEffects.WithName | tapo/src/requests/set_device_info/segment_effect.rs:125-128 | sets the name and leaves every other field as it was |
| SegmentEffects.WithType | tapo/src/requests/set_device_info/segment_effect.rs:130-133 | sets the effect type and leaves every other field as it was |
| SegmentEffects.WithDeviceType | tapo/src/requests/set_device_info/segment_effect.rs:135-138 | sets the device type and leaves every other field as it was |
| SegmentEffects.WithSegments | tapo/src/requests/set_device_info/segment_effect.rs:140-143 | sets the segments and leaves every other field as it was |
| SegmentEffects.WithStates | tapo/src/requests/set_device_info/segment_effect.rs:145-148 | sets the states and leaves every other field as it was |
| SegmentEffects.Validate | tapo/src/requests/set_device_info/segment_effect.rs:150-177 | a non-custom effect always passes; a custom one passes exactly when it has non-empty segments, non-empty states and a type, and otherwise fails on the first missing field in that order, naming it |
| SegmentEffects.CustomNewNeedsSegmentsAndStates | tapo/src/requests/set_device_info/segment_effect.rs:59-83 | a custom effect from `new` fails on its segments, still fails with segments alone, and passes once the segments and the states are both non-empty |
| SegmentEffects.StripId | tapo/src/requests/set_device_info/segment_effect.rs:305-750 | a preset id is `TapoStrip_` followed by its own suffix |
| SegmentEffects.BirthdayEffect | tapo/src/requests/set_device_info/segment_effect.rs:305-315 | the `birthday` preset has the preset defaults, a `TapoStrip_` id, brightness 50 and non-empty display colours whose fourth components are 0 |
| SegmentEffects.BlueEffect | tapo/src/requests/set_device_info/segment_effect.rs:316-321 | the `blue` preset has the preset defaults, a `TapoStrip_` id, brightness 50 and non-empty display colours whose fourth components are 0 |
| SegmentEffects.BonfireEffect | tapo/src/requests/set_device_info/segment_effect.rs:322-327 | the `bonfire` preset has the preset defaults, a `TapoStrip_` id, brightness 50 and non-empty display colours whose fourth components are 0 |
| SegmentEffects.CandlelightEffect | tapo/src/requests/set_device_info/segment_effect.rs:328-333 | the `candlelight` preset has the preset defaults, a `TapoStrip_` id, brightness 50 and non-empty display colours whose fourth components are 0 |
| SegmentEffects.CarnivalEffect | tapo/src/requests/set_device_info/segment_effect.rs:334-339 | the `carnival` preset has the preset defaults, a `TapoStrip_` id, brightness 50 and non-empty display colours whose fourth components are 0 |
| SegmentEffects.CyanEffect | tapo/src/requests/set_device_info/segment_effect.rs:340-345 | the `cyan` preset has the preset defaults, a `TapoStrip_` id, brightness 50 and non-empty display colours whose fourth components are 0 |
| SegmentEffects.DancingEffect | tapo/src/requests/set_device_info/segment_effect.rs:346-356 | the `dancing` preset has the preset defaults, a `TapoStrip_` id, brightness 50 and non-empty display colours whose fourth components are 0 |
| SegmentEffects.DatingEffect | tapo/src/requests/set_device_info/segment_effect.rs:357-362 | the `dating` preset has the preset defaults, a `TapoStrip_` id, brightness 50 and non-empty display colours whose fourth components are 0 |
| SegmentEffects.DiscoEffect | tapo/src/requests/set_device_info/segment_effect.rs:363-373 | the `disco` preset has the preset defaults, a `TapoStrip_` id, brightness 50 and non-empty display colours whose fourth components are 0 |
| SegmentEffects.DreamlandEffect | tapo/src/requests/set_device_info/segment_effect.rs:374-384 | the `dreamland` preset has the preset defaults, a `TapoStrip_` id, brightness 50 and non-empty display colours whose fourth components are 0 |
| SegmentEffects.ElectroDanceEffect | tapo/src/requests/set_device_info/segment_effect.rs:385-395 | the `electro_dance` preset has the preset defaults, a `TapoStrip_` id, brightness 50 and non-empty display colours whose fourth components are 0 |
| SegmentEffects.EnergeticEffect | tapo/src/requests/set_device_info/segment_effect.rs:396-401 | the `energetic` preset has the preset defaults, a `TapoStrip_` id, brightness 50 and non-empty display colours whose fourth components are 0 |
| SegmentEffects.ExcitedEffect | tapo/src/requests/set_device_info/segment_effect.rs:402-412 | the `excited` preset has the preset defaults, a `TapoStrip_` id, brightness 50 and non-empty display colours whose fourth components are 0 |
| SegmentEffects.FallEffect | tapo/src/requests/set_device_info/segment_effect.rs:413-423 | the `fall` preset has the preset defaults, a `TapoStrip_` id, brightness 50 and non-empty display colours whose fourth components are 0 |
| SegmentEffects.FamilyEffect | tapo/src/requests/set_device_info/segment_effect.rs:424-434 | the `family` preset has the preset defaults, a `TapoStrip_` id, brightness 50 and non-empty display colours whose fourth components are 0 |
| SegmentEffects.FireworksEffect | tapo/src/requests/set_device_info/segment_effect.rs:435-445 | the `fireworks` preset has the preset defaults, a `TapoStrip_` id, brightness 50 and non-empty display colours whose fourth components are 0 |
| SegmentEffects.FlowerFieldEffect | tapo/src/requests/set_device_info/segment_effect.rs:446-456 | the `flower_field` preset has the preset defaults, a `TapoStrip_` id, brightness 50 and non-empty display colours whose fourth components are 0 |
| SegmentEffects.ForestEffect | tapo/src/requests/set_device_info/segment_effect.rs:457-467 | the `forest` preset has the preset defaults, a `TapoStrip_` id, brightness 50 and non-empty display colours whose fourth components are 0 |
| SegmentEffects.GameEffect | tapo/src/requests/set_device_info/segment_effect.rs:468-478 | the `game` preset has the preset defaults, a `TapoStrip_` id, brightness 50 and non-empty display colours whose fourth components are 0 |
| SegmentEffects.GreenEffect | tapo/src/requests/set_device_info/segment_effect.rs:479-484 | the `green` preset has the preset defaults, a `TapoStrip_` id, brightness 50 and non-empty display colours whose fourth components are 0 |
| SegmentEffects.HalloweenEffect | tapo/src/requests/set_device_info/segment_effect.rs:485-490 | the `halloween` preset has the preset defaults, a `TapoStrip_` id, brightness 50 and non-empty display colours whose fourth components are 0 |
| SegmentEffects.HappyEffect | tapo/src/requests/set_device_info/segment_effect.rs:491-500 | the `happy` preset has the preset defaults, a `TapoStrip_` id, brightness 50 and non-empty display colours whose fourth components are 0 |
| SegmentEffects.JazzEffect | tapo/src/requests/set_device_info/segment_effect.rs:501-511 | the `jazz` preset has the preset defaults, a `TapoStrip_` id, brightness 50 and non-empty display colours whose fourth components are 0 |
| SegmentEffects.LakeEffect | tapo/src/requests/set_device_info/segment_effect.rs:512-521 | the `lake` preset has the preset defaults, a `TapoStrip_` id, brightness 50 and non-empty display colours whose fourth components are 0 |
| SegmentEffects.LightGreenEffect | tapo/src/requests/set_device_info/segment_effect.rs:522-527 | the `light_green` preset has the preset defaults, a `TapoStrip_` id, brightness 50 and non-empty display colours whose fourth components are 0 |
| SegmentEffects.LyricEffect | tapo/src/requests/set_device_info/segment_effect.rs:528-538 | the `lyric` preset has the preset defaults, a `TapoStrip_` id, brightness 50 and non-empty display colours whose fourth components are 0 |
| SegmentEffects.MoonlightEffect | tapo/src/requests/set_device_info/segment_effect.rs:539-544 | the `moonlight` preset has the preset defaults, a `TapoStrip_` id, brightness 25 and non-empty display colours whose fourth components are 0 |
| SegmentEffects.MorningEffect | tapo/src/requests/set_device_info/segment_effect.rs:545-554 | the `morning` preset has the preset defaults, a `TapoStrip_` id, brightness 50 and non-empty display colours whose fourth components are 0 |
| SegmentEffects.MovieEffect | tapo/src/requests/set_device_info/segment_effect.rs:555-560 | the `movie` preset has the preset defaults, a `TapoStrip_` id, brightness 50 and non-empty display colours whose fourth components are 0 |
| SegmentEffects.NewYearEffect | tapo/src/requests/set_device_info/segment_effect.rs:561-571 | the `new_year` preset has the preset defaults, a `TapoStrip_` id, brightness 50 and non-empty display colours whose fourth components are 0 |
| SegmentEffects.NightEffect | tapo/src/requests/set_device_info/segment_effect.rs:572-577 | the `night` preset has the preset defaults, a `TapoStrip_` id, brightness 50 and non-empty display colours whose fourth components are 0 |
| SegmentEffects.OrangeEffect | tapo/src/requests/set_device_info/segment_effect.rs:578-583 | the `orange` preset has the preset defaults, a `TapoStrip_` id, brightness 50 and non-empty display colours whose fourth components are 0 |
| SegmentEffects.PinkEffect | tapo/src/requests/set_device_info/segment_effect.rs:584-589 | the `pink` preset has the preset defaults, a `TapoStrip_` id, brightness 50 and non-empty display colours whose fourth components are 0 |
| SegmentEffects.PurpleEffect | tapo/src/requests/set_device_info/segment_effect.rs:590-595 | the `purple` preset has the preset defaults, a `TapoStrip_` id, brightness 50 and non-empty display colours whose fourth components are 0 |
| SegmentEffects.QuietEffect | tapo/src/requests/set_device_info/segment_effect.rs:596-601 | the `quiet` preset has the preset defaults, a `TapoStrip_` id, brightness 50 and non-empty display colours whose fourth components are 0 |
| SegmentEffects.RedEffect | tapo/src/requests/set_device_info/segment_effect.rs:602-607 | the `red` preset has the preset defaults, a `TapoStrip_` id, brightness 50 and non-empty display colours whose fourth components are 0 |
| SegmentEffects.RelaxedEffect | tapo/src/requests/set_device_info/segment_effect.rs:608-613 | the `relaxed` preset has the preset defaults, a `TapoStrip_` id, brightness 50 and non-empty display colours whose fourth components are 0 |
| SegmentEffects.RockEffect | tapo/src/requests/set_device_info/segment_effect.rs:614-619 | the `rock` preset has the preset defaults, a `TapoStrip_` id, brightness 50 and non-empty display colours whose fourth components are 0 |
| SegmentEffects.SirenEffect | tapo/src/requests/set_device_info/segment_effect.rs:620-625 | the `siren` preset has the preset defaults, a `TapoStrip_` id, brightness 50 and non-empty display colours whose fourth components are 0 |
| SegmentEffects.SleepEffect | tapo/src/requests/set_device_info/segment_effect.rs:626-631 | the `sleep` preset has the preset defaults, a `TapoStrip_` id, brightness 50 and non-empty display colours whose fourth components are 0 |
| SegmentEffects.SnowEffect | tapo/src/requests/set_device_info/segment_effect.rs:632-642 | the `snow` preset has the preset defaults, a `TapoStrip_` id, brightness 50 and non-empty display colours whose fourth components are 0 |
| SegmentEffects.StarEffect | tapo/src/requests/set_device_info/segment_effect.rs:643-653 | the `star` preset has the preset defaults, a `TapoStrip_` id, brightness 50 and non-empty display colours whose fourth components are 0 |
| SegmentEffects.StudyEffect | tapo/src/requests/set_device_info/segment_effect.rs:654-659 | the `study` preset has the preset defaults, a `TapoStrip_` id, brightness 50 and non-empty display colours whose fourth components are 0 |
| SegmentEffects.SummerEffect | tapo/src/requests/set_device_info/segment_effect.rs:660-670 | the `summer` preset has the preset defaults, a `TapoStrip_` id, brightness 50 and non-empty display colours whose fourth components are 0 |
| SegmentEffects.SunnyEffect | tapo/src/requests/set_device_info/segment_effect.rs:671-676 | the `sunny` preset has the preset defaults, a `TapoStrip_` id, brightness 50 and non-empty display colours whose fourth components are 0 |
| SegmentEffects.SweetEffect | tapo/src/requests/set_device_info/segment_effect.rs:677-682 | the `sweet` preset has the preset defaults, a `TapoStrip_` id, brightness 50 and non-empty display colours whose fourth components are 0 |
| SegmentEffects.TenseEffect | tapo/src/requests/set_device_info/segment_effect.rs:683-688 | the `tense` preset has the preset defaults, a `TapoStrip_` id, brightness 50 and non-empty display colours whose fourth components are 0 |
| SegmentEffects.ThinkingEffect | tapo/src/requests/set_device_info/segment_effect.rs:689-698 | the `thinking` preset has the preset defaults, a `TapoStrip_` id, brightness 50 and non-empty display colours whose fourth components are 0 |
| SegmentEffects.UniverseEffect | tapo/src/requests/set_device_info/segment_effect.rs:699-704 | the `universe` preset has the preset defaults, a `TapoStrip_` id, brightness 50 and non-empty display colours whose fourth components are 0 |
| SegmentEffects.VolcanoEffect | tapo/src/requests/set_device_info/segment_effect.rs:705-710 | the `volcano` preset has the preset defaults, a `TapoStrip_` id, brightness 50 and non-empty display colours whose fourth components are 0 |
| SegmentEffects.WarmEffect | tapo/src/requests/set_device_info/segment_effect.rs:711-716 | the `warm` preset has the preset defaults, a `TapoStrip_` id, brightness 50 and non-empty display colours whose fourth components are 0 |
| SegmentEffects.WhiteEffect | tapo/src/requests/set_device_info/segment_effect.rs:717-722 | the `white` preset has the preset defaults, a `TapoStrip_` id, brightness 50 and non-empty display colours whose fourth components are 0 |
| SegmentEffects.WinterEffect | tapo/src/requests/set_device_info/segment_effect.rs:723-733 | the `winter` preset has the preset defaults, a `TapoStrip_` id, brightness 50 and non-empty display colours whose fourth components are 0 |
| SegmentEffects.WorkEffect | tapo/src/requests/set_device_info/segment_effect.rs:734-744 | the `work` preset has the preset defaults, a `TapoStrip_` id, brightness 50 and non-empty display colours whose fourth components are 0 |
| SegmentEffects.YellowEffect | tapo/src/requests/set_device_info/segment_effect.rs:745-750 | the `yellow` preset has the preset defaults, a `TapoStrip_` id, brightness 50 and non-empty display colours whose fourth components are 0 |
| SegmentEffects.FromPreset | tapo/src/requests/set_device_info/segment_effect.rs:242-302 | every preset maps to an effect with the preset defaults, a strip id and non-empty display colours |
| SegmentEffects.StandardPreset | tapo/src/requests/set_device_info/segment_effect.rs:242-302 | every preset other than Moonlight maps to such an effect at brightness 50 |
| SegmentEffects.PresetBrightness | tapo/src/requests/set_device_info/segment_effect.rs:242-750 | Moonlight is exactly the preset at brightness 25; every other preset is at 50 |
| SegmentEffects.PresetsValidate | tapo/src/requests/set_device_info/segment_effect.rs:150-177 | every built-in preset passes `validate`, whatever uuid `preset` drew |
| SegmentEffectRules.New | tapo/src/requests/segment_effect_rule.rs:38-61 | `new` stores every argument as given, and the device type is "strip" |
| SegmentEffectRules.WithDeviceType | tapo/src/requests/segment_effect_rule.rs:64-67 | overrides the device type and leaves every other field as it was |
| SegmentEffectRules.WithSegments | tapo/src/requests/segment_effect_rule.rs:70-73 | sets the segments and leaves every other field as it was |
| SegmentEffectRules.WithStates | tapo/src/requests/segment_effect_rule.rs:76-79 | sets the states and leaves every other field as it was |
| SegmentEffectRules.SettersIndependent | tapo/src/requests/segment_effect_rule.rs:64-79 | overriding a field with its own value changes nothing, and the setters commute |
| LightingEffects.New | tapo/src/requests/set_device_info/lighting_effect.rs:90-128 | `new` stores the name, type, flags, brightness and colours as given, the drawn uuid as id, and leaves every optional field unset |
| LightingEffects.LegacyNew | src/requests/lighting_effect.rs:74-113 | the first crate's `new` stores every argument, the id included, and leaves every optional field unset |
| LightingEffects.NewWithRandomId | src/requests/lighting_effect.rs:115-132 | `new_with_random_id` is the first crate's `new` with a drawn id, and equals the current crate's `new` (tapo/src/requests/set_device_info/lighting_effect.rs:90-128) with that uuid |
| LightingEffects.WithBrightness | tapo/src/requests/set_device_info/lighting_effect.rs:130-133 | sets the brightness and leaves every other field as it was |
| LightingEffects.WithIsCustom | tapo/src/requests/set_device_info/lighting_effect.rs:135-138 | sets the is custom and leaves every other field as it was |
| LightingEffects.WithDisplayColors | tapo/src/requests/set_device_info/lighting_effect.rs:140-143 | sets the display colors and leaves every other field as it was |
| LightingEffects.WithEnabled | tapo/src/requests/set_device_info/lighting_effect.rs:145-148 | sets the enabled and leaves every other field as it was |
| LightingEffects.WithId | tapo/src/requests/set_device_info/lighting_effect.rs:150-153 | sets the id and leaves every other field as it was |
| LightingEffects.WithName | tapo/src/requests/set_device_info/lighting_effect.rs:155-158 | sets the name and leaves every other field as it was |
| LightingEffects.WithType | tapo/src/requests/set_device_info/lighting_effect.rs:160-163 | sets the type and leaves every other field as it was |
| LightingEffects.WithBackgrounds | tapo/src/requests/set_device_info/lighting_effect.rs:165-168 | sets the backgrounds and leaves every other field as it was |
| LightingEffects.WithBrightnessRange | tapo/src/requests/set_device_info/lighting_effect.rs:170-173 | sets the brightness range and leaves every other field as it was |
| LightingEffects.WithDirection | tapo/src/requests/set_device_info/lighting_effect.rs:175-178 | sets the direction and leaves every other field as it was |
| LightingEffects.WithDuration | tapo/src/requests/set_device_info/lighting_effect.rs:180-183 | sets the duration and leaves every other field as it was |
| LightingEffects.WithExpansionStrategy | tapo/src/requests/set_device_info/lighting_effect.rs:185-188 | sets the expansion strategy and leaves every other field as it was |
| LightingEffects.WithFadeOff | tapo/src/requests/set_device_info/lighting_effect.rs:190-193 | sets the fade off and leaves every other field as it was |
| LightingEffects.WithHueRange | tapo/src/requests/set_device_info/lighting_effect.rs:195-198 | sets the hue range and leaves every other field as it was |
| LightingEffects.WithInitStates | tapo/src/requests/set_device_info/lighting_effect.rs:200-203 | sets the init states and leaves every other field as it was |
| LightingEffects.WithRandomSeed | tapo/src/requests/set_device_info/lighting_effect.rs:205-208 | sets the random seed and leaves every other field as it was |
| LightingEffects.WithRepeatTimes | tapo/src/requests/set_device_info/lighting_effect.rs:210-213 | sets the repeat times and leaves every other field as it was |
| LightingEffects.WithRunTime | tapo/src/requests/set_device_info/lighting_effect.rs:215-218 | sets the run time and leaves every other field as it was |
| LightingEffects.WithSaturationRange | tapo/src/requests/set_device_info/lighting_effect.rs:220-223 | sets the saturation range and leaves every other field as it was |
| LightingEffects.WithSegmentLength | tapo/src/requests/set_device_info/lighting_effect.rs:225-228 | sets the segment length and leaves every other field as it was |
| LightingEffects.WithSegments | tapo/src/requests/set_device_info/lighting_effect.rs:230-233 | sets the segments and leaves every other field as it was |
| LightingEffects.WithSequence | tapo/src/requests/set_device_info/lighting_effect.rs:235-238 | sets the sequence and leaves every other field as it was |
| LightingEffects.WithSpread | tapo/src/requests/set_device_info/lighting_effect.rs:240-243 | sets the spread and leaves every other field as it was |
| LightingEffects.WithTransition | tapo/src/requests/set_device_info/lighting_effect.rs:245-248 | sets the transition and leaves every other field as it was |
| LightingEffects.WithTransitionRange | tapo/src/requests/set_device_info/lighting_effect.rs:250-253 | sets the transition range and leaves every other field as it was |
| LightingEffects.WithTransitionSequence | tapo/src/requests/set_device_info/lighting_effect.rs:255-258 | sets the transition sequence and leaves every other field as it was |
| LightingEffects.FromPreset | tapo/src/requests/set_device_info/lighting_effect.rs:285-307 | every preset maps to an effect that is not custom, enabled, at full brightness, with a strip id and the sequence fields its type needs |
| LightingEffects.AuroraEffect | tapo/src/requests/set_device_info/lighting_effect.rs:310-338 | the `aurora` preset is not custom, enabled, at full brightness, with a `TapoStrip_` id; a sequence or pulse effect carries a sequence, a direction and a spread, a random one no sequence |
| LightingEffects.BubblingCauldronEffect | tapo/src/requests/set_device_info/lighting_effect.rs:340-361 | the `bubbling_cauldron` preset is not custom, enabled, at full brightness, with a `TapoStrip_` id; a sequence or pulse effect carries a sequence, a direction and a spread, a random one no sequence |
| LightingEffects.CandyCaneEffect | tapo/src/requests/set_device_info/lighting_effect.rs:363-398 | the `candy_cane` preset is not custom, enabled, at full brightness, with a `TapoStrip_` id; a sequence or pulse effect carries a sequence, a direction and a spread, a random one no sequence |
| LightingEffects.ChristmasEffect | tapo/src/requests/set_device_info/lighting_effect.rs:400-426 | the `christmas` preset is not custom, enabled, at full brightness, with a `TapoStrip_` id; a sequence or pulse effect carries a sequence, a direction and a spread, a random one no sequence |
| LightingEffects.FlickerEffect | tapo/src/requests/set_device_info/lighting_effect.rs:428-447 | the `flicker` preset is not custom, enabled, at full brightness, with a `TapoStrip_` id; a sequence or pulse effect carries a sequence, a direction and a spread, a random one no sequence |
| LightingEffects.GrandmasChristmasLightsEffect | tapo/src/requests/set_device_info/lighting_effect.rs:449-488 | the `grandmas_christmas_lights` preset is not custom, enabled, at full brightness, with a `TapoStrip_` id; a sequence or pulse effect carries a sequence, a direction and a spread, a random one no sequence |
| LightingEffects.HanukkahEffect | tapo/src/requests/set_device_info/lighting_effect.rs:490-509 | the `hanukkah` preset is not custom, enabled, at full brightness, with a `TapoStrip_` id; a sequence or pulse effect carries a sequence, a direction and a spread, a random one no sequence |
| LightingEffects.HauntedMansionEffect | tapo/src/requests/set_device_info/lighting_effect.rs:511-533 | the `haunted_mansion` preset is not custom, enabled, at full brightness, with a `TapoStrip_` id; a sequence or pulse effect carries a sequence, a direction and a spread, a random one no sequence |
| LightingEffects.IcicleEffect | tapo/src/requests/set_device_info/lighting_effect.rs:535-559 | the `icicle` preset is not custom, enabled, at full brightness, with a `TapoStrip_` id; a sequence or pulse effect carries a sequence, a direction and a spread, a random one no sequence |
| LightingEffects.LightningEffect | tapo/src/requests/set_device_info/lighting_effect.rs:561-587 | the `lightning` preset is not custom, enabled, at full brightness, with a `TapoStrip_` id; a sequence or pulse effect carries a sequence, a direction and a spread, a random one no sequence |
| LightingEffects.OceanEffect | tapo/src/requests/set_device_info/lighting_effect.rs:589-607 | the `ocean` preset is not custom, enabled, at full brightness, with a `TapoStrip_` id; a sequence or pulse effect carries a sequence, a direction and a spread, a random one no sequence |
| LightingEffects.RainbowEffect | tapo/src/requests/set_device_info/lighting_effect.rs:609-637 | the `rainbow` preset is not custom, enabled, at full brightness, with a `TapoStrip_` id; a sequence or pulse effect carries a sequence, a direction and a spread, a random one no sequence |
| LightingEffects.RaindropEffect | tapo/src/requests/set_device_info/lighting_effect.rs:639-660 | the `raindrop` preset is not custom, enabled, at full brightness, with a `TapoStrip_` id; a sequence or pulse effect carries a sequence, a direction and a spread, a random one no sequence |
| LightingEffects.SpringEffect | tapo/src/requests/set_device_info/lighting_effect.rs:662-684 | the `spring` preset is not custom, enabled, at full brightness, with a `TapoStrip_` id; a sequence or pulse effect carries a sequence, a direction and a spread, a random one no sequence |
| LightingEffects.SunriseEffect | tapo/src/requests/set_device_info/lighting_effect.rs:686-722 | the `sunrise` preset is not custom, enabled, at full brightness, with a `TapoStrip_` id; a sequence or pulse effect carries a sequence, a direction and a spread, a random one no sequence |
| LightingEffects.SunsetEffect | tapo/src/requests/set_device_info/lighting_effect.rs:724-760 | the `sunset` preset is not custom, enabled, at full brightness, with a `TapoStrip_` id; a sequence or pulse effect carries a sequence, a direction and a spread, a random one no sequence |
| LightingEffects.ValentinesEffect | tapo/src/requests/set_device_info/lighting_effect.rs:762-783 | the `valentines` preset is not custom, enabled, at full brightness, with a `TapoStrip_` id; a sequence or pulse effect carries a sequence, a direction and a spread, a random one no sequence |
| LegacyLightingEffects.LegacyAuroraEffect | src/requests/lighting_effect.rs:325-353 | the first crate's `aurora` preset has the same shape: not custom, enabled, full brightness, a `TapoStrip_` id, and the sequence fields its type needs |
| LegacyLightingEffects.LegacyBubblingCauldronEffect | src/requests/lighting_effect.rs:366-387 | the first crate's `bubbling_cauldron` preset has the same shape: not custom, enabled, full brightness, a `TapoStrip_` id, and the sequence fields its type needs |
| LegacyLightingEffects.LegacyCandyCaneEffect | src/requests/lighting_effect.rs:403-438 | the first crate's `candy_cane` preset has the same shape: not custom, enabled, full brightness, a `TapoStrip_` id, and the sequence fields its type needs |
| LegacyLightingEffects.LegacyChristmasEffect | src/requests/lighting_effect.rs:451-477 | the first crate's `christmas` preset has the same shape: not custom, enabled, full brightness, a `TapoStrip_` id, and the sequence fields its type needs |
| LegacyLightingEffects.LegacyFlickerEffect | src/requests/lighting_effect.rs:489-508 | the first crate's `flicker` preset has the same shape: not custom, enabled, full brightness, a `TapoStrip_` id, and the sequence fields its type needs |
| LegacyLightingEffects.LegacyGrandmasChristmasLightsEffect | src/requests/lighting_effect.rs:524-563 | the first crate's `grandmas_christmas_lights` preset has the same shape: not custom, enabled, full brightness, a `TapoStrip_` id, and the sequence fields its type needs |
| LegacyLightingEffects.LegacyHanukkahEffect | src/requests/lighting_effect.rs:575-594 | the first crate's `hanukkah` preset has the same shape: not custom, enabled, full brightness, a `TapoStrip_` id, and the sequence fields its type needs |
| LegacyLightingEffects.LegacyHauntedMansionEffect | src/requests/lighting_effect.rs:606-628 | the first crate's `haunted_mansion` preset has the same shape: not custom, enabled, full brightness, a `TapoStrip_` id, and the sequence fields its type needs |
| LegacyLightingEffects.LegacyIcicleEffect | src/requests/lighting_effect.rs:641-665 | the first crate's `icicle` preset has the same shape: not custom, enabled, full brightness, a `TapoStrip_` id, and the sequence fields its type needs |
| LegacyLightingEffects.LegacyLightningEffect | src/requests/lighting_effect.rs:679-705 | the first crate's `lightning` preset has the same shape: not custom, enabled, full brightness, a `TapoStrip_` id, and the sequence fields its type needs |
| LegacyLightingEffects.LegacyOceanEffect | src/requests/lighting_effect.rs:717-735 | the first crate's `ocean` preset has the same shape: not custom, enabled, full brightness, a `TapoStrip_` id, and the sequence fields its type needs |
| LegacyLightingEffects.LegacyRainbowEffect | src/requests/lighting_effect.rs:748-776 | the first crate's `rainbow` preset has the same shape: not custom, enabled, full brightness, a `TapoStrip_` id, and the sequence fields its type needs |
| LegacyLightingEffects.LegacyRaindropEffect | src/requests/lighting_effect.rs:788-809 | the first crate's `raindrop` preset has the same shape: not custom, enabled, full brightness, a `TapoStrip_` id, and the sequence fields its type needs |
| LegacyLightingEffects.LegacySpringEffect | src/requests/lighting_effect.rs:821-843 | the first crate's `spring` preset has the same shape: not custom, enabled, full brightness, a `TapoStrip_` id, and the sequence fields its type needs |
| LegacyLightingEffects.LegacySunriseEffect | src/requests/lighting_effect.rs:859-895 | the first crate's `sunrise` preset has the same shape: not custom, enabled, full brightness, a `TapoStrip_` id, and the sequence fields its type needs |
| LegacyLightingEffects.LegacySunsetEffect | src/requests/lighting_effect.rs:911-947 | the first crate's `sunset` preset has the same shape: not custom, enabled, full brightness, a `TapoStrip_` id, and the sequence fields its type needs |
| LegacyLightingEffects.LegacyValentinesEffect | src/requests/lighting_effect.rs:961-982 | the first crate's `valentines` preset has the same shape: not custom, enabled, full brightness, a `TapoStrip_` id, and the sequence fields its type needs |
| LegacyLightingEffects.AuroraAgrees | src/requests/lighting_effect.rs:325-353 | the first crate's `aurora` preset equals the current crate's (tapo/src/requests/set_device_info/lighting_effect.rs:310-338), whatever uuid the current `new` drew |
| LegacyLightingEffects.BubblingCauldronAgrees | src/requests/lighting_effect.rs:366-387 | the first crate's `bubbling_cauldron` preset equals the current crate's (tapo/src/requests/set_device_info/lighting_effect.rs:340-361), whatever uuid the current `new` drew |
| LegacyLightingEffects.CandyCaneAgrees | src/requests/lighting_effect.rs:403-438 | the first crate's `candy_cane` preset equals the current crate's (tapo/src/requests/set_device_info/lighting_effect.rs:363-398), whatever uuid the current `new` drew |
| LegacyLightingEffects.ChristmasAgrees | src/requests/lighting_effect.rs:451-477 | the first crate's `christmas` preset equals the current crate's (tapo/src/requests/set_device_info/lighting_effect.rs:400-426), whatever uuid the current `new` drew |
| LegacyLightingEffects.FlickerAgrees | src/requests/lighting_effect.rs:489-508 | the first crate's `flicker` preset equals the current crate's (tapo/src/requests/set_device_info/lighting_effect.rs:428-447), whatever uuid the current `new` drew |
| LegacyLightingEffects.GrandmasChristmasLightsAgrees | src/requests/lighting_effect.rs:524-563 | the first crate's `grandmas_christmas_lights` preset equals the current crate's (tapo/src/requests/set_device_info/lighting_effect.rs:449-488), whatever uuid the current `new` drew |
| LegacyLightingEffects.HanukkahAgrees | src/requests/lighting_effect.rs:575-594 | the first crate's `hanukkah` preset equals the current crate's (tapo/src/requests/set_device_info/lighting_effect.rs:490-509), whatever uuid the current `new` drew |
| LegacyLightingEffects.HauntedMansionAgrees | src/requests/lighting_effect.rs:606-628 | the first crate's `haunted_mansion` preset equals the current crate's (tapo/src/requests/set_device_info/lighting_effect.rs:511-533), whatever uuid the current `new` drew |
| LegacyLightingEffects.IcicleAgrees | src/requests/lighting_effect.rs:641-665 | the first crate's `icicle` preset equals the current crate's (tapo/src/requests/set_device_info/lighting_effect.rs:535-559), whatever uuid the current `new` drew |
| LegacyLightingEffects.LightningAgrees | src/requests/lighting_effect.rs:679-705 | the first crate's `lightning` preset equals the current crate's (tapo/src/requests/set_device_info/lighting_effect.rs:561-587), whatever uuid the current `new` drew |
| LegacyLightingEffects.OceanAgrees | src/requests/lighting_effect.rs:717-735 | the first crate's `ocean` preset equals the current crate's (tapo/src/requests/set_device_info/lighting_effect.rs:589-607), whatever uuid the current `new` drew |
| LegacyLightingEffects.RainbowAgrees | src/requests/lighting_effect.rs:748-776 | the first crate's `rainbow` preset equals the current crate's (tapo/src/requests/set_device_info/lighting_effect.rs:609-637), whatever uuid the current `new` drew |
| LegacyLightingEffects.RaindropAgrees | src/requests/lighting_effect.rs:788-809 | the first crate's `raindrop` preset equals the current crate's (tapo/src/requests/set_device_info/lighting_effect.rs:639-660), whatever uuid the current `new` drew |
| LegacyLightingEffects.SpringAgrees | src/requests/lighting_effect.rs:821-843 | the first crate's `spring` preset equals the current crate's (tapo/src/requests/set_device_info/lighting_effect.rs:662-684), whatever uuid the current `new` drew |
| LegacyLightingEffects.SunriseAgrees | src/requests/lighting_effect.rs:859-895 | the first crate's `sunrise` preset equals the current crate's (tapo/src/requests/set_device_info/lighting_effect.rs:686-722), whatever uuid the current `new` drew |
| LegacyLightingEffects.SunsetAgrees | src/requests/lighting_effect.rs:911-947 | the first crate's `sunset` preset equals the current crate's (tapo/src/requests/set_device_info/lighting_effect.rs:724-760), whatever uuid the current `new` drew |
| LegacyLightingEffects.ValentinesAgrees | src/requests/lighting_effect.rs:961-982 | the first crate's `valentines` preset equals the current crate's (tapo/src/requests/set_device_info/lighting_effect.rs:762-783), whatever uuid the current `new` drew |
| LegacyLightingEffects.LegacyFromPreset | src/requests/lighting_effect.rs:288-310 | in the first crate too, every preset maps to an effect of the preset shape |
| LegacyLightingEffects.LegacyCandyCaneSegments | src/requests/lighting_effect.rs:403-438 | Candy Cane lights segments 0 to 15 in order and walks a 16-step sequence |
| T31x.Zip4 | tapo/src/responses/child_device_list_hub_result/t31x_result.rs:181-186 | the four arrays are zipped position by position, cut to the shortest one |
| T31x.IntervalMinute | tapo/src/responses/child_device_list_hub_result/t31x_result.rs:163-171 | the interval minute is the quarter-hour mark at or before the minute |
| T31x.Anchor | tapo/src/responses/child_device_list_hub_result/t31x_result.rs:161-177 | the newest sample's time is the local time floored to its quarter-hour |
| T31x.QuarterOfHour | tapo/src/responses/child_device_list_hub_result/t31x_result.rs:163-177 | flooring the minute to a quarter and zeroing the seconds removes exactly the offset into the quarter-hour |
| T31x.ShiftMod900 | tapo/src/responses/child_device_list_hub_result/t31x_result.rs:204-206 | stepping back whole quarter-hours keeps a time's offset into its quarter-hour |
| T31x.QuarterOfOffset | tapo/src/responses/child_device_list_hub_result/t31x_result.rs:163-171 | within the hour, the offset into the quarter-hour is the minute's offset into its quarter plus the seconds |
| T31x.Chronological | tapo/src/responses/child_device_list_hub_result/t31x_result.rs:189-209 | the records, oldest first, never outnumber the samples |
| T31x.Reversed | tapo/src/responses/child_device_list_hub_result/t31x_result.rs:209 | the reversal has the same length and the element at each position mirrored |
| T31x.Reverse | tapo/src/responses/child_device_list_hub_result/t31x_result.rs:209 | `records.reverse()` in place leaves the array holding the reversal of its old contents |
| T31x.TryFrom | tapo/src/responses/child_device_list_hub_result/t31x_result.rs:160-216 | the datetime is the local time, the unit is passed on, and the records are the present samples, oldest first, each at its quarter-hour |
| T31x.NewestFirst | tapo/src/responses/child_device_list_hub_result/t31x_result.rs:179-207 | the backwards loop, stepping back 15 minutes after every sample, collects the present samples' records newest first |
| T31x.ChronologicalStep | tapo/src/responses/child_device_list_hub_result/t31x_result.rs:189-207 | one more sample in the backwards walk appends its record, if it is present, at the quarter-hour the walk has reached |
| T31x.ReversedAppend | tapo/src/responses/child_device_list_hub_result/t31x_result.rs:209 | reversing a concatenation reverses and swaps its parts |
| T31x.ReversedTwice | tapo/src/responses/child_device_list_hub_result/t31x_result.rs:209 | reversing twice gives back the sequence |
| T31x.ChronologicalOrdered | tapo/src/responses/child_device_list_hub_result/t31x_result.rs:189-209 | every record lies on the quarter-hour grid within the samples' window, and the records are strictly increasing in time |
| T31x.QuarterMultiple | tapo/src/responses/child_device_list_hub_result/t31x_result.rs:204-206 | a whole number of quarter-hours has no offset into a quarter-hour |
| T31x.ChronologicalComplete | tapo/src/responses/child_device_list_hub_result/t31x_result.rs:189-209 | with no missing sample, every sample gives a record, at consecutive quarter-hours ending at the anchor |
| T31x.PresentFrom | tapo/src/responses/child_device_list_hub_result/t31x_result.rs:190-194 | the indices of exactly the present samples, in increasing order |
| T31x.ChronologicalSelects | tapo/src/responses/child_device_list_hub_result/t31x_result.rs:189-209 | the records are exactly the present samples, in their order, each at its own quarter-hour |
| T31x.SelectsConcat | tapo/src/responses/child_device_list_hub_result/t31x_result.rs:189-209 | selections from two parts of the samples concatenate |
| T31x.ChronologicalMissingLast | tapo/src/responses/child_device_list_hub_result/t31x_result.rs:189-207 | a missing newest sample adds no record and only moves the window one quarter-hour back |
| T31x.SampleDate | tapo/src/responses/child_device_list_hub_result/t31x_result.rs:238-243 | the test's local time 1685371944 is 2023-05-29 14:52:24 |
| T31x.SampleAnchor | tapo/src/responses/child_device_list_hub_result/t31x_result.rs:311 | the newest sample of the test belongs to 14:45 |
| T31x.CompleteSample | tapo/src/responses/child_device_list_hub_result/t31x_result.rs:225-318 | six present samples give six records from 13:30 to 14:45 with the test's humidities and temperatures in tenths |
| T31x.InProgressSample | tapo/src/responses/child_device_list_result/t31x_result.rs:277-355 | with the newest quarter still in progress, five records from 13:30 to 14:30 |
| ChildDevice.StatusRoundTrip | tapo/src/responses/child_device_list_hub_result.rs:42-53 | the camel-case names `online` and `offline` are the only statuses that parse, each to its own status |
| ChildDevice.Decode | tapo/src/responses/child_device_list_hub_result/t31x_result.rs:84-89 | a child's `decode` succeeds exactly when its nickname decodes; it replaces the nickname by its decoded text, the encoded form of which was the old nickname, and changes nothing else |
| ChildDevice.DecodeEncoded | tapo/src/responses/child_device_list_hub_result/t31x_result.rs:84-89 | a child whose nickname is the device's encoding of a name decodes to the same child with that name |
| ChildDevice.DecodeAll | tapo/src/responses/child_device_list_hub_result.rs:28-38 | collecting the decoded elements succeeds exactly when every element decodes, keeps the order and the length, and otherwise fails with the error of the first element that fails |
| ChildDeviceLists.HubChildOfModel | tapo/src/responses/child_device_list_hub_result.rs:55-77 | the `model` tag selects the variant: S200B and S200D are one switch, T310 and T315 one sensor, any unlisted tag is `Other`, and a known child keeps its payload |
| ChildDeviceLists.HubModelRoundTrip | tapo/src/responses/child_device_list_hub_result.rs:55-77 | writing a known hub child's tag and reading it back gives the same child |
| ChildDeviceLists.DecodeHubChild | tapo/src/responses/child_device_list_hub_result.rs:79-103 | decoding keeps the variant and decodes the payload, fails with the payload's error, and leaves `Other` as it is |
| ChildDeviceLists.DecodeHubList | tapo/src/responses/child_device_list_hub_result.rs:28-38 | the hub list decodes child by child, keeping each child's variant |
| ChildDeviceLists.DecodeHubChildEncoded | tapo/src/responses/child_device_list_hub_result.rs:79-103 | a hub child with an encoded nickname decodes to the same child with the plain nickname |
| ChildDeviceLists.WithHubInfo | tapo/src/responses/child_device_list_hub_result.rs:79-103 | replacing a hub child's payload keeps its variant |
| ChildDeviceLists.ChildOfModel | tapo/src/responses/child_device_list_result.rs:51-73 | the current crate's child list has separate T310 and T315 variants; any unlisted tag is `Other` |
| ChildDeviceLists.ChildModelRoundTrip | tapo/src/responses/child_device_list_result.rs:51-73 | every known child is read back from its own tag |
| ChildDeviceLists.DecodeChild | tapo/src/responses/child_device_list_result.rs:75-102 | decoding keeps the variant and decodes the payload, fails with the payload's error, and leaves `Other` as it is |
| ChildDeviceLists.DecodeChildList | tapo/src/responses/child_device_list_result.rs:28-38 | the child list decodes child by child, keeping which children are `Other` |
| ChildDeviceLists.SensorChildOfModel | src/responses/child_device_list_result.rs:47-65 | the first crate knows S200B, T100, T110, T310 and T315; any other tag is `Other` |
| ChildDeviceLists.SensorModelRoundTrip | src/responses/child_device_list_result.rs:47-65 | every known child of the first crate is read back from its own tag |
| ChildDeviceLists.DecodeSensorChild | src/responses/child_device_list_result.rs:67-78 | the first crate's decode keeps the variant, decodes the payload and leaves `Other` as it is |
| ChildDeviceLists.DecodeSensorList | src/responses/child_device_list_result.rs:24-34 | the first crate's list decodes child by child, keeping which children are `Other` |
| ChildDeviceLists.OneBadChildFailsList | tapo/src/responses/child_device_list_hub_result.rs:28-38 | one child whose nickname does not decode fails the whole list |
| ChildLookup.FirstIndex | tapo/src/api/hub_handler.rs:18-24 | the index found is the first whose element satisfies the test, and none is found only when no element does |
| ChildLookup.HubDeviceId | tapo/src/api/hub_handler.rs:13-36 | the list fetch's error is passed on; the id is found exactly when some child of the requested kind has the given id or nickname, and otherwise the error is `DeviceNotFound` |
| ChildLookup.HubDeviceIdIsFirstMatch | tapo/src/api/hub_handler.rs:13-36 | the id found is that of the first child of the requested kind that the identifier names |
| ChildLookup.HubLookupIgnoresOtherKinds | tapo/src/api/hub_handler.rs:20-23 | a child of another kind is never selected, even when its id is the one asked for |
| ChildLookup.FindPlugId | tapo/src/api/power_strip_energy_monitoring_handler.rs:113-132 | a plug id is found exactly when some plug matches, and it is the first matching plug's id; otherwise `DeviceNotFound` |
| ChildLookup.PowerStripPlugId | tapo/src/api/power_strip_handler.rs:106-131 | the P300 handler uses a device id as given without fetching the list, and looks a nickname or a position up in the list |
| ChildLookup.EnergyMonitoringPlugId | tapo/src/api/power_strip_energy_monitoring_handler.rs:107-138 | the P304M handler always fetches the list, and even a device id must name one of its plugs |
| ChildLookup.PowerStripsAgree | tapo/src/api/power_strip_energy_monitoring_handler.rs:107-138 | both power strips resolve a nickname or a position alike; on a device id the P304M succeeds exactly when the list holds that id, and then agrees with the P300 |
| ChildLookup.ParseHubIdentifier | tapo-py/src/api/hub_handler.rs:31-44 | a device id wins over a nickname, and with neither the result is a validation error on `identifier` |
| ChildLookup.ParsePlugIdentifier | tapo-py/src/api/power_strip_handler.rs:27-42 | a device id wins over a nickname, which wins over a position, and with none the result is a validation error on `identifier` |
| ChildLookup.ParseAgrees | tapo-py/src/api/power_strip_handler.rs:27-42 | whatever the hub parses, the power strips parse too, with the same choice between id and nickname |
| ChildLookup.AlarmDurationOf | tapo-py/src/api/hub_handler.rs:154-170 | `Seconds` needs a seconds value and otherwise fails on field `seconds`; the other kinds ignore the value |
| ChildLookup.ZeroSecondsRejectedLater | tapo-py/src/api/hub_handler.rs:154-178 | zero seconds passes the Python mapping and is then refused when the alarm parameters are built |
| ChildLookup.ChildListForPython | tapo-py/src/api/hub_handler.rs:72-115 | the Python list has one entry per child, the child itself where supported and a `None` placeholder otherwise |
| Colors.ColorConfig | tapo/src/requests/set_device_info/color.rs:57-114 | a white preset has hue 0, saturation 100 and a temperature between 2500 and 6500 K; a chromatic preset has temperature 0, a hue of at most 360 and a saturation between 1 and 100 |
| Colors.ColorMap | tapo/src/requests/color.rs:54-102 | the colour module's table gives every preset all three components |
| Colors.LegacyColorMap | src/requests/color.rs:54-100 | the first crate's table gives a white preset only a temperature, in range, and a chromatic one only a hue and a saturation |
| Colors.ColorMapAgrees | tapo/src/requests/color.rs:54-102 | the colour module's table holds the same numbers as `get_color_config`'s (tapo/src/requests/set_device_info/color.rs:68-114) |
| Colors.LegacyColorMapAgrees | src/requests/color.rs:54-100 | the first crate's table holds the same presets, without the hue and saturation of white presets and without the temperature of chromatic ones |
| Colors.OnlyDarkRedHasZeroHue | tapo/src/requests/set_device_info/color.rs:94 | dark red is the only chromatic preset with hue 0 |
| ColorLight.New | tapo/src/requests/set_device_info/color_light.rs:104-106 | the default builder has nothing set |
| ColorLight.On | tapo/src/requests/set_device_info/color_light.rs:25-28 | sets the device on and changes nothing else |
| ColorLight.Off | tapo/src/requests/set_device_info/color_light.rs:31-34 | sets the device off and changes nothing else |
| ColorLight.Brightness | tapo/src/requests/set_device_info/color_light.rs:42-45 | stores the brightness unchecked and changes nothing else |
| ColorLight.WithColor | tapo/src/requests/set_device_info/color_light.rs:53-63 | copies the preset's three table components and keeps the on flag and the brightness |
| ColorLight.HueSaturation | tapo/src/requests/set_device_info/color_light.rs:72-78 | sets hue and saturation, forces the temperature to 0, and keeps the on flag and the brightness |
| ColorLight.ColorTemperature | tapo/src/requests/set_device_info/color_light.rs:86-92 | sets the temperature, forces hue 0 and saturation 100, and keeps the on flag and the brightness |
| ColorLight.Validate | tapo/src/requests/set_device_info/color_light.rs:108-161 | passes exactly when the builder is acceptable; otherwise reports the first failing check in source order (nothing set, brightness 1-100, hue 1-360 unless a temperature is in force, saturation 1-100, temperature 2500-6500 for white settings) with its field name and message |
| ColorLight.Send | tapo/src/requests/set_device_info/color_light.rs:95-99 | validation comes first: a request body is produced exactly for an acceptable builder, holding only the present fields, and otherwise the validation error is returned |
| ColorLight.HueSaturationOverridesTemperature | tapo/src/requests/set_device_info/color_light.rs:192-203 | `hue_saturation` after `color_temperature` leaves hue and saturation set and the temperature 0, and is sent exactly when both are in range |
| ColorLight.TemperatureOverridesHueSaturation | tapo/src/requests/set_device_info/color_light.rs:206-217 | `color_temperature` after `hue_saturation` leaves hue 0, saturation 100 and the temperature, and is sent exactly when the temperature is in range; temperature 0 fails on the hue |
| ColorLight.ColorPresetsValidate | tapo/src/requests/set_device_info/color_light.rs:53-63 | every preset but dark red passes validation; dark red, hue 0 with temperature 0, fails the hue check |
| L530.New | src/requests/set_device_info/l530.rs:102-111 | a fresh builder sets nothing: power, brightness, hue, saturation and colour temperature are all absent |
| L530.On | src/requests/set_device_info/l530.rs:29-32 | turning on sets the power field to true and leaves every other field as it was |
| L530.Off | src/requests/set_device_info/l530.rs:35-38 | turning off sets the power field to false and leaves every other field as it was |
| L530.Validate | src/requests/set_device_info/l530.rs:113-178 | a builder is accepted, unchanged, exactly when it sets some property, its brightness is in 1..=100 and its colour part is consistent and in range; every rejection is a validation error |
| L530.ValidateOrder | src/requests/set_device_info/l530.rs:113-139 | the record-level checks run first and in order: nothing set, then temperature mixed with hue or saturation, then hue without saturation or the reverse, each with its own message |
| L530.Brightness | src/requests/set_device_info/l530.rs:45-48 | setting the brightness succeeds exactly when the value is in 1..=100 and the colour part already validates, and changes only the brightness |
| L530.WithColor | src/requests/set_device_info/l530.rs:55-65 | a preset copies the legacy preset's hue, saturation and temperature and keeps power and brightness |
| L530.HueSaturation | src/requests/set_device_info/l530.rs:73-79 | succeeds exactly when brightness validates, the hue is in 1..=360 and the saturation in 1..=100; sets both and clears the temperature |
| L530.ColorTemperature | src/requests/set_device_info/l530.rs:86-92 | succeeds exactly when brightness validates and the value is a white temperature; sets it and clears hue and saturation |
| L530.ColorPresetsValidate | src/requests/set_device_info/l530.rs:55-65 | every legacy preset is accepted except dark red, whose hue 0 fails the hue range check |
| L530.AcceptedIsOneKind | src/requests/set_device_info/l530.rs:125-139 | an accepted builder sets either a temperature or a hue-and-saturation pair, never both, and hue and saturation always come together |
| Light.New | tapo/src/requests/set_device_info/light.rs:50-56 | a fresh builder sets neither power nor brightness |
| Light.On | tapo/src/requests/set_device_info/light.rs:19-22 | turning on sets power to true and keeps the brightness |
| Light.Off | tapo/src/requests/set_device_info/light.rs:25-28 | turning off sets power to false and keeps the brightness |
| Light.Brightness | tapo/src/requests/set_device_info/light.rs:36-39 | the value is stored unchecked and power is kept |
| Light.Validate | tapo/src/requests/set_device_info/light.rs:58-76 | accepted exactly for an acceptable builder; the "at least one property" error exactly when nothing is set, the brightness range error exactly when a brightness outside 1..=100 is set |
| Light.Send | tapo/src/requests/set_device_info/light.rs:42-46 | a request body only for an acceptable builder, the body holding the set fields, and otherwise the validation error |
| Light.SendRejects | tapo/src/requests/set_device_info/light.rs:96-120 | the builder's tests: an empty builder and brightness 0 or 101 are refused with their messages |
| Light.OnOffAlone | tapo/src/requests/set_device_info/light.rs:19-28 | turning the light on or off on a fresh builder is always sent, with the power field alone in the body |
| L510.Validate | src/requests/set_device_info/l510.rs:20-34 | accepted, unchanged, exactly when a brightness in 1..=100 is set, even if power is set too; the missing-property and range errors otherwise |
| L510.Brightness | src/requests/set_device_info/l510.rs:12-18 | succeeds exactly for a value in 1..=100, giving a builder with that brightness and no power field |
| Trv.New | tapo/src/requests/set_device_info/trv.rs:55-65 | a fresh builder sets none of the seven fields |
| Trv.Validate | tapo/src/requests/set_device_info/trv.rs:67-78 | accepted, unchanged, exactly when the temperature offset is absent or in -10..=10; the offset error otherwise |
| Trv.TargetTemp | tapo/src/requests/set_device_info/trv.rs:24-27 | sets the target temperature alone, succeeding exactly when the offset already validates |
| Trv.FrostProtectionOn | tapo/src/requests/set_device_info/trv.rs:28-31 | sets frost protection alone, succeeding exactly when the offset already validates |
| Trv.ChildProtection | tapo/src/requests/set_device_info/trv.rs:32-35 | sets child protection alone, succeeding exactly when the offset already validates |
| Trv.TempOffset | tapo/src/requests/set_device_info/trv.rs:36-39 | sets the offset alone, succeeding exactly when the new offset is in -10..=10 |
| Trv.MinTemp | tapo/src/requests/set_device_info/trv.rs:40-43 | sets the minimum temperature alone, succeeding exactly when the offset already validates |
| Trv.MinControlTemp | tapo/src/requests/set_device_info/trv.rs:44-47 | sets the minimum control temperature alone, succeeding exactly when the offset already validates |
| Trv.MaxControlTemp | tapo/src/requests/set_device_info/trv.rs:48-51 | sets the maximum control temperature alone, succeeding exactly when the offset already validates |
| Trv.SettersFromNewSucceed | tapo/src/requests/set_device_info/trv.rs:24-51 | on a fresh builder every setter except the offset succeeds whatever its value |
| PlayAlarm.VolumeName | tapo/src/requests/play_alarm.rs:6-24 | volumes serialise to non-empty lowercase names |
| PlayAlarm.RingtoneName | tapo/src/requests/play_alarm.rs:33-96 | ringtones serialise to non-empty capitalised names |
| PlayAlarm.ParseVolume | tapo/src/requests/play_alarm.rs:6-24 | a name the device reads as a volume is that volume's lowercase name |
| PlayAlarm.VolumeNameRoundTrip | tapo/src/requests/play_alarm.rs:6-24 | every volume's name reads back as that volume |
| PlayAlarm.VolumeNameInjective | tapo/src/requests/play_alarm.rs:6-24 | distinct volumes serialise to distinct names |
| PlayAlarm.ParseRingtone | tapo/src/requests/play_alarm.rs:33-96 | a name the device reads as a ringtone is that ringtone's serde name |
| PlayAlarm.RingtoneNameRoundTrip | tapo/src/requests/play_alarm.rs:33-96 | every ringtone's name reads back as that ringtone |
| PlayAlarm.RingtoneNameInjective | tapo/src/requests/play_alarm.rs:33-96 | distinct ringtones serialise to distinct names |
| PlayAlarm.DurationValue | tapo/src/requests/play_alarm.rs:126-135 | a continuous duration has no value, once is 0 and a duration in seconds is that number |
| PlayAlarm.Validate | tapo/src/requests/play_alarm.rs:162-170 | refused exactly for a duration of zero seconds, with the duration error |
| PlayAlarm.New | tapo/src/requests/play_alarm.rs:148-160 | builds the parameters as given exactly when the duration is not zero seconds, and the duration error otherwise |
| PlayAlarm.PayloadKeys | tapo/src/requests/play_alarm.rs:138-146 | the payload writes type, volume and duration in that order, each only when it is not skipped |
| PlayAlarm.PayloadFields | tapo/src/requests/play_alarm.rs:138-146 | each payload key holds exactly its field's serialised value, and is absent when serde skips the field |
| PlayAlarm.PayloadHasNoOtherKey | tapo/src/requests/play_alarm.rs:138-146 | no key other than the three appears in the payload |
| PlayAlarm.PayloadExample | tapo/src/requests/play_alarm.rs:300-310 | the fully specified example builds and serialises to all three fields in order |
| PlayAlarm.DefaultsOmitted | tapo/src/requests/play_alarm.rs:264-274 | the default ringtone, default volume and a continuous duration serialise to the empty object |
| GenericDevice.Validate | tapo/src/requests/set_device_info/generic_device.rs:19-28 | accepted, unchanged, exactly when power is set; the typed "at least one property" error otherwise |
| GenericDevice.DeviceOn | tapo/src/requests/set_device_info/generic_device.rs:12-17 | setting power never fails and gives the builder with that power value |
| GenericDevice.LegacyValidate | src/requests/set_device_info/generic_device.rs:17-25 | accepted, unchanged, exactly when power is set; the untyped error otherwise |
| GenericDevice.LegacyDeviceOn | src/requests/set_device_info/generic_device.rs:10-15 | setting power never fails and gives the builder with that power value |
| PowerStripPlugs.AutoOffRoundTrip | tapo/src/responses/child_device_list_power_strip_result/power_strip_plug_result.rs:88-95 | the camelCase names of the auto-off status parse back to that status and nothing else does |
| PowerStripPlugs.DecodePlug | tapo/src/responses/child_device_list_power_strip_result/power_strip_plug_result.rs:80-85 | a plug decodes exactly when its nickname does, with the nickname's error otherwise; only the nickname changes, and it was the device's encoding of the decoded one |
| PowerStripPlugs.DecodePlugEncoded | tapo/src/responses/child_device_list_power_strip_result/power_strip_plug_energy_monitoring_result.rs:91-96 | a plug whose nickname is the device's encoding of a name decodes to that name with all else unchanged |
| PowerStripPlugs.DecodePlugs | tapo/src/responses/child_device_list_power_strip_result/power_strip_plug_result.rs:15-25 | the list decodes plug by plug, failing on the first bad plug; a decoded list has the same length and differs only in nicknames |
| PowerStripPlugs.DecodePlugsKeepsKeys | tapo/src/responses/child_device_list_power_strip_result/power_strip_plug_energy_monitoring_result.rs:19-29 | decoding keeps every plug's device id and position, so lookups by id or position find the same plug afterwards |

## Left out

- Network I/O, HTTP clients, cookie handling beyond what a session keeps, and `async` are left out: the transport is a function parameter from URL and body to the reply.
- The passthrough session's cookie jar is not modelled; the KLAP cookie jar is reduced to the session cookie the handshake returns.
- Cryptographic primitives (SHA-1, SHA-256, AES-128-CBC, RSA, PKCS#7 padding) are abstract: they are functions with length facts and the decrypt-of-encrypt round trip, not the algorithms.
- PassthroughCrypto.FromHandshakeKey: a base64 failure and an RSA failure give `Other("Invalid base64 input")` and `Other("RSA decryption failed")`, stand-ins for the Display texts of the base64 crate's `DecodeError` and of the rsa crate's error that `?` passes on (tapo/src/api/protocol/passthrough_cipher.rs:45-46); only the error variant and which step failed are modelled.
- PassthroughCrypto.NewCipher: inherits FromHandshakeKey's stand-in base64 and RSA failure texts; the "Expected 32 bytes, got N" message is the source's own.
- PassthroughCrypto.DecodeHandshakeKey: inherits the stand-in base64 text, and its RSA failure text stands in for the openssl `ErrorStack` of `private_decrypt` (src/encryption.rs:68-73); the "expected 32 bytes, got N" message is the source's own.
- PassthroughCrypto.Decrypt: the base64 and UTF-8 failures carry stand-in texts ("Invalid base64 input", "invalid utf-8 sequence"), not the base64 crate's `DecodeError` text nor std's "invalid utf-8 sequence of N bytes from index M" (tapo/src/api/protocol/passthrough_cipher.rs:71, 76; src/encryption.rs:51, 58); and since both crates share it, the first crate's openssl decryption failure (src/encryption.rs:52-57) gets the current crate's "Decryption error: UnpadError" instead of an `ErrorStack` text. Only the error variant is modelled for these.
- KlapCrypto.KlapCipher.Decrypt: the UTF-8 failure gives `Other("Decryption error: Utf8Error")`, a stand-in for the `{:?}` text "Decryption error: Utf8Error { valid_up_to: .., error_len: .. }" (tapo/src/api/protocol/klap_cipher.rs:76-77), which would need std's error position; the unpadding text is the source's own.
- The random number generator, the clock, CRC-32, RSA key generation, PEM conversion and UUID generation become parameters. A preset's fresh identifier is the `freshId` parameter.
- `TpLinkCipher::new` of the first crate is modelled through the `decode_handshake_key` steps it shares with the current crate.
- The first crate's login treats the `Result` of `sha_digest_username` as always `Ok`.
- The first crate's `validate_response` comes from a module that is not part of this model. The current crate's `ValidateResponse` stands in for it, and the first crate's `validate_result` (src/responses/tapo_response.rs:14-23) is `TapoResponses.ValidateResult`.
- tapo/src/requests/login_device.rs, control_child.rs, multiple_request.rs and tapo/src/responses/control_child_result.rs are not part of this model. Their shapes appear only as the envelope that `ApiClients` builds and unwraps.
- The probe body of the passthrough discovery request (`EmptyParams`) is not modelled; only the device's answer decides.
- Serialisation failures, encryption failures, `get_public_key` and the `Result` of `KlapCipher::new` are treated as infallible, as they are for every input the client builds.
- Floating-point values are kept in fixed tenths: T31x temperatures (`as f32 / 10.0`), target temperatures and energy figures. Rounding of `f32` is not modelled.
- Panics become preconditions: an `expect` on a value the source knows is present, the slice `&key[..5]`, `split_at(16)` and `[32..]` on short input.
- The KLAP sequence number wraps on overflow (`NextSeq`), as in a release build; the debug-build overflow panic is not modelled.
- T31x.TryFrom: assumes the timestamp and the samples fall inside chrono's date range, so `unwrap_or_default` on an out-of-range timestamp and the error of `checked_sub_signed` are not modelled.
- The local time zone of the energy and power queries is taken as UTC. Alignment of the requested interval is not enforced, as the source does not enforce it.
- The timestamps of the energy and power responses are checked against chrono's date range as of chrono 0.4.38 (1 January -262143 to 31 December 262142); releases before 0.4.35 allowed one more year at each end (years -262144 to 262143), which is not modelled.
- GetPowerData.FiveMinuteIntervalStart: the panic of `date + Duration::seconds(add)` (tapo/src/requests/get_power_data.rs:52) when the rounded instant passes chrono's last instant, 31 December 262142 23:59:59, is not modelled; the model returns the rounded instant beyond that range, and so does GetPowerData.New, which rounds through it.
- GetPowerData.HourlyIntervalStart: the panic of `hour_start + Duration::hours(1)` (tapo/src/requests/get_power_data.rs:76) past chrono's last instant is not modelled in the same way.
- The panics of `+ Duration::hours(1)`, `+ Duration::days(1)` and `+ Months::new(1)` (tapo/src/responses/energy_data_result.rs:89-91) and of `+= interval_duration` (tapo/src/responses/power_data_result.rs:100) when a step leaves chrono's date range are not modelled: the entries' times are unbounded integers.
- The years of `time::Date` are taken as at most four digits either side of zero, as without the time crate's `large-dates` feature; the six-digit years and the mandatory `+` of that feature are not modelled.
- Calendar.AddOneMonth: its date claim is stated on day numbers as `AddOneMonthOfDay` plus `NextMonthDayOfDate`, rather than in one contract on calendar dates.
- The hub handler matches the S200B/T310/T315 variants of the child-list enum of tapo/src/responses/child_device_list_result.rs, so the hub lookup is modelled over that list (`ChildDeviceLists.Child`).
- The first crate's L530 `send` (src/requests/set_device_info/l530.rs:95-98) serialises without validating. Request sending and serde are not modelled, so it has no member.
- The `to_dict` and other pyo3 conversion methods of the Python bindings are not modelled; neither are discovery's streaming of results or the Python event loop.

## Findings

| source | as written | input that shows it | evidently intended | confidence | as-written member | corrected member |
|---|---|---|---|---|---|---|
| tapo/src/api/protocol/passthrough_protocol.rs:119-125 | `clone_as_discovery` hands the discovery protocol the stored credentials, which `new` (lines 129-140) has already base64-encoded and digested; rediscovery (tapo/src/api/protocol/discovery_protocol.rs:31-35, reached from tapo/src/api/protocol/tapo_protocol.rs:46) then encodes them a second time | any non-empty password, e.g. "pw": after rediscovery the device receives the base64 of "cHc=" instead of "cHc=" | the credentials as the user gave them, as the KLAP protocol's `clone_as_discovery` (tapo/src/api/protocol/klap_protocol.rs:94-100) passes them | medium, not executed | PassthroughProtocols.CloneAsDiscoveryAsWrittenReencodes, TapoProtocols.ClonedPassthroughPasswordDiffers | PassthroughProtocols.CloneAsDiscoveryKeepsLogin, TapoProtocols.LoginThenCloneAsIntended |
